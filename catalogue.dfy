/**
 * The object catalogue (circloo_helper/objects.py): one constructor per game
 * entity, each a fixed attribute layout behind a tag token, a fixed list of
 * conditionally appended modifier lines and, for the connection kinds, the
 * two endpoints.
 */
module Catalogue {
  import opened Wrappers
  import opened Text
  import opened LevelObject

  /**
   * One call of a catalogue class with its arguments; the defaults are those
   * of the Python signatures. Numeric arguments are integers (see README).
   */
  datatype Factory =
    | Player(x: int, y: int, size: int := 1, speed: int := 1, density: int := 1, bullet: bool := true)
    | Circle(x: int, y: int, radius: int, attractor: int := 0)
    | Rectangle(x: int, y: int, width: int, height: int, rotation: int := 0)
    | Triangle(x1: int, y1: int, x2: int, y2: int, x3: int, y3: int)
    | Line(x1: int, y1: int, x2: int, y2: int, thickness: int := 3)
    | Arc(x: int, y: int, startPos: int, endPos: int, radius: int, ctrX: int := -1, ctrY: int := -1, thickness: int := 3)
    | Curve(startX: int, startY: int, ctr1X: int, ctr1Y: int, ctr2X: int, ctr2Y: int, endX: int, endY: int,
            thickness: int := 3, resolution: int := 100)
    | GrowingCircle(x: int, y: int, radius: int, keepPos: bool := false, attractor: int := 0)
    | GrowingRectangle(x: int, y: int, width: int, height: int, rotation: int := 0, keepPos: bool := false)
    | MoveableCircle(x: int, y: int, radius: int, density: int := 1, damping: int := 0, wheelImage: bool := false,
                     attractor: int := 0)
    | MoveableRectangle(x: int, y: int, width: int, height: int, density: int := 1, damping: int := -1,
                        rotation: int := 0, fixRotation: bool := false)
    | MoveableTriangle(x1: int, y1: int, x2: int, y2: int, x3: int, y3: int, density: int := 1, fixRotation: bool := false)
    | RotatableRectangle(x: int, y: int, width: int, height: int, rotation: int := 0, density: int := 1, damping: int := 0)
    | RotatableCircle(x: int, y: int, radius: int, motorSpeed: int := 0, torque: int := 100)
    | SpringyRectangle(x: int, y: int, width: int, height: int, rotation: int := 0, density: int := 1,
                       frequency: int := 2, springDamping: Attr := S("0.3"), fulcrumOffset: int := 0,
                       fulcrumRadius: int := 10)
    | BallGenerator(x: int, y: int, radius: int, density: int := 1, disappearAfter: int := 5, waitBetween: int := 1,
                    initDelay: int := 0, damping: int := 0, noFade: bool := false, startOff: bool := false)
    | RectangleGenerator(x: int, y: int, width: int, height: int, density: int := 1, rotation: int := 0,
                         damping: int := 0, disappearAfter: int := 5, waitBetween: int := 1, initDelay: int := 0,
                         fixRotation: bool := false, noFade: bool := false, startOff: bool := false)
    | TriangleGenerator(x1: int, y1: int, x2: int, y2: int, x3: int, y3: int, density: int := 1,
                        disappearAfter: int := 5, waitBetween: int := 1, initDelay: int := 0,
                        fixRotation: bool := false, noFade: bool := false, startOff: bool := false)
    | Portal(portalX: int, portalY: int, targetX: int, targetY: int, deactivateCircle: int := 7, minTime: int := 0)
    | Glue(glued1: int, glued2: int)
    | Rope(obj1: Endpoint, obj2: Endpoint, offset1X: int := 0, offset1Y: int := 0, offset2X: int := 0,
           offset2Y: int := 0, maxLength: int := 0)
    | PortalRope(obj1: Endpoint, obj2: Endpoint, alsoMoveDestination: bool := false)
    | Pulley(obj1: Endpoint, obj2: Endpoint, pulley1X: int := 0, pulley1Y: int := -100, pulley2X: int := 0,
             pulley2Y: int := -100, offset1X: int := 0, offset1Y: int := 0, offset2X: int := 0, offset2Y: int := 0,
             ratio: int := 1, unlockMovement: bool := false)
    | Hinge(obj1: Endpoint, obj2: Endpoint, offsetX: int := 0, offsetY: int := 0, drawConnectionLine: bool := false,
            enableCollisions: bool := false, motorSpeed: int := 0, torque: int := 100)
    | Slider(obj1: Endpoint, obj2: Endpoint, offsetX: int := 0, offsetY: int := 0)
    | SpecialConnection(collectable: Endpoint, target: Endpoint, action: string)
    | Collectable(x: int, y: int, appearAtSegment: int := 1, partOfSegment: int := 0, zoom: int := -1,
                  isTrigger: bool := false, collectFromObject: bool := false)
    | GravityCollectable(x: int, y: int, appearAtSegment: int := 1, gravDir: int := 270, gravStrength: int := 1,
                         partOfSegment: int := 0, zoom: int := -1, isTrigger: bool := false,
                         collectFromObject: bool := false)
    | SizeCollectable(x: int, y: int, appearAtSegment: int := 1, size: int := 1, partOfSegment: int := 0,
                      zoom: int := -1, isTrigger: bool := false, collectFromObject: bool := false)
    | DisconnectCollectable(x: int, y: int, appearAtSegment: int := 1, partOfSegment: int := 0, zoom: int := -1,
                            isTrigger: bool := false, collectFromObject: bool := false)
    | SpeedCollectable(x: int, y: int, appearAtSegment: int := 1, speed: int := 1, partOfSegment: int := 0,
                       zoom: int := -1, isTrigger: bool := false, collectFromObject: bool := false)
    | SpecialCollectable(x: int, y: int, appearAtSegment: int := 1, partOfSegment: int := 0, zoom: int := -1,
                         isTrigger: bool := false, collectFromObject: bool := false)
  {
    predicate IsCollectable() {
      Collectable? || GravityCollectable? || SizeCollectable? || DisconnectCollectable?
      || SpeedCollectable? || SpecialCollectable?
    }

    predicate IsGenerator() {
      BallGenerator? || RectangleGenerator? || TriangleGenerator?
    }

    /** The classes whose constructor calls set_connections. */
    predicate IsConnection() {
      Rope? || PortalRope? || Pulley? || Hinge? || Slider? || SpecialConnection?
    }
  }

  /** int(b) for a Python bool. */
  function Bit(b: bool): (r: int) {
    if b then 1 else 0
  }

  /** The letters between the quotes of a collectable's tag, chosen by collect_from_object. */
  function Letters(f: Factory): (r: string)
    requires f.IsCollectable()
  {
    match f
    case Collectable(_, _, _, _, _, _, o) => if o then "io" else "i"
    case GravityCollectable(_, _, _, _, _, _, _, _, o) => if o then "im" else "ig"
    case SizeCollectable(_, _, _, _, _, _, _, o) => if o then "iso" else "is"
    case DisconnectCollectable(_, _, _, _, _, _, o) => if o then "irbo" else "irb"
    case SpeedCollectable(_, _, _, _, _, _, _, o) => if o then "ipso" else "ips"
    case SpecialCollectable(_, _, _, _, _, _, o) => if o then "ispo" else "isp"
  }

  /** The tag a constructor puts first in its attribute list. */
  function Tag(f: Factory): (r: string) {
    match f
    case Player(_, _, _, _, _, _) => "y"
    case Circle(_, _, _, _) => "c"
    case Rectangle(_, _, _, _, _) => "b"
    case Triangle(_, _, _, _, _, _) => "t"
    case Line(_, _, _, _, _) => "l_at"
    case Arc(_, _, _, _, _, _, _, _) => "/ LE_ARC_DESCRIPTION"
    case Curve(_, _, _, _, _, _, _, _, _, _) => "curve"
    case GrowingCircle(_, _, _, _, _) => "gc"
    case GrowingRectangle(_, _, _, _, _, _) => "rGr"
    case MoveableCircle(_, _, _, _, _, _, _) => "mc"
    case MoveableRectangle(_, _, _, _, _, _, _, _) => "mb"
    case MoveableTriangle(_, _, _, _, _, _, _, _) => "mt"
    case RotatableRectangle(_, _, _, _, _, _, _) => "rr"
    case RotatableCircle(_, _, _, _, _) => "rc"
    case SpringyRectangle(_, _, _, _, _, _, _, _, _, _) => "wr"
    case BallGenerator(_, _, _, _, _, _, _, _, _, _) => "tmc"
    case RectangleGenerator(_, _, _, _, _, _, _, _, _, _, _, _, _) => "tmb"
    case TriangleGenerator(_, _, _, _, _, _, _, _, _, _, _, _, _) => "tmt"
    case Portal(_, _, _, _, _, _) => "portal"
    case Glue(_, _) => "/ GLUE"
    case Rope(_, _, _, _, _, _, _) => "r"
    case PortalRope(_, _, _) => "fd"
    case Pulley(_, _, _, _, _, _, _, _, _, _, _, _) => "/ p_description"
    case Hinge(_, _, _, _, _, _, _, _) => "hinge"
    case Slider(_, _, _, _) => "pr"
    case SpecialConnection(_, _, _) => "spc"
    case _ => "ic '" + Letters(f) + "'"
  }

  /** The attribute list each constructor passes to Object.__init__. */
  function Layout(f: Factory): (r: seq<Attr>) {
    [S(Tag(f))] + Values(f)
  }

  /** What follows the tag in a constructor's attribute list. */
  function Values(f: Factory): (r: seq<Attr>) {
    match f
    case Player(x, y, size, speed, density, _) => [I(x), I(y), I(size), I(speed), I(density)]
    case Circle(x, y, r, _) => [I(x), I(y), I(r)]
    case Rectangle(x, y, w, h, rot) => [I(x), I(y), I(w), I(h), I(rot)]
    case Triangle(x1, y1, x2, y2, x3, y3) => [I(x1), I(y1), I(x2), I(y2), I(x3), I(y3)]
    case Line(x1, y1, x2, y2, t) => [I(x1), I(y1), I(x2), I(y2), I(t)]
    case Arc(x, y, s, e, r, cx, cy, t) => [I(x), I(y), I(s), I(e), I(r), I(cx), I(cy), I(2), I(t)]
    case Curve(sx, sy, c1x, c1y, c2x, c2y, ex, ey, t, res) =>
      [I(sx), I(sy), I(c1x), I(c1y), I(c2x), I(c2y), I(ex), I(ey), I(t), I(res)]
    case GrowingCircle(x, y, r, _, _) => [I(x), I(y), I(r)]
    case GrowingRectangle(x, y, w, h, rot, _) => [I(x), I(y), I(w), I(h), I(rot)]
    case MoveableCircle(x, y, r, d, dmp, _, _) => [I(x), I(y), I(r), I(d), I(dmp)]
    case MoveableRectangle(x, y, w, h, d, dmp, rot, _) =>
      [I(x), I(y), I(w), I(h), I(d), I(dmp), I(rot), I(dmp)]
    case MoveableTriangle(x1, y1, x2, y2, x3, y3, d, _) => [I(x1), I(y1), I(x2), I(y2), I(x3), I(y3), I(d)]
    case RotatableRectangle(x, y, w, h, rot, d, dmp) => [I(x), I(y), I(w), I(h), I(rot), I(d), I(dmp)]
    case RotatableCircle(x, y, r, m, t) => [I(x), I(y), I(r), I(m), I(t)]
    case SpringyRectangle(x, y, w, h, rot, d, fq, dmp, fo, fr) =>
      [I(x), I(y), I(w), I(h), I(rot), I(d), I(fq), dmp, I(fo), I(fr)]
    case BallGenerator(x, y, r, d, da, wb, id, _, _, _) =>
      [I(x), I(y), I(r), I(d), I(da * 60), I(wb * 60), I(id * 60)]
    case RectangleGenerator(x, y, w, h, d, rot, dmp, da, wb, id, _, _, _) =>
      [I(x), I(y), I(w), I(h), I(d), I(dmp), I(rot), I(dmp), I(da * 60), I(wb * 60), I(id * 60)]
    case TriangleGenerator(x1, y1, x2, y2, x3, y3, d, da, wb, id, _, _, _) =>
      [I(x1), I(y1), I(x2), I(y2), I(x3), I(y3), I(d), I(-1), I(-1), I(da * 60), I(wb * 60), I(id * 60)]
    case Portal(px, py, tx, ty, dc, mt) => [I(px), I(py), I(tx), I(ty), I(1), I(dc), I(mt)]
    case Glue(a, b) => [I(a), I(b)]
    case Rope(_, _, o1x, o1y, o2x, o2y, ml) => [I(o1x), I(o1y), I(o2x), I(o2y), I(ml)]
    case PortalRope(_, _, also) => [I(Bit(also))]
    case Pulley(_, _, p1x, p1y, p2x, p2y, o1x, o1y, o2x, o2y, ratio, _) =>
      [I(o1x), I(o1y), I(o2x), I(o2y), I(p1x), I(p1y), I(p2x), I(p2y), I(ratio)]
    case Hinge(_, _, ox, oy, draw, coll, m, t) => [I(ox), I(oy), I(Bit(draw)), I(Bit(coll)), I(m), I(t)]
    case Slider(_, _, ox, oy) => [S("1.0"), S("-0.0"), I(-1), I(-1), I(ox), I(oy)]
    case SpecialConnection(_, _, action) => [S(action)]
    case Collectable(x, y, a, _, _, _, _) => [I(x), I(y), I(a)]
    case GravityCollectable(x, y, a, gd, gs, _, _, _, _) => [I(x), I(y), I(a), I(gd), I(gs)]
    case SizeCollectable(x, y, a, s, _, _, _, _) => [I(x), I(y), I(a), I(s)]
    case DisconnectCollectable(x, y, a, _, _, _, _) => [I(x), I(y), I(a)]
    case SpeedCollectable(x, y, a, s, _, _, _, _) => [I(x), I(y), I(a), I(s)]
    case SpecialCollectable(x, y, a, _, _, _, _) => [I(x), I(y), I(a)]
  }

  lemma LayoutParts(f: Factory)
    ensures |Layout(f)| == |Values(f)| + 1 && Layout(f)[0] == S(Tag(f)) && Layout(f)[1..] == Values(f)
  {
    DropAppend([S(Tag(f))], Values(f));
  }

  /** Every class but SpringyRectangle, Slider and SpecialConnection follows its tag with integers only. */
  lemma IntValues(f: Factory)
    requires !(f.SpringyRectangle? || f.Slider? || f.SpecialConnection?)
    ensures forall i :: 0 <= i < |Values(f)| ==> Values(f)[i].I?
  {
    if f.IsCollectable() {
    } else if f.IsConnection() || f.Glue? || f.Portal? {
    } else if f.IsGenerator() {
    } else {
    }
  }

  // ----- conditional modifiers -----

  /** A modifier line a constructor appends, and the condition under which it does. */
  type Optional = (bool, string)

  /** The lines whose condition holds, in the order given. */
  function Selected(opts: seq<Optional>): (r: seq<string>)
    ensures |r| <= |opts|
  {
    if opts == [] then []
    else (if opts[0].0 then [opts[0].1] else []) + Selected(opts[1..])
  }

  /** Every option whose condition holds has its line selected. */
  lemma {:induction false} SelectedIncludes(opts: seq<Optional>)
    ensures forall i :: 0 <= i < |opts| && opts[i].0 ==> opts[i].1 in Selected(opts)
  {
    if opts != [] {
      SelectedIncludes(opts[1..]);
      forall i | 1 <= i < |opts| ensures opts[i] == opts[1..][i - 1] { }
    }
  }

  /** Every selected line comes from an option whose condition holds. */
  lemma {:induction false} SelectedOnlyFrom(opts: seq<Optional>, m: string)
    requires m in Selected(opts)
    ensures exists i :: 0 <= i < |opts| && opts[i].0 && opts[i].1 == m
  {
    if opts[0].0 && m == opts[0].1 {
      assert opts[0].0 && opts[0].1 == m;
    } else {
      SelectedOnlyFrom(opts[1..], m);
      var i :| 0 <= i < |opts| - 1 && opts[1..][i].0 && opts[1..][i].1 == m;
      assert opts[i + 1].0 && opts[i + 1].1 == m;
    }
  }

  lemma {:induction false} SelectedAppend(a: seq<Optional>, b: seq<Optional>)
    ensures Selected(a + b) == Selected(a) + Selected(b)
  {
    if a != [] {
      assert (a + b)[1..] == a[1..] + b;
      SelectedAppend(a[1..], b);
    } else {
      assert a + b == b;
    }
  }

  /** The line of one option, if its condition holds. */
  function Chosen(opt: Optional): (r: seq<string>) {
    if opt.0 then [opt.1] else []
  }

  /**
   * The lines chosen from one, two or three conditional appends, as they
   * extend a modifier list m.
   */
  lemma SelectedOne(m: seq<string>, a: Optional)
    ensures m + Selected([a]) == m + Chosen(a)
  {
    assert [a][1..] == [];
  }

  lemma SelectedTwo(m: seq<string>, a: Optional, b: Optional)
    ensures m + Selected([a, b]) == m + Chosen(a) + Chosen(b)
  {
    assert [a, b][1..] == [b];
    SelectedOne([], b);
  }

  lemma SelectedThree(m: seq<string>, a: Optional, b: Optional, c: Optional)
    ensures m + Selected([a, b, c]) == m + Chosen(a) + Chosen(b) + Chosen(c)
  {
    assert [a, b, c][1..] == [b, c];
    SelectedTwo([], b, c);
  }

  /** f"attr {attractor}" when the attractor is not 0. */
  function Attractor(attractor: int): (r: Optional) {
    (attractor != 0, "attr " + IntToString(attractor))
  }

  /** The three optional lines of Collectable.init_modifiers, in order. */
  function InitOptions(partOfSegment: int, zoom: int, isTrigger: bool): (r: seq<Optional>) {
    [(partOfSegment != 0, "iGrow " + IntToString(partOfSegment)),
     (zoom != -1, "zoomFactor " + IntToString(zoom)),
     (isTrigger, "trigger")]
  }

  /** The conditional add_modifier calls of each constructor, in program order. */
  function Options(f: Factory): (r: seq<Optional>) {
    match f
    case Player(_, _, _, _, _, bullet) => [(bullet, "bullet")]
    case Circle(_, _, _, a) => [Attractor(a)]
    case GrowingCircle(_, _, _, keep, a) => [(keep, "samePosition"), Attractor(a)]
    case GrowingRectangle(_, _, _, _, _, keep) => [(keep, "samePosition")]
    case MoveableCircle(_, _, _, _, _, wheel, a) => [(wheel, "wheelsprite"), Attractor(a)]
    case MoveableRectangle(_, _, _, _, _, _, _, fix) => [(fix, "fixrot")]
    case MoveableTriangle(_, _, _, _, _, _, _, fix) => [(fix, "fixrot")]
    case BallGenerator(_, _, _, _, _, _, _, dmp, noFade, off) =>
      [(dmp != 0, "damping " + IntToString(dmp)), (noFade, "noanim"), (off, "off")]
    case RectangleGenerator(_, _, _, _, _, _, _, _, _, _, fix, noFade, off) =>
      [(fix, "fixrot"), (noFade, "noanim"), (off, "off")]
    case TriangleGenerator(_, _, _, _, _, _, _, _, _, _, fix, noFade, off) =>
      [(fix, "fixrot"), (noFade, "noanim"), (off, "off")]
    case Pulley(_, _, _, _, _, _, _, _, _, _, _, unlock) => [(unlock, "p_free_hmovement")]
    case Collectable(_, _, _, p, z, t, _) => InitOptions(p, z, t)
    case GravityCollectable(_, _, _, _, _, p, z, t, _) => InitOptions(p, z, t)
    case SizeCollectable(_, _, _, _, p, z, t, _) => InitOptions(p, z, t)
    case DisconnectCollectable(_, _, _, p, z, t, _) => InitOptions(p, z, t)
    case SpeedCollectable(_, _, _, _, p, z, t, _) => InitOptions(p, z, t)
    case SpecialCollectable(_, _, _, p, z, t, _) => InitOptions(p, z, t)
    case _ => []
  }

  /** The modifier list a freshly constructed object holds. */
  function Modifiers(f: Factory): (r: seq<string>) {
    Selected(Options(f))
  }

  /** The list passed to set_connections, for the classes that call it. */
  function Ends(f: Factory): (r: seq<Endpoint>)
    ensures |r| == (if f.IsConnection() then 2 else 0)
  {
    match f
    case Rope(a, b, _, _, _, _, _) => [a, b]
    case PortalRope(a, b, _) => [a, b]
    case Pulley(a, b, _, _, _, _, _, _, _, _, _, _) => [a, b]
    case Hinge(a, b, _, _, _, _, _, _) => [a, b]
    case Slider(a, b, _, _) => [a, b]
    case SpecialConnection(c, t, _) => [c, t]
    case _ => []
  }

  function KindOf(f: Factory): (r: Kind) {
    match f
    case Player(_, _, _, _, _, _) => Kind.Player
    case Circle(_, _, _, _) => Kind.Circle
    case Rectangle(_, _, _, _, _) => Kind.Rectangle
    case Triangle(_, _, _, _, _, _) => Kind.Triangle
    case Line(_, _, _, _, _) => Kind.Line
    case Arc(_, _, _, _, _, _, _, _) => Kind.Arc
    case Curve(_, _, _, _, _, _, _, _, _, _) => Kind.Curve
    case GrowingCircle(_, _, _, _, _) => Kind.GrowingCircle
    case GrowingRectangle(_, _, _, _, _, _) => Kind.GrowingRectangle
    case MoveableCircle(_, _, _, _, _, _, _) => Kind.MoveableCircle
    case MoveableRectangle(_, _, _, _, _, _, _, _) => Kind.MoveableRectangle
    case MoveableTriangle(_, _, _, _, _, _, _, _) => Kind.MoveableTriangle
    case RotatableRectangle(_, _, _, _, _, _, _) => Kind.RotatableRectangle
    case RotatableCircle(_, _, _, _, _) => Kind.RotatableCircle
    case SpringyRectangle(_, _, _, _, _, _, _, _, _, _) => Kind.SpringyRectangle
    case BallGenerator(_, _, _, _, _, _, _, _, _, _) => Kind.BallGenerator
    case RectangleGenerator(_, _, _, _, _, _, _, _, _, _, _, _, _) => Kind.RectangleGenerator
    case TriangleGenerator(_, _, _, _, _, _, _, _, _, _, _, _, _) => Kind.TriangleGenerator
    case Portal(_, _, _, _, _, _) => Kind.Portal
    case Glue(_, _) => Kind.Glue
    case Rope(_, _, _, _, _, _, _) => Kind.Rope
    case PortalRope(_, _, _) => Kind.PortalRope
    case Pulley(_, _, _, _, _, _, _, _, _, _, _, _) => Kind.Pulley
    case Hinge(_, _, _, _, _, _, _, _) => Kind.Hinge
    case Slider(_, _, _, _) => Kind.Slider
    case SpecialConnection(_, _, _) => Kind.SpecialConnection
    case Collectable(_, _, _, _, _, _, _) => Kind.Collectable
    case GravityCollectable(_, _, _, _, _, _, _, _, _) => Kind.GravityCollectable
    case SizeCollectable(_, _, _, _, _, _, _, _) => Kind.SizeCollectable
    case DisconnectCollectable(_, _, _, _, _, _, _) => Kind.DisconnectCollectable
    case SpeedCollectable(_, _, _, _, _, _, _, _) => Kind.SpeedCollectable
    case SpecialCollectable(_, _, _, _, _, _, _) => Kind.SpecialCollectable
  }

  predicate IsCollectableKind(k: Kind) {
    k.Collectable? || k.GravityCollectable? || k.SizeCollectable? || k.DisconnectCollectable?
    || k.SpeedCollectable? || k.SpecialCollectable?
  }

  // ----- construction -----

  /**
   * Calling the class: Object.__init__ with the layout, then set_connections
   * for the connection kinds, then the conditional add_modifier calls.
   */
  method Make(f: Factory) returns (o: Object)
    ensures fresh(o)
    ensures o.attributes == Layout(f) && o.modifiers == Modifiers(f) && o.connections == Ends(f)
    ensures o.id == -1 && o.numberOfPositions == None && o.kind == KindOf(f)
  {
    var ends := Ends(f);
    o := new Object(Layout(f), [], [], -1, KindOf(f));
    if f.IsConnection() {
      var error := o.SetConnections(ends);
      assert error.None?;
    }
    AddModifiers(o, f);
  }

  /** The modifier statements of a constructor: init_modifiers for collectables, the `if` statements otherwise. */
  method AddModifiers(o: Object, f: Factory)
    modifies o`modifiers
    ensures o.modifiers == old(o.modifiers) + Modifiers(f)
  {
    if f.IsCollectable() {
      InitModifiers(o, f.partOfSegment, f.zoom, f.isTrigger);
      assert Options(f) == InitOptions(f.partOfSegment, f.zoom, f.isTrigger);
    } else {
      AddOptions(o, f);
    }
  }

  /** The `if …: self.add_modifier(…)` statements of the constructors outside the collectable family. */
  method AddOptions(o: Object, f: Factory)
    requires !f.IsCollectable()
    modifies o`modifiers
    ensures o.modifiers == old(o.modifiers) + Modifiers(f)
  {
    if f.Player? || f.Circle? || f.GrowingCircle? || f.GrowingRectangle? || f.MoveableCircle?
      || f.MoveableRectangle? || f.MoveableTriangle? {
      AddShapeOptions(o, f);
    } else if f.IsGenerator() || f.Pulley? {
      AddGeneratorOptions(o, f);
    } else {
      assert Options(f) == [];
    }
  }

  /** The conditional modifiers of the solid and moveable shapes and of Player. */
  method AddShapeOptions(o: Object, f: Factory)
    requires f.Player? || f.Circle? || f.GrowingCircle? || f.GrowingRectangle? || f.MoveableCircle?
      || f.MoveableRectangle? || f.MoveableTriangle?
    modifies o`modifiers
    ensures o.modifiers == old(o.modifiers) + Modifiers(f)
  {
    match f
    case Player(_, _, _, _, _, bullet) =>
      AddOne(o, (bullet, "bullet"));
    case Circle(_, _, _, a) =>
      AddOne(o, Attractor(a));
    case GrowingCircle(_, _, _, keep, a) =>
      AddTwo(o, (keep, "samePosition"), Attractor(a));
    case GrowingRectangle(_, _, _, _, _, keep) =>
      AddOne(o, (keep, "samePosition"));
    case MoveableCircle(_, _, _, _, _, wheel, a) =>
      AddTwo(o, (wheel, "wheelsprite"), Attractor(a));
    case MoveableRectangle(_, _, _, _, _, _, _, fix) =>
      AddOne(o, (fix, "fixrot"));
    case MoveableTriangle(_, _, _, _, _, _, _, fix) =>
      AddOne(o, (fix, "fixrot"));
  }

  /** The conditional modifiers of the three generators and of Pulley. */
  method AddGeneratorOptions(o: Object, f: Factory)
    requires f.IsGenerator() || f.Pulley?
    modifies o`modifiers
    ensures o.modifiers == old(o.modifiers) + Modifiers(f)
  {
    if f.BallGenerator? {
      var opts := [(f.damping != 0, "damping " + IntToString(f.damping)), (f.noFade, "noanim"), (f.startOff, "off")];
      assert Options(f) == opts;
      AddThree(o, opts[0], opts[1], opts[2]);
    } else if f.Pulley? {
      assert Options(f) == [(f.unlockMovement, "p_free_hmovement")];
      AddOne(o, (f.unlockMovement, "p_free_hmovement"));
    } else {
      var opts := [(f.fixRotation, "fixrot"), (f.noFade, "noanim"), (f.startOff, "off")];
      assert Options(f) == opts;
      AddThree(o, opts[0], opts[1], opts[2]);
    }
  }

  /** Collectable.init_modifiers(part_of_segment, zoom, is_trigger) */
  method InitModifiers(o: Object, partOfSegment: int, zoom: int, isTrigger: bool)
    modifies o`modifiers
    ensures o.modifiers == old(o.modifiers) + Selected(InitOptions(partOfSegment, zoom, isTrigger))
  {
    AddThree(o, (partOfSegment != 0, "iGrow " + IntToString(partOfSegment)),
      (zoom != -1, "zoomFactor " + IntToString(zoom)), (isTrigger, "trigger"));
  }

  /** `if condition: self.add_modifier(line)` */
  method AddIf(o: Object, condition: bool, line: string)
    modifies o`modifiers
    ensures o.modifiers == old(o.modifiers) + Chosen((condition, line))
  {
    if condition {
      o.AddModifier(line);
    }
  }

  /** One, two or three consecutive conditional appends of a constructor. */
  method AddOne(o: Object, a: Optional)
    modifies o`modifiers
    ensures o.modifiers == old(o.modifiers) + Selected([a])
  {
    AddIf(o, a.0, a.1);
    SelectedOne(old(o.modifiers), a);
  }

  method AddTwo(o: Object, a: Optional, b: Optional)
    modifies o`modifiers
    ensures o.modifiers == old(o.modifiers) + Selected([a, b])
  {
    AddIf(o, a.0, a.1);
    AddIf(o, b.0, b.1);
    SelectedTwo(old(o.modifiers), a, b);
  }

  method AddThree(o: Object, a: Optional, b: Optional, c: Optional)
    modifies o`modifiers
    ensures o.modifiers == old(o.modifiers) + Selected([a, b, c])
  {
    AddIf(o, a.0, a.1);
    AddIf(o, b.0, b.1);
    AddIf(o, c.0, c.1);
    SelectedThree(old(o.modifiers), a, b, c);
  }

  /**
   * The sound line; `play` is int(play_if_no_function): -1 for automatic,
   * 1 or 0 (Bit of a bool) for always or never.
   */
  function SoundLine(group: string, note: int, volume: int, pitch: int, play: int): (r: string) {
    "sfx " + SoundName(group, note) + " " + IntToString(volume) + " " + IntToString(pitch) + " "
    + IntToString(play)
  }

  /** The sound to play: the group and the note between single quotes. */
  function SoundName(group: string, note: int): (r: string) {
    "'" + group + IntToString(note) + "'"
  }

  /** Collectable.set_sound: exactly one more modifier, the sound line. */
  method SetSound(o: Object, group: string, note: int, volume: int, pitch: int, play: int)
    requires IsCollectableKind(o.kind)
    modifies o`modifiers
    ensures o.modifiers == old(o.modifiers) + [SoundLine(group, note, volume, pitch, play)]
  {
    o.AddModifier(SoundLine(group, note, volume, pitch, play));
  }

  /** Collectable.mute */
  method Mute(o: Object)
    requires IsCollectableKind(o.kind)
    modifies o`modifiers
    ensures o.modifiers == old(o.modifiers) + ["sfx 'none'"]
  {
    o.AddModifier("sfx 'none'");
  }


  // ----- properties of the catalogue -----

  /** A label followed by a number is one line of text. */
  lemma LabelledIntNoLineBreak(prefix: string, n: int)
    requires NoLineBreak(prefix)
    ensures NoLineBreak(prefix + IntToString(n))
  {
    IntNoLineBreak(n);
    ConcatNoLineBreak(prefix, IntToString(n));
  }

  /** Every line a constructor may append is a single line. */
  lemma OptionsSingleLine(f: Factory)
    ensures forall i :: 0 <= i < |Options(f)| ==> NoLineBreak(Options(f)[i].1)
  {
    FixedOptionsSingleLine();
    PrefixesSingleLine();
    if f.IsCollectable() {
      assert Options(f) == InitOptions(f.partOfSegment, f.zoom, f.isTrigger);
      InitOptionsSingleLine(f.partOfSegment, f.zoom);
    } else if f.Circle? || f.GrowingCircle? || f.MoveableCircle? {
      LabelledIntNoLineBreak("attr ", f.attractor);
    } else if f.BallGenerator? {
      LabelledIntNoLineBreak("damping ", f.damping);
    }
  }

  lemma FixedOptionsSingleLine()
    ensures NoLineBreak("bullet") && NoLineBreak("samePosition") && NoLineBreak("wheelsprite")
    ensures NoLineBreak("fixrot") && NoLineBreak("noanim") && NoLineBreak("off")
    ensures NoLineBreak("p_free_hmovement") && NoLineBreak("trigger")
  {
    PrintableNoLineBreak("bullet");
    PrintableNoLineBreak("samePosition");
    PrintableNoLineBreak("wheelsprite");
    PrintableNoLineBreak("fixrot");
    PrintableNoLineBreak("noanim");
    PrintableNoLineBreak("off");
    PrintableNoLineBreak("p_free_hmovement");
    PrintableNoLineBreak("trigger");
  }

  lemma PrefixesSingleLine()
    ensures NoLineBreak("attr ") && NoLineBreak("damping ") && NoLineBreak("iGrow ") && NoLineBreak("zoomFactor ")
  {
    PrintableNoLineBreak("attr ");
    PrintableNoLineBreak("damping ");
    PrintableNoLineBreak("iGrow ");
    PrintableNoLineBreak("zoomFactor ");
  }

  lemma InitOptionsSingleLine(p: int, z: int)
    ensures NoLineBreak("iGrow " + IntToString(p)) && NoLineBreak("zoomFactor " + IntToString(z))
  {
    PrefixesSingleLine();
    LabelledIntNoLineBreak("iGrow ", p);
    LabelledIntNoLineBreak("zoomFactor ", z);
  }

  /** Each modifier a constructor adds is one line, so it keeps its place in the text format. */
  lemma ModifiersSingleLine(f: Factory)
    ensures forall i :: 0 <= i < |Modifiers(f)| ==> NoLineBreak(Modifiers(f)[i])
  {
    OptionsSingleLine(f);
    forall i | 0 <= i < |Modifiers(f)| ensures NoLineBreak(Modifiers(f)[i]) {
      SelectedOnlyFrom(Options(f), Modifiers(f)[i]);
    }
  }

  /** The option lines of one constructor already differ in their first character. */
  lemma OptionsDistinct(f: Factory)
    ensures forall j, k :: 0 <= j < k < |Options(f)| ==> Options(f)[j].1 != Options(f)[k].1
  {
    var opts := Options(f);
    if f.IsCollectable() {
      assert opts == InitOptions(f.partOfSegment, f.zoom, f.isTrigger);
    }
    forall j, k | 0 <= j < k < |opts| ensures opts[j].1 != opts[k].1 {
      assert |opts[j].1| > 0 && |opts[k].1| > 0;
      assert opts[j].1[0] != opts[k].1[0];
    }
  }

  /**
   * A constructor's optional modifier is present exactly when its condition
   * holds (attractor non-zero, flag set, value not the default).
   */
  lemma {:induction false} ModifierIffCondition(f: Factory, i: nat)
    requires i < |Options(f)|
    ensures Options(f)[i].1 in Modifiers(f) <==> Options(f)[i].0
  {
    var opts := Options(f);
    SelectedIncludes(opts);
    if opts[i].1 in Modifiers(f) {
      SelectedOnlyFrom(opts, opts[i].1);
      var j :| 0 <= j < |opts| && opts[j].0 && opts[j].1 == opts[i].1;
      OptionsDistinct(f);
      assert j == i;
    }
  }

  /** Two selected lines keep the order of their options. */
  lemma {:induction false} SelectedOrder(opts: seq<Optional>, i: nat, j: nat)
    requires i < j < |opts| && opts[i].0 && opts[j].0
    ensures exists p, q :: (0 <= p < q < |Selected(opts)|
      && Selected(opts)[p] == opts[i].1 && Selected(opts)[q] == opts[j].1)
  {
    var front, back := opts[..j], opts[j..];
    assert opts == front + back;
    SelectedAppend(front, back);
    assert front[i] == opts[i];
    SelectedIncludes(front);
    var m :| m in Selected(front) && m == opts[i].1;
    var p :| 0 <= p < |Selected(front)| && Selected(front)[p] == m;
    assert back[0] == opts[j];
    assert Selected(back)[0] == opts[j].1;
    var q := |Selected(front)|;
    assert Selected(opts)[p] == opts[i].1 && Selected(opts)[q] == opts[j].1;
  }

  /** The generators store their three times in frames, sixty per second. */
  lemma GeneratorFrames(f: Factory)
    requires f.IsGenerator()
    ensures var attrs := Layout(f); var n := |attrs|;
      n >= 3 && attrs[n - 3..] == [I(60 * f.disappearAfter), I(60 * f.waitBetween), I(60 * f.initDelay)]
  {
  }

  /** MoveableRectangle and RectangleGenerator write their damping twice, at positions 6 and 8. */
  lemma DampingTwice(f: Factory)
    requires f.MoveableRectangle? || f.RectangleGenerator?
    ensures |Layout(f)| > 8 && Layout(f)[6] == Layout(f)[8] == I(f.damping)
  {
  }

  /** Boolean arguments become the integers 0 and 1. */
  lemma BooleansAsBits(f: Factory)
    ensures f.PortalRope? ==> Layout(f)[1] == I(if f.alsoMoveDestination then 1 else 0)
    ensures f.Hinge? ==> (Layout(f)[3] == I(if f.drawConnectionLine then 1 else 0)
      && Layout(f)[4] == I(if f.enableCollisions then 1 else 0))
  {
  }

  /** The quoted letters of a collectable tag tell its class and its collect_from_object flag. */
  lemma LettersIdentify(f: Factory, g: Factory)
    requires f.IsCollectable() && g.IsCollectable()
    ensures Letters(f) == Letters(g) <==> KindOf(f) == KindOf(g) && f.collectFromObject == g.collectFromObject
  {
    LettersByIndex(f);
    LettersByIndex(g);
    TagTableDistinct();
    IndexIdentifies(f, g);
  }

  /** The twelve collectable letter codes, two per class. */
  function TagTable(): (r: seq<string>) {
    ["i", "io", "ig", "im", "is", "iso", "irb", "irbo", "ips", "ipso", "isp", "ispo"]
  }

  lemma TagTableDistinct()
    ensures |TagTable()| == 12
    ensures forall i, j :: 0 <= i < j < 12 ==> TagTable()[i] != TagTable()[j]
  {
  }

  /** The six collectable classes, in the order of the tag table. */
  function CollectableKinds(): (r: seq<Kind>) {
    [Kind.Collectable, Kind.GravityCollectable, Kind.SizeCollectable, Kind.DisconnectCollectable,
     Kind.SpeedCollectable, Kind.SpecialCollectable]
  }

  function ClassIndex(f: Factory): (n: nat)
    requires f.IsCollectable()
    ensures n < 6
  {
    if f.Collectable? then 0 else if f.GravityCollectable? then 1 else if f.SizeCollectable? then 2
    else if f.DisconnectCollectable? then 3 else if f.SpeedCollectable? then 4 else 5
  }

  /** The position of a collectable's letters in the tag table. */
  function LetterIndex(f: Factory): (n: nat)
    requires f.IsCollectable()
    ensures n < 12
  {
    2 * ClassIndex(f) + (if f.collectFromObject then 1 else 0)
  }

  lemma LettersByIndex(f: Factory)
    requires f.IsCollectable()
    ensures Letters(f) == TagTable()[LetterIndex(f)]
  {
  }

  lemma KindByIndex(f: Factory)
    requires f.IsCollectable()
    ensures KindOf(f) == CollectableKinds()[ClassIndex(f)]
  {
  }

  lemma IndexIdentifies(f: Factory, g: Factory)
    requires f.IsCollectable() && g.IsCollectable()
    ensures LetterIndex(f) == LetterIndex(g) <==> KindOf(f) == KindOf(g) && f.collectFromObject == g.collectFromObject
  {
    KindByIndex(f);
    KindByIndex(g);
    CollectableKindsDistinct();
    var a, b := ClassIndex(f), ClassIndex(g);
    assert LetterIndex(f) == LetterIndex(g) <==> a == b && f.collectFromObject == g.collectFromObject;
  }

  lemma CollectableKindsDistinct()
    ensures forall i, j :: 0 <= i < 6 && 0 <= j < 6 && i != j ==> CollectableKinds()[i] != CollectableKinds()[j]
  {
  }



  /** A token that survives split(): non-empty and free of whitespace. */
  predicate PlainToken(s: string) {
    |s| > 0 && NoSpace(s)
  }

  lemma TagsArePlain()
    ensures PlainToken("y") && PlainToken("c") && PlainToken("b") && PlainToken("t") && PlainToken("l_at")
    ensures PlainToken("curve") && PlainToken("gc") && PlainToken("rGr") && PlainToken("mc") && PlainToken("mb")
    ensures PlainToken("mt") && PlainToken("rr") && PlainToken("rc") && PlainToken("wr")
  {
  }

  lemma MoreTagsArePlain()
    ensures PlainToken("tmc") && PlainToken("tmb") && PlainToken("tmt") && PlainToken("portal") && PlainToken("r")
    ensures PlainToken("fd") && PlainToken("hinge") && PlainToken("pr") && PlainToken("spc")
    ensures PlainToken("1.0") && PlainToken("-0.0")
  {
  }

  /**
   * The rendered attributes are plain tokens for every class except the ones
   * whose tag holds a space (Arc, Glue, Pulley and the collectables) and a
   * SpringyRectangle damping or SpecialConnection action that is empty or holds whitespace.
   */
  lemma LayoutTokenizable(f: Factory)
    ensures Tokenizable(Layout(f)) <==>
      !(f.Arc? || f.Glue? || f.Pulley? || f.IsCollectable())
      && (f.SpringyRectangle? ==> PlainToken(Render(f.springDamping)))
      && (f.SpecialConnection? ==> PlainToken(f.action))
  {
    var attrs := Layout(f);
    if f.Arc? || f.Glue? || f.Pulley? {
      assert IsSpace(Render(attrs[0])[1]);
    } else if f.IsCollectable() {
      assert IsSpace(Render(attrs[0])[2]);
    } else if f.SpringyRectangle? {
      assert Render(attrs[8]) == Render(f.springDamping);
      if PlainToken(Render(f.springDamping)) {
        PlainLayout(f);
      }
    } else if f.SpecialConnection? {
      assert Render(attrs[1]) == f.action;
      if PlainToken(f.action) {
        PlainLayout(f);
      }
    } else {
      PlainLayout(f);
    }
  }

  /** The layouts made of a plain tag and plain values are tokenizable. */
  lemma PlainLayout(f: Factory)
    requires !(f.Arc? || f.Glue? || f.Pulley? || f.IsCollectable())
    requires f.SpringyRectangle? ==> PlainToken(Render(f.springDamping))
    requires f.SpecialConnection? ==> PlainToken(f.action)
    ensures Tokenizable(Layout(f))
  {
    if f.SpringyRectangle? || f.IsGenerator() || f.Portal? {
      PlainValues(f);
    } else if f.IsConnection() {
      PlainConnection(f);
    } else {
      PlainShape(f);
    }
  }

  /** The shapes and Player: a plain tag followed by integers. */
  lemma PlainShape(f: Factory)
    requires !(f.Arc? || f.Glue? || f.Pulley? || f.IsCollectable())
    requires !(f.SpringyRectangle? || f.IsGenerator() || f.Portal? || f.IsConnection())
    ensures Tokenizable(Layout(f))
  {
    TagsArePlain();
    TagThenInts(Layout(f));
  }

  /** A plain tag followed by integers renders to plain tokens. */
  lemma TagThenInts(attrs: seq<Attr>)
    requires |attrs| > 0 && attrs[0].S? && PlainToken(attrs[0].s)
    requires forall i :: 1 <= i < |attrs| ==> attrs[i].I?
    ensures Tokenizable(attrs)
  {
  }

  /** SpringyRectangle, the generators and Portal: a plain tag, integers and the spring damping. */
  lemma PlainValues(f: Factory)
    requires f.SpringyRectangle? || f.IsGenerator() || f.Portal?
    requires f.SpringyRectangle? ==> PlainToken(Render(f.springDamping))
    ensures Tokenizable(Layout(f))
  {
    var attrs := Layout(f);
    TagsArePlain();
    MoreTagsArePlain();
    if f.SpringyRectangle? {
      assert Render(attrs[8]) == Render(f.springDamping);
      assert forall i :: 0 <= i < |attrs| && i != 8 ==> PlainToken(Render(attrs[i]));
    } else {
      TagThenInts(attrs);
    }
  }


  /** The connection classes other than Pulley: a plain tag, integers, Slider's literals and the action. */
  lemma PlainConnection(f: Factory)
    requires f.IsConnection() && !f.Pulley?
    requires f.SpecialConnection? ==> PlainToken(f.action)
    ensures Tokenizable(Layout(f))
  {
    var attrs := Layout(f);
    MoreTagsArePlain();
    assert PlainToken(Render(attrs[0]));
    if f.Slider? {
      assert forall i :: 3 <= i < |attrs| ==> attrs[i].I?;
    } else if f.SpecialConnection? {
      assert Render(attrs[1]) == f.action;
    } else {
      TagThenInts(attrs);
    }
  }

  // ----- the catalogue and the text format -----

  /** An attribute line opens with its first token: a plain prefix of the line is a prefix of that token. */
  lemma LineStartsWithTag(attrs: seq<Attr>, p: string)
    requires Tokenizable(attrs) && |attrs| > 0 && NoSpace(p)
    requires StartsWith(AttributeLine(attrs), p)
    ensures StartsWith(Render(attrs[0]), p)
  {
    var rs := RenderAll(attrs);
    var t := rs[0];
    if |rs| > 1 {
      assert rs == [t] + rs[1..];
      JoinCons(" ", t, rs[1..]);
      var line := t + " " + Join(" ", rs[1..]);
      assert line[|t|] == ' ';
      assert forall i :: 0 <= i < |p| ==> line[i] == p[i] && !IsSpace(p[i]);
      assert line[..|p|] == t[..|p|];
    }
  }

  /** A first token that parse() does not take for a connection line or a header line. */
  predicate Unreserved(t: string) {
    |t| > 0 && t[0] != '>' && !StartsWith(t, "music") && !StartsWith(t, "recommend_sfx")
  }

  /** The first two characters decide it. */
  lemma UnreservedByHead(t: string)
    requires |t| > 0 && t[0] != '>'
    requires t[0] == 'm' ==> |t| > 1 && t[1] != 'u'
    requires t[0] == 'r' ==> |t| == 1 || t[1] != 'e'
    ensures Unreserved(t)
  {
  }

  /** No catalogue tag is taken for a header line or a connection line. */
  lemma TagsNotReserved(f: Factory)
    ensures Unreserved(Render(Layout(f)[0]))
  {
    LayoutParts(f);
    if f.IsCollectable() || f.IsConnection() || f.Glue? {
      JoiningTagsNotReserved(f);
    } else {
      ShapeTagsNotReserved(f);
    }
  }

  lemma ShapeTagsNotReserved(f: Factory)
    requires !(f.IsCollectable() || f.IsConnection() || f.Glue?)
    ensures Unreserved(Tag(f))
  {
    var t := Tag(f);
    assert |t| > 0 && t[0] != '>';
    UnreservedByHead(t);
  }

  lemma JoiningTagsNotReserved(f: Factory)
    requires f.IsCollectable() || f.IsConnection() || f.Glue?
    ensures Unreserved(Tag(f))
  {
    var t := Tag(f);
    assert |t| > 0 && t[0] != '>';
    UnreservedByHead(t);
  }

  /**
   * parse(to_str(enumeration=True)) of an unconnected catalogue object whose
   * attributes render to plain tokens gives back the same tokens, as strings,
   * and the same modifiers.
   */
  lemma FactoryRoundTrip(f: Factory, footer: int, objs: seq<Object>)
    requires !f.IsConnection() && Tokenizable(Layout(f))
    ensures ParseGroup(Join("\n", SerializedLines(Layout(f), Modifiers(f), None, Some(footer))), objs)
      == Ok(Some(Parsed(Reparsed(Layout(f)), Modifiers(f), [])))
  {
    var attrs := Layout(f);
    ModifiersSingleLine(f);
    TagsNotReserved(f);
    UnreservedLine(attrs);
    ParseUnconnected(attrs, Modifiers(f), footer, objs);
  }

  /** An attribute line whose first token is unreserved is not taken for a header line. */
  lemma UnreservedLine(attrs: seq<Attr>)
    requires Tokenizable(attrs) && |attrs| > 0 && Unreserved(Render(attrs[0]))
    ensures !StartsWith(AttributeLine(attrs), "music") && !StartsWith(AttributeLine(attrs), "recommend_sfx")
  {
    if StartsWith(AttributeLine(attrs), "music") {
      LineStartsWithTag(attrs, "music");
    }
    if StartsWith(AttributeLine(attrs), "recommend_sfx") {
      LineStartsWithTag(attrs, "recommend_sfx");
    }
  }

  /**
   * The same for a connection object: the two `>` lines resolve, in the level
   * list, to the objects whose ids the endpoints carried.
   */
  lemma ConnectedRoundTrip(f: Factory, a: Object, b: Object, footer: int, objs: seq<Object>)
    requires f.IsConnection() && Ends(f) == [Obj(a), Obj(b)] && Tokenizable(Layout(f))
    requires -|objs| <= a.id < |objs| && -|objs| <= b.id < |objs|
    ensures ParseGroup(Join("\n", SerializedLines(Layout(f), Modifiers(f), Some((a.id, b.id)), Some(footer))), objs)
      == Ok(Some(Parsed(Reparsed(Layout(f)), Modifiers(f), [Obj(At(objs, a.id).value), Obj(At(objs, b.id).value)])))
  {
    ModifiersSingleLine(f);
    ParseConnected(Layout(f), Modifiers(f), a.id, b.id, footer, objs);
  }

  /** The attribute line reads the same whether a two-word tag is one attribute or two. */
  lemma TwoWordJoin(a: string, b: string, rs: seq<string>)
    ensures Join(" ", [a + " " + b] + rs) == Join(" ", [a, b] + rs)
  {
    JoinCons(" ", a, [b]);
    if rs != [] {
      JoinCons(" ", a + " " + b, rs);
      JoinCons(" ", b, rs);
      assert [a, b] + rs == [a] + ([b] + rs);
      JoinCons(" ", a, [b] + rs);
    }
  }

  lemma RenderCons(x: Attr, rest: seq<Attr>)
    ensures RenderAll([x] + rest) == [Render(x)] + RenderAll(rest)
  {
    var l := RenderAll([x] + rest);
    var r := [Render(x)] + RenderAll(rest);
    forall i | 0 <= i < |l| ensures l[i] == r[i] {
      if i > 0 {
        assert ([x] + rest)[i] == rest[i - 1];
      }
    }
  }

  lemma ReparsedAppend(x: seq<Attr>, y: seq<Attr>)
    ensures Reparsed(x + y) == Reparsed(x) + Reparsed(y)
  {
    var l := Reparsed(x + y);
    var r := Reparsed(x) + Reparsed(y);
    forall i | 0 <= i < |l| ensures l[i] == r[i] {
      if i < |x| {
        assert (x + y)[i] == x[i];
      } else {
        assert (x + y)[i] == y[i - |x|];
      }
    }
  }

  /** Splitting a two-word tag attribute in two leaves the attribute line unchanged. */
  lemma TwoWordLine(a: string, b: string, rest: seq<Attr>)
    ensures AttributeLine([S(a + " " + b)] + rest) == AttributeLine([S(a), S(b)] + rest)
  {
    var R := RenderAll(rest);
    RenderCons(S(a + " " + b), rest);
    RenderCons(S(b), rest);
    assert [S(a), S(b)] + rest == [S(a)] + ([S(b)] + rest);
    RenderCons(S(a), [S(b)] + rest);
    assert RenderAll([S(a), S(b)] + rest) == [a, b] + R;
    TwoWordJoin(a, b, R);
  }

  lemma TwoWordTag(a: string, b: string, rest: seq<Attr>)
    requires PlainToken(a) && PlainToken(b) && Tokenizable(rest)
    ensures Tokens(AttributeLine([S(a + " " + b)] + rest)) == [S(a), S(b)] + Reparsed(rest)
  {
    var split := [S(a), S(b)] + rest;
    assert AttributeLine([S(a + " " + b)] + rest) == AttributeLine(split) by {
      TwoWordLine(a, b, rest);
    }
    assert Tokens(AttributeLine(split)) == Reparsed(split) by {
      assert Tokenizable(split) by {
        forall i | 2 <= i < |split| ensures split[i] == rest[i - 2] { }
      }
      TokensOfLine(split);
    }
    assert Reparsed(split) == [S(a), S(b)] + Reparsed(rest) by {
      ReparsedAppend([S(a), S(b)], rest);
      assert Reparsed([S(a), S(b)]) == [S(a), S(b)];
    }
  }


  /** get_tag() joins a "/ " tag cut in two by split() back into one. */
  lemma SlashTagRejoined(word: string, rest: seq<Attr>)
    requires PlainToken(word) && Tokenizable(rest)
    ensures TagOf([S("/" + " " + word)] + rest) == Ok(S("/" + " " + word))
    ensures TagOf(Tokens(AttributeLine([S("/" + " " + word)] + rest))) == Ok(S("/" + " " + word))
  {
    assert PlainToken("/");
    TwoWordTag("/", word, rest);
    var ts := Tokens(AttributeLine([S("/" + " " + word)] + rest));
    assert ts[0] == S("/") && ts[1] == S(word);
  }

  /** Integers render to plain tokens. */
  lemma IntsTokenizable(rest: seq<Attr>)
    requires forall i :: 0 <= i < |rest| ==> rest[i].I?
    ensures Tokenizable(rest)
  {
  }

  /** A "/ word" tag holds "/ " and then a plain word. */
  predicate SlashTagged(attrs: seq<Attr>) {
    |attrs| > 0 && attrs[0].S? && |attrs[0].s| > 2 && attrs[0].s[..2] == "/ " && PlainToken(attrs[0].s[2..])
  }

  /** get_tag() gives back a "/ word" tag after the round trip through the attribute line. */
  lemma SlashTagKept(attrs: seq<Attr>)
    requires SlashTagged(attrs) && Tokenizable(attrs[1..])
    ensures TagOf(attrs).Ok? && TagOf(Tokens(AttributeLine(attrs))) == TagOf(attrs)
  {
    var tag := attrs[0].s;
    var word := tag[2..];
    assert tag == "/" + " " + word;
    HeadTail(attrs);
    SlashTagRejoined(word, attrs[1..]);
  }

  lemma ArcTag(f: Factory)
    requires f.Arc?
    ensures SlashTagged(Layout(f)) && Tokenizable(Layout(f)[1..])
  {
    LayoutParts(f);
    assert Tag(f)[2..] == "LE_ARC_DESCRIPTION";
    VisibleNoSpace("LE_ARC_DESCRIPTION");
    IntValues(f);
    IntsTokenizable(Values(f));
  }

  lemma GlueTag(f: Factory)
    requires f.Glue?
    ensures SlashTagged(Layout(f)) && Tokenizable(Layout(f)[1..])
  {
    LayoutParts(f);
    assert Tag(f)[2..] == "GLUE";
    VisibleNoSpace("GLUE");
    IntValues(f);
    IntsTokenizable(Values(f));
  }

  lemma PulleyTag(f: Factory)
    requires f.Pulley?
    ensures SlashTagged(Layout(f)) && Tokenizable(Layout(f)[1..])
  {
    LayoutParts(f);
    assert Tag(f)[2..] == "p_description";
    VisibleNoSpace("p_description");
    IntValues(f);
    IntsTokenizable(Values(f));
  }

  /**
   * get_tag() gives the same tag after a text round trip for the classes whose
   * tag is "/ " and a word (Arc, Glue, Pulley): split() cuts the tag in two and
   * get_tag joins the halves again.
   */
  lemma SlashTagSurvives(f: Factory)
    requires f.Arc? || f.Glue? || f.Pulley?
    ensures TagOf(Layout(f)).Ok? && TagOf(Tokens(AttributeLine(Layout(f)))) == TagOf(Layout(f))
  {
    if f.Arc? {
      ArcTag(f);
    } else if f.Glue? {
      GlueTag(f);
    } else {
      PulleyTag(f);
    }
    SlashTagKept(Layout(f));
  }

  /** An attribute list whose first attribute is two plain words splits into those words and the rest. */
  lemma TwoWordFirst(attrs: seq<Attr>, a: string, b: string)
    requires |attrs| > 0 && attrs[0] == S(a + " " + b) && PlainToken(a) && PlainToken(b) && Tokenizable(attrs[1..])
    ensures Tokens(AttributeLine(attrs)) == [S(a), S(b)] + Reparsed(attrs[1..])
  {
    HeadTail(attrs);
    TwoWordTag(a, b, attrs[1..]);
  }

  /** The quoted letters of a collectable tag. */
  function Quoted(f: Factory): (r: string)
    requires f.IsCollectable()
  {
    "'" + Letters(f) + "'"
  }

  lemma QuotedPlain(f: Factory)
    requires f.IsCollectable()
    ensures PlainToken(Quoted(f)) && Quoted(f)[0] == '\''
  {
    VisibleNoSpace(Letters(f));
    ConcatNoSpace("'", Letters(f));
    ConcatNoSpace("'" + Letters(f), "'");
  }

  /** A collectable's layout: the two-word tag `ic '<letters>'`, then integers. */
  lemma CollectableLayout(f: Factory)
    requires f.IsCollectable()
    ensures Layout(f)[0] == S("ic" + " " + Quoted(f)) && Tokenizable(Layout(f)[1..])
  {
    LayoutParts(f);
    assert Tag(f) == "ic '" + Letters(f) + "'";
    assert "ic '" + Letters(f) + "'" == "ic" + " " + Quoted(f);
    IntValues(f);
    IntsTokenizable(Values(f));
  }

  /**
   * A collectable's tag `ic '<letters>'` is cut in two by split(), so after a
   * text round trip get_tag() reports just "ic".
   */
  lemma CollectableTagSplits(f: Factory)
    requires f.IsCollectable()
    ensures Tokens(AttributeLine(Layout(f))) == [S("ic"), S(Quoted(f))] + Reparsed(Layout(f)[1..])
    ensures TagOf(Tokens(AttributeLine(Layout(f)))) == Ok(S("ic")) != TagOf(Layout(f))
  {
    var attrs := Layout(f);
    assert Tokens(AttributeLine(attrs)) == [S("ic"), S(Quoted(f))] + Reparsed(attrs[1..]) by {
      CollectableLayout(f);
      QuotedPlain(f);
      VisibleNoSpace("ic");
      TwoWordFirst(attrs, "ic", Quoted(f));
    }
    assert attrs[0] == S("ic" + " " + Quoted(f)) by {
      CollectableLayout(f);
    }
    TwoWordTagOf("ic", Quoted(f), attrs, Reparsed(attrs[1..]));
  }

  /** get_tag() of a list led by a two-word tag, and of the list that tag splits into. */
  lemma TwoWordTagOf(a: string, b: string, attrs: seq<Attr>, rest: seq<Attr>)
    requires |attrs| > 0 && attrs[0] == S(a + " " + b) && a != "/"
    ensures TagOf([S(a), S(b)] + rest) == Ok(S(a)) != TagOf(attrs)
  {
    assert ([S(a), S(b)] + rest)[0] == S(a);
    assert |a + " " + b| > |a|;
  }

  /** The sound line is the five tokens of set_sound joined by spaces. */
  lemma SoundLineJoin(sound: string, v: string, p: string, q: string)
    ensures "sfx " + sound + " " + v + " " + p + " " + q == Join(" ", ["sfx", sound, v, p, q])
  {
    var toks := ["sfx", sound, v, p, q];
    JoinCons(" ", p, [q]);
    assert toks[3..] == [p, q];
    JoinCons(" ", v, toks[3..]);
    assert toks[2..] == [v] + toks[3..];
    JoinCons(" ", sound, toks[2..]);
    assert toks[1..] == [sound] + toks[2..];
    JoinCons(" ", "sfx", toks[1..]);
    assert toks == ["sfx"] + toks[1..];
  }

  /** Five plain tokens joined by single spaces split back into themselves. */
  lemma FiveTokens(sound: string, v: string, p: string, q: string)
    requires PlainToken(sound) && PlainToken(v) && PlainToken(p) && PlainToken(q)
    ensures var line := "sfx " + sound + " " + v + " " + p + " " + q;
      NoLineBreak(line) && Split(line) == ["sfx", sound, v, p, q]
  {
    var toks := ["sfx", sound, v, p, q];
    SoundLineJoin(sound, v, p, q);
    VisibleNoSpace("sfx");
    PlainTokensSplit(toks);
  }

  /** Plain tokens joined by spaces make one line that splits back into them. */
  lemma PlainTokensSplit(toks: seq<string>)
    requires forall i :: 0 <= i < |toks| ==> PlainToken(toks[i])
    ensures Split(Join(" ", toks)) == toks && NoLineBreak(Join(" ", toks))
  {
    SplitJoin(toks);
    forall i | 0 <= i < |toks| ensures NoLineBreak(toks[i]) {
      NoSpaceNoLineBreak(toks[i]);
    }
    PrintableNoLineBreak(" ");
    JoinNoLineBreak(" ", toks);
  }

  lemma SoundNamePlain(group: string, note: int)
    requires NoSpace(group)
    ensures PlainToken(SoundName(group, note))
  {
    var n := IntToString(note);
    ConcatNoSpace("'", group);
    ConcatNoSpace("'" + group, n);
    ConcatNoSpace("'" + group + n, "'");
  }

  /** The sound line is five plain tokens on one line, so it comes back from parse intact. */
  lemma SoundLineTokens(group: string, note: int, volume: int, pitch: int, play: int)
    requires NoSpace(group)
    ensures var line := SoundLine(group, note, volume, pitch, play);
      NoLineBreak(line)
      && Split(line) == ["sfx", SoundName(group, note), IntToString(volume), IntToString(pitch),
                         IntToString(play)]
  {
    SoundNamePlain(group, note);
    FiveTokens(SoundName(group, note), IntToString(volume), IntToString(pitch), IntToString(play));
  }
}
