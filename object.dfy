/**
 * One level object (circloo_helper/object.py): its attribute tokens, its
 * modifier lines, its two connection endpoints, its id and its position
 * pairs; the text form of one object and the parser for one line group.
 */
module LevelObject {
  import opened Wrappers
  import opened Text

  /** An attribute token: a Python int, rendered in decimal, or a str, rendered verbatim. */
  datatype Attr = I(n: int) | S(s: string)

  /** str(a) */
  function Render(a: Attr): (r: string) {
    match a
    case I(n) => IntToString(n)
    case S(s) => s
  }

  function RenderAll(attrs: seq<Attr>): (r: seq<string>)
    ensures |r| == |attrs| && forall i :: 0 <= i < |attrs| ==> r[i] == Render(attrs[i])
  {
    seq(|attrs|, i requires 0 <= i < |attrs| => Render(attrs[i]))
  }

  /** ' '.join(map(str, attributes)): the attribute line of an object. */
  function AttributeLine(attrs: seq<Attr>): (r: string) {
    Join(" ", RenderAll(attrs))
  }

  /** int(a): an int is itself; a str must be a decimal integer (ValueError otherwise). */
  function ToInt(a: Attr): (r: Result<int>)
    ensures a.I? ==> r == Ok(a.n)
    ensures r.Err? ==> r.error == ValueError
  {
    match a
    case I(n) => Ok(n)
    case S(s) => if ParseInt(s).Some? then Ok(ParseInt(s).value) else Err(ValueError)
  }

  /** int(attributes[i]) */
  function IntAt(attrs: seq<Attr>, i: nat): (r: Result<int>) {
    if i < |attrs| then ToInt(attrs[i]) else Err(IndexError)
  }

  type Pair = (int, int)

  /** The Python class an object was created as; `copy()` always gives a plain Object. */
  datatype Kind =
    | Plain | Player | Circle | Rectangle | Triangle | Line | Arc | Curve
    | GrowingCircle | GrowingRectangle | MoveableCircle | MoveableRectangle | MoveableTriangle
    | RotatableRectangle | RotatableCircle | SpringyRectangle
    | BallGenerator | RectangleGenerator | TriangleGenerator | Portal
    | Glue | Rope | PortalRope | Pulley | Hinge | Slider | SpecialConnection
    | Collectable | GravityCollectable | SizeCollectable | DisconnectCollectable
    | SpeedCollectable | SpecialCollectable

  /**
   * An element of a connection list: normally a reference to another object;
   * the library's own example scripts put integer ids there instead.
   */
  datatype Endpoint = Obj(target: Object) | Num(value: int)

  // ----- position pairs -----

  /** The outcome of a sequence of in-place writes: the list as left, and the exception if one was raised. */
  datatype Written = Written(attrs: seq<Attr>, error: Option<Error>)

  /** Pair k (0-based) of an attribute list: (int(attrs[2k+1]), int(attrs[2k+2])). */
  function PairAt(attrs: seq<Attr>, k: nat): (r: Result<Pair>) {
    var x :- IntAt(attrs, 2 * k + 1);
    var y :- IntAt(attrs, 2 * k + 2);
    Ok((x, y))
  }

  /** The first n pairs, read in order; the first failing int() is the error raised. */
  function ReadPairs(attrs: seq<Attr>, n: nat): (r: Result<seq<Pair>>)
    ensures r.Ok? ==> |r.value| == n
  {
    if n == 0 then Ok([])
    else
      var front :- ReadPairs(attrs, n - 1);
      var last :- PairAt(attrs, n - 1);
      Ok(front + [last])
  }

  /** get_position(): None unless the count is 0..4, otherwise that many pairs. */
  function PositionsOf(attrs: seq<Attr>, count: Option<int>): (r: Result<Option<seq<Pair>>>) {
    if count.None? || count.value < 0 || count.value > 4 then Ok(None)
    else
      var ps :- ReadPairs(attrs, count.value);
      Ok(Some(ps))
  }

  /** attributes[2k-1], attributes[2k] = p for 1-based pair k; a write past the end raises IndexError. */
  function WritePair(attrs: seq<Attr>, k: nat, p: Pair): (r: Written)
    requires k >= 1
  {
    var i := 2 * k - 1;
    if i >= |attrs| then Written(attrs, Some(IndexError))
    else if i + 1 >= |attrs| then Written(attrs[i := I(p.0)], Some(IndexError))
    else Written(attrs[i := I(p.0)][i + 1 := I(p.1)], None)
  }

  /** The `if pos_k is not None` step of set_position for pair k >= 2. */
  function WriteOptional(w: Written, n: int, k: nat, p: Option<Pair>): (r: Written)
    requires k >= 2
  {
    if w.error.Some? || p.None? then w
    else if n < k then Written(w.attrs, Some(PositionError))
    else WritePair(w.attrs, k, p.value)
  }

  /** set_position(pos_1, pos_2, pos_3, pos_4) applied to an attribute list with the given count. */
  function SetPositions(attrs: seq<Attr>, count: Option<int>, p1: Pair, p2: Option<Pair>, p3: Option<Pair>, p4: Option<Pair>): (r: Written) {
    if count.None? || count.value == 0 then Written(attrs, Some(PositionError))
    else
      var w1 := WritePair(attrs, 1, p1);
      var w2 := WriteOptional(w1, count.value, 2, p2);
      var w3 := WriteOptional(w2, count.value, 3, p3);
      WriteOptional(w3, count.value, 4, p4)
  }

  /**
   * The exception set_position finally raises. Its own messages format the
   * object (`{self}` calls to_str), so for an object whose connections cannot
   * be written that formatting raises TypeError in place of the message.
   */
  function Reported(e: Option<Error>, writable: bool): (r: Option<Error>)
    ensures r.None? <==> e.None?
    ensures e != Some(PositionError) ==> r == e
  {
    if e == Some(PositionError) && !writable then Some(TypeError) else e
  }

  /** With a positive count and no more pairs than it, set_position raises no exception of its own. */
  lemma WithinCount(attrs: seq<Attr>, n: int, p1: Pair, p2: Option<Pair>, p3: Option<Pair>, p4: Option<Pair>)
    requires n >= 1 && (p2.Some? ==> n >= 2) && (p3.Some? ==> n >= 3) && (p4.Some? ==> n >= 4)
    ensures SetPositions(attrs, Some(n), p1, p2, p3, p4).error != Some(PositionError)
  {
  }

  /** The pair that set_position is asked to leave at 1-based slot k (None: keep the old one). */
  function Requested(k: nat, p1: Pair, p2: Option<Pair>, p3: Option<Pair>, p4: Option<Pair>): (r: Option<Pair>) {
    if k == 1 then Some(p1) else if k == 2 then p2 else if k == 3 then p3 else if k == 4 then p4 else None
  }

  // ----- serialisation -----

  /** The lines of one object's text: connection lines, attribute line, modifiers, footer. */
  function SerializedLines(attrs: seq<Attr>, mods: seq<string>, ends: Option<Pair>, footer: Option<int>): (r: seq<string>) {
    EndLines(ends) + [AttributeLine(attrs)] + mods
    + (if footer.Some? then ["< " + IntToString(footer.value)] else [])
  }

  /** The two `> id` lines a connection starts with. */
  function EndLines(ends: Option<Pair>): (r: seq<string>) {
    if ends.Some? then ["> " + IntToString(ends.value.0), "> " + IntToString(ends.value.1)] else []
  }

  /** [x.tokens as strings]: what the parser makes of the rendered attributes. */
  function Reparsed(attrs: seq<Attr>): (r: seq<Attr>)
    ensures |r| == |attrs|
  {
    seq(|attrs|, i requires 0 <= i < |attrs| => S(Render(attrs[i])))
  }

  // ----- parsing -----

  /** What `parse` builds for one line group, before it is turned into an object. */
  datatype Parsed = Parsed(attributes: seq<Attr>, modifiers: seq<string>, connections: seq<Endpoint>)

  /** lst[n] for a Python list: negative n counts from the end. */
  function At<T>(xs: seq<T>, n: int): (r: Result<T>)
    ensures r.Ok? <==> -|xs| <= n < |xs|
    ensures r.Ok? ==> r.value == xs[if n < 0 then n + |xs| else n]
  {
    if 0 <= n < |xs| then Ok(xs[n])
    else if -|xs| <= n < 0 then Ok(xs[n + |xs|])
    else Err(IndexError)
  }

  /** s[k:] */
  function Drop(s: string, k: nat): (r: string) {
    if k <= |s| then s[k..] else ""
  }

  /** lvl.object_at(int(line[2:])) */
  function Resolve(objs: seq<Object>, line: string): (r: Result<Object>) {
    var n := ParseInt(Drop(line, 2));
    if n.None? then Err(ValueError) else At(objs, n.value)
  }

  /** lines[from : len(lines) - 1] */
  function Middle(lines: seq<string>, from: nat): (r: seq<string>) {
    if from < |lines| - 1 then lines[from..|lines| - 1] else []
  }

  /** [S(t) for t in line.split()] */
  function Tokens(line: string): (r: seq<Attr>) {
    var ts := Split(line);
    seq(|ts|, i requires 0 <= i < |ts| => S(ts[i]))
  }

  /**
   * Object.parse on a line group, with `objs` the list of the level the
   * connection ids are looked up in. Ok(None) is the header fragment that
   * parse throws away.
   */
  function ParseGroup(txt: string, objs: seq<Object>): (r: Result<Option<Parsed>>) {
    ParseLines(SplitLines(txt), objs)
  }

  /** The body of Object.parse once the text is split into lines. */
  function ParseLines(lines: seq<string>, objs: seq<Object>): (r: Result<Option<Parsed>>) {
    if |lines| == 0 then Err(IndexError)
    else if StartsWith(lines[0], "music") || StartsWith(lines[0], "recommend_sfx") then Ok(None)
    else if |lines[0]| == 0 then Err(IndexError)
    else if lines[0][0] == '>' then
      if |lines| < 3 then Err(IndexError)
      else
        var a :- Resolve(objs, lines[0]);
        var b :- Resolve(objs, lines[1]);
        Ok(Some(Parsed(Tokens(lines[2]), Middle(lines, 3), [Obj(a), Obj(b)])))
    else Ok(Some(Parsed(Tokens(lines[0]), Middle(lines, 1), [])))
  }

  /**
   * get_tag() on an attribute list: the first token, or the first two joined
   * by a space when the first is "/"; IndexError on an empty list, TypeError
   * when the join meets an int.
   */
  function TagOf(attributes: seq<Attr>): (r: Result<Attr>)
    ensures r.Ok? <==> (|attributes| > 0 &&
      (attributes[0] == S("/") ==> |attributes| == 1 || attributes[1].S?))
    ensures r.Err? ==> r.error == (if |attributes| == 0 then IndexError else TypeError)
    ensures r.Ok? && attributes[0] != S("/") ==> r.value == attributes[0]
    ensures r.Ok? && attributes[0] == S("/") && |attributes| >= 2 ==>
      r.value == S("/" + " " + attributes[1].s)
  {
    if |attributes| == 0 then Err(IndexError)
    else if attributes[0] == S("/") then
      if |attributes| == 1 then Ok(S("/"))
      else if attributes[1].S? then
        assert Join(" ", ["/", attributes[1].s]) == "/" + " " + attributes[1].s by {
          JoinCons(" ", "/", [attributes[1].s]);
        }
        Ok(S(Join(" ", ["/", attributes[1].s])))
      else Err(TypeError)
    else Ok(attributes[0])
  }

  class Object {
    var attributes: seq<Attr>
    var modifiers: seq<string>
    var connections: seq<Endpoint>
    var id: int
    var numberOfPositions: Option<int>
    const kind: Kind

    /** Object(attributes, modifiers, connections, obj_id), created as an instance of `kind`. */
    constructor (attributes: seq<Attr>, modifiers: seq<string>, connections: seq<Endpoint>, id: int, kind: Kind)
      ensures this.attributes == attributes && this.modifiers == modifiers
      ensures this.connections == connections && this.id == id
      ensures numberOfPositions == None && this.kind == kind
    {
      this.attributes := attributes;
      this.modifiers := modifiers;
      this.connections := connections;
      this.id := id;
      this.numberOfPositions := None;
      this.kind := kind;
    }

    method SetId(n: int)
      modifies this`id
      ensures id == n
      ensures attributes == old(attributes) && modifiers == old(modifiers) && connections == old(connections)
      ensures numberOfPositions == old(numberOfPositions)
    {
      id := n;
    }

    function GetId(): (r: int)
      reads this
    {
      id
    }

    method IncrementId(n: int)
      modifies this`id
      ensures id == old(id) + n
    {
      id := id + n;
    }

    method SetAttributes(attrs: seq<Attr>)
      modifies this`attributes
      ensures attributes == attrs
    {
      attributes := attrs;
    }

    /** Stores exactly two endpoints; any other length raises ConnectionError and changes nothing. */
    method SetConnections(ends: seq<Endpoint>) returns (error: Option<Error>)
      modifies this`connections
      ensures error.None? <==> |ends| == 2
      ensures error.Some? ==> error.value == ConnectionError
      ensures connections == if |ends| == 2 then ends else old(connections)
      ensures attributes == old(attributes) && modifiers == old(modifiers)
      ensures id == old(id) && numberOfPositions == old(numberOfPositions)
    {
      if |ends| == 2 {
        connections := ends;
        error := None;
      } else {
        error := Some(ConnectionError);
      }
    }

    method AddModifier(m: string)
      modifies this`modifiers
      ensures modifiers == old(modifiers) + [m]
    {
      modifiers := modifiers + [m];
    }

    /** The loop of parse: add_modifier(lines[i]) for i in range(first, len(lines) - 1). */
    method AddModifierLines(lines: seq<string>, first: nat)
      modifies this`modifiers
      ensures modifiers == old(modifiers) + Middle(lines, first)
      ensures attributes == old(attributes) && connections == old(connections)
      ensures id == old(id) && numberOfPositions == old(numberOfPositions)
    {
      var i := first;
      while i < |lines| - 1
        invariant i == first || first < i <= |lines| - 1
        invariant modifiers == old(modifiers) + (if i == first then [] else lines[first..i])
      {
        assert i > first ==> lines[first..i + 1] == lines[first..i] + [lines[i]];
        AddModifier(lines[i]);
        i := i + 1;
      }
    }

    /** get_tag() */
    function GetTag(): (r: Result<Attr>)
      reads this
    {
      TagOf(attributes)
    }

    /** get_position() */
    function GetPosition(): (r: Result<Option<seq<Pair>>>)
      reads this
    {
      PositionsOf(attributes, numberOfPositions)
    }

    /**
     * set_position(pos_1, pos_2, pos_3, pos_4): the attribute list becomes what
     * SetPositions computes, including the pairs written before an exception.
     */
    method SetPosition(p1: Pair, p2: Option<Pair>, p3: Option<Pair>, p4: Option<Pair>) returns (error: Option<Error>)
      modifies this`attributes
      ensures attributes == SetPositions(old(attributes), numberOfPositions, p1, p2, p3, p4).attrs
      ensures error == Reported(SetPositions(old(attributes), numberOfPositions, p1, p2, p3, p4).error, old(EndpointIds()).Ok?)
    {
      var writable := EndpointIds().Ok?;
      if numberOfPositions.None? || numberOfPositions.value == 0 {
        return Reported(Some(PositionError), writable);
      }
      var n := numberOfPositions.value;
      if |attributes| <= 1 {
        return Some(IndexError);
      }
      attributes := attributes[1 := I(p1.0)];
      if |attributes| <= 2 {
        return Some(IndexError);
      }
      attributes := attributes[2 := I(p1.1)];
      error := WriteSlot(n, 2, p2);
      if error.None? {
        error := WriteSlot(n, 3, p3);
      }
      if error.None? {
        error := WriteSlot(n, 4, p4);
      }
      error := Reported(error, writable);
    }

    /** One `if pos_k is not None` block of set_position. */
    method WriteSlot(n: int, k: nat, p: Option<Pair>) returns (error: Option<Error>)
      requires k >= 2
      modifies this`attributes
      ensures Written(attributes, error) == WriteOptional(Written(old(attributes), None), n, k, p)
    {
      error := None;
      if p.Some? {
        if n < k {
          return Some(PositionError);
        }
        var i := 2 * k - 1;
        if i >= |attributes| {
          return Some(IndexError);
        }
        attributes := attributes[i := I(p.value.0)];
        if i + 1 >= |attributes| {
          return Some(IndexError);
        }
        attributes := attributes[i + 1 := I(p.value.1)];
      }
    }

    /** copy(): fresh lists with the same contents and the same endpoint objects; always a plain Object. */
    method Copy() returns (c: Object)
      ensures fresh(c)
      ensures c.attributes == attributes && c.modifiers == modifiers && c.connections == connections
      ensures c.id == id && c.numberOfPositions == numberOfPositions && c.kind == Plain
    {
      c := new Object(attributes, modifiers, connections, id, Plain);
      c.numberOfPositions := numberOfPositions;
    }

    /** The objects the connection list refers to. */
    function Targets(): (r: set<Object>)
      reads this
    {
      set e | e in connections && e.Obj? :: e.target
    }

    /** The ids written on the two `>` lines, read from the endpoints when called. */
    function EndpointIds(): (r: Result<Option<Pair>>)
      reads this, Targets()
      ensures r.Ok? <==> |connections| == 0 || (|connections| >= 2 && connections[0].Obj? && connections[1].Obj?)
      ensures r.Ok? ==> (r.value.None? <==> |connections| == 0)
      ensures r.Ok? && r.value.Some? ==> r.value.value == (connections[0].target.id, connections[1].target.id)
      ensures r.Err? ==> r.error == TypeError
    {
      if |connections| == 0 then Ok(None)
      else if |connections| >= 2 && connections[0].Obj? && connections[1].Obj? then
        Ok(Some((connections[0].target.GetId(), connections[1].target.GetId())))
      else Err(TypeError)
    }

    /**
     * to_str(enumeration): the connection lines (ids read now), the attribute
     * line, one line per modifier and, when enumerating, the `< id` footer.
     */
    function ToStr(enumeration: bool): (r: Result<string>)
      reads this, Targets()
      ensures r.Ok? <==> EndpointIds().Ok?
      ensures r.Ok? ==> r.value == Join("\n", SerializedLines(attributes, modifiers,
        EndpointIds().value, if enumeration then Some(id) else None))
    {
      var ends :- EndpointIds();
      var connstr := if ends.Some? then "> " + IntToString(ends.value.0) + "\n> " + IntToString(ends.value.1) + "\n" else "";
      var primary := AttributeLine(attributes);
      var secondary := Concat(Prefixed("\n", modifiers));
      var line := if enumeration then "\n< " + IntToString(id) else "";
      SerializeAsLines(attributes, modifiers, ends, if enumeration then Some(id) else None);
      Ok(connstr + primary + secondary + line)
    }
  }

  /** The optional footer line, newline-prefixed. */
  lemma FooterConcat(f: seq<string>)
    requires |f| <= 1
    ensures Concat(Prefixed("\n", f)) == if f == [] then "" else "\n" + f[0]
  {
    if f != [] {
      assert Prefixed("\n", f) == ["\n" + f[0]];
      assert Concat(["\n" + f[0]]) == "\n" + f[0] + Concat([]);
    }
  }

  /** Newline-joining the attribute line, the modifiers and an optional footer line. */
  lemma JoinTail(a: string, mods: seq<string>, f: seq<string>)
    requires |f| <= 1
    ensures Join("\n", [a] + mods + f) ==
      a + Concat(Prefixed("\n", mods)) + (if f == [] then "" else "\n" + f[0])
  {
    AppendAssoc([a], mods, f);
    JoinAsConcat("\n", a, mods + f);
    PrefixedAppend("\n", mods, f);
    ConcatAppend(Prefixed("\n", mods), Prefixed("\n", f));
    FooterConcat(f);
    AppendAssoc(a, Concat(Prefixed("\n", mods)), Concat(Prefixed("\n", f)));
  }

  /** The lines after the connection lines, newline-joined. */
  lemma JoinBody(a: string, mods: seq<string>, footer: Option<int>)
    ensures Join("\n", [a] + mods + (if footer.Some? then ["< " + IntToString(footer.value)] else [])) ==
      a + Concat(Prefixed("\n", mods)) + (if footer.Some? then "\n< " + IntToString(footer.value) else "")
  {
    JoinTail(a, mods, if footer.Some? then ["< " + IntToString(footer.value)] else []);
  }

  /** The string to_str builds equals its lines joined by newlines. */
  lemma SerializeAsLines(attrs: seq<Attr>, mods: seq<string>, ends: Option<Pair>, footer: Option<int>)
    ensures Join("\n", SerializedLines(attrs, mods, ends, footer)) ==
      (if ends.Some? then "> " + IntToString(ends.value.0) + "\n> " + IntToString(ends.value.1) + "\n" else "")
      + AttributeLine(attrs) + Concat(Prefixed("\n", mods))
      + (if footer.Some? then "\n< " + IntToString(footer.value) else "")
  {
    var a := AttributeLine(attrs);
    var f := if footer.Some? then ["< " + IntToString(footer.value)] else [];
    JoinBody(a, mods, footer);
    if ends.Some? {
      var x := IntToString(ends.value.0);
      var y := IntToString(ends.value.1);
      var c := ["> " + x, "> " + y];
      assert SerializedLines(attrs, mods, ends, footer) == c + [a] + mods + f;
      AppendAssoc(c, [a], mods);
      AppendAssoc(c, [a] + mods, f);
      ConnectionLines(x, y, [a] + mods + f);
      Associate("> " + x + "\n> " + y + "\n", a, Concat(Prefixed("\n", mods)),
        if footer.Some? then "\n< " + IntToString(footer.value) else "");
    } else {
      EmptyAppend([a]);
      EmptyAppend(a);
    }
  }

  lemma Associate(p: string, a: string, m: string, f: string)
    ensures p + (a + m + f) == p + a + m + f
  {
  }

  lemma ConnectionLines(x: string, y: string, tail: seq<string>)
    requires tail != []
    ensures Join("\n", ["> " + x, "> " + y] + tail) == "> " + x + "\n> " + y + "\n" + Join("\n", tail)
  {
    var c0 := "> " + x;
    var c1 := "> " + y;
    var t := Join("\n", tail);
    assert [c0, c1] + tail == [c0] + ([c1] + tail);
    JoinCons("\n", c0, [c1] + tail);
    JoinCons("\n", c1, tail);
    assert c0 + "\n" + (c1 + "\n" + t) == "> " + x + "\n> " + y + "\n" + t;
  }

  /** A freshly parsed object holding what the parser read. */
  ghost predicate Builds(o: Object, p: Parsed)
    reads o
  {
    o.attributes == p.attributes && o.modifiers == p.modifiers && o.connections == p.connections &&
    o.id == -1 && o.numberOfPositions == None && o.kind == Plain
  }

  /** The object parse returned agrees with the parse of the text as a value. */
  ghost predicate Agrees(r: Result<Option<Object>>, e: Result<Option<Parsed>>)
    reads if r.Ok? && r.value.Some? then {r.value.value} else {}
  {
    match e
    case Err(x) => r == Err(x)
    case Ok(None) => r == Ok(None)
    case Ok(Some(p)) => r.Ok? && r.value.Some? && Builds(r.value.value, p)
  }

  /** Object.parse(txt, lvl) with `objs` the level's object list (what lvl.object_at indexes). */
  method Parse(txt: string, objs: seq<Object>) returns (r: Result<Option<Object>>)
    ensures Agrees(r, ParseGroup(txt, objs))
    ensures r.Ok? && r.value.Some? ==> fresh(r.value.value)
  {
    var lines := SplitLines(txt);
    r := ParseSplit(lines, objs);
  }

  /** The body of Object.parse once the text is split into lines. */
  method ParseSplit(lines: seq<string>, objs: seq<Object>) returns (r: Result<Option<Object>>)
    ensures Agrees(r, ParseLines(lines, objs))
    ensures r.Ok? && r.value.Some? ==> fresh(r.value.value)
  {
    if |lines| == 0 {
      return Err(IndexError);
    }
    if StartsWith(lines[0], "music") || StartsWith(lines[0], "recommend_sfx") {
      return Ok(None);
    }
    if |lines[0]| == 0 {
      return Err(IndexError);
    }
    if lines[0][0] == '>' {
      r := ParseLinked(lines, objs);
    } else {
      var obj := new Object(Tokens(lines[0]), [], [], -1, Plain);
      ghost var parsed := Parsed(obj.attributes, Middle(lines, 1), []);
      assert ParseLines(lines, objs) == Ok(Some(parsed));
      obj.AddModifierLines(lines, 1);
      EmptyAppend(Middle(lines, 1));
      r := Ok(Some(obj));
    }
  }

  /** The branch of Object.parse for a group that opens with a `>` line: a connection. */
  method ParseLinked(lines: seq<string>, objs: seq<Object>) returns (r: Result<Option<Object>>)
    requires |lines| > 0 && |lines[0]| > 0 && lines[0][0] == '>'
    ensures Agrees(r, ParseLines(lines, objs))
    ensures r.Ok? && r.value.Some? ==> fresh(r.value.value)
  {
    NotHeader(lines[0]);
    if |lines| < 3 {
      return Err(IndexError);
    }
    var obj := new Object(Tokens(lines[2]), [], [], -1, Plain);
    var a := Resolve(objs, lines[0]);
    if a.Err? {
      return Err(a.error);
    }
    var b := Resolve(objs, lines[1]);
    if b.Err? {
      return Err(b.error);
    }
    var e := obj.SetConnections([Obj(a.value), Obj(b.value)]);
    ghost var parsed := Parsed(obj.attributes, Middle(lines, 3), obj.connections);
    assert ParseLines(lines, objs) == Ok(Some(parsed));
    obj.AddModifierLines(lines, 3);
    EmptyAppend(Middle(lines, 3));
    r := Ok(Some(obj));
  }

  /** Rendered tokens that survive `split()`: non-empty and free of whitespace. */
  predicate Tokenizable(attrs: seq<Attr>) {
    forall i :: 0 <= i < |attrs| ==> |Render(attrs[i])| > 0 && NoSpace(Render(attrs[i]))
  }

  lemma TokensOfLine(attrs: seq<Attr>)
    requires Tokenizable(attrs)
    ensures Tokens(AttributeLine(attrs)) == Reparsed(attrs)
  {
    var rs := RenderAll(attrs);
    assert Split(AttributeLine(attrs)) == rs by {
      assert forall i :: 0 <= i < |rs| ==> |rs[i]| > 0 && NoSpace(rs[i]);
      SplitJoin(rs);
    }
    TokensOfSplit(AttributeLine(attrs), attrs);
  }

  /** Tokens of a line that splits into the rendered attributes are the attributes reparsed. */
  lemma TokensOfSplit(line: string, attrs: seq<Attr>)
    requires Split(line) == RenderAll(attrs)
    ensures Tokens(line) == Reparsed(attrs)
  {
    var t, r := Tokens(line), Reparsed(attrs);
    forall i | 0 <= i < |attrs| ensures t[i] == r[i] {
    }
  }

  lemma LineOfTokens(attrs: seq<Attr>)
    requires Tokenizable(attrs)
    ensures NoLineBreak(AttributeLine(attrs))
  {
    var rs := RenderAll(attrs);
    forall i | 0 <= i < |rs| ensures NoLineBreak(rs[i]) {
      NoSpaceNoLineBreak(rs[i]);
    }
    JoinNoLineBreak(" ", rs);
  }

  lemma FooterLineNoBreak(n: int)
    ensures NoLineBreak("< " + IntToString(n)) && NoLineBreak("> " + IntToString(n))
  {
    var s := IntToString(n);
    forall j | 0 <= j < |s| ensures !IsLineBreak(s[j]) {
      LineBreakIsSpace(s[j]);
    }
  }

  /** The lines of an enumerated object hold no line break and end in the non-empty footer. */
  lemma SerializedLinesSplit(attrs: seq<Attr>, mods: seq<string>, ends: Option<Pair>, footer: int)
    requires Tokenizable(attrs)
    requires forall i :: 0 <= i < |mods| ==> NoLineBreak(mods[i])
    ensures SplitLines(Join("\n", SerializedLines(attrs, mods, ends, Some(footer))))
      == SerializedLines(attrs, mods, ends, Some(footer))
  {
    var lines := SerializedLines(attrs, mods, ends, Some(footer));
    var c := EndLines(ends);
    LineOfTokens(attrs);
    FooterLineNoBreak(footer);
    if ends.Some? {
      FooterLineNoBreak(ends.value.0);
      FooterLineNoBreak(ends.value.1);
    }
    forall i | 0 <= i < |lines| ensures NoLineBreak(lines[i]) {
      if i < |c| {
        assert lines[i] == c[i];
      } else if i == |c| {
        assert lines[i] == AttributeLine(attrs);
      } else if i < |c| + 1 + |mods| {
        assert lines[i] == mods[i - |c| - 1];
      } else {
        assert lines[i] == "< " + IntToString(footer);
      }
    }
    SplitLinesJoin(lines);
  }

  /** The modifier lines sit between the leading lines and the footer. */
  lemma MiddleOf(c: seq<string>, mods: seq<string>, foot: string)
    ensures Middle(c + mods + [foot], |c|) == mods
  {
    var lines := c + mods + [foot];
    if |c| < |lines| - 1 {
      assert lines[|c|..|lines| - 1] == mods;
    }
  }

  /** An attribute line begins with the first character of its first token. */
  lemma LineHead(attrs: seq<Attr>)
    requires Tokenizable(attrs) && |attrs| > 0
    ensures |AttributeLine(attrs)| > 0 && AttributeLine(attrs)[0] == Render(attrs[0])[0]
  {
    var rs := RenderAll(attrs);
    HeadTail(rs);
    JoinAsConcat(" ", rs[0], rs[1..]);
  }

  /**
   * parse(to_str(enumeration=True)) of an unconnected object gives back its
   * attributes as string tokens and its modifiers, whatever the footer id.
   */
  lemma {:induction false} ParseUnconnected(attrs: seq<Attr>, mods: seq<string>, footer: int, objs: seq<Object>)
    requires Tokenizable(attrs) && |attrs| > 0
    requires forall i :: 0 <= i < |mods| ==> NoLineBreak(mods[i])
    requires !StartsWith(AttributeLine(attrs), "music") && !StartsWith(AttributeLine(attrs), "recommend_sfx")
    requires Render(attrs[0])[0] != '>'
    ensures ParseGroup(Join("\n", SerializedLines(attrs, mods, None, Some(footer))), objs)
      == Ok(Some(Parsed(Reparsed(attrs), mods, [])))
  {
    var line := AttributeLine(attrs);
    var lines := SerializedLines(attrs, mods, None, Some(footer));
    SerializedLinesSplit(attrs, mods, None, footer);
    TokensOfLine(attrs);
    LineHead(attrs);
    EmptyAppend([line]);
    assert lines == [line] + mods + ["< " + IntToString(footer)];
    MiddleOf([line], mods, "< " + IntToString(footer));
  }

  lemma NotHeader(s: string)
    requires |s| > 0 && s[0] == '>'
    ensures !StartsWith(s, "music") && !StartsWith(s, "recommend_sfx")
  {
  }

  /** A `> id` line opens with '>' and resolves to the id it was written with. */
  lemma ConnectionLineId(n: int)
    ensures var l := "> " + IntToString(n);
      |l| > 0 && l[0] == '>' && ParseInt(Drop(l, 2)) == Some(n)
  {
    var s := IntToString(n);
    assert ("> " + s)[2..] == s;
    IntRoundTrip(n);
  }

  /** A line group opening with two `> id` lines is parsed as a connection between the objects those ids index. */
  lemma ParseConnectionLines(lines: seq<string>, objs: seq<Object>, a: int, b: int)
    requires -|objs| <= a < |objs| && -|objs| <= b < |objs|
    requires |lines| >= 3 && lines[0] == "> " + IntToString(a) && lines[1] == "> " + IntToString(b)
    ensures ParseLines(lines, objs)
      == Ok(Some(Parsed(Tokens(lines[2]), Middle(lines, 3), [Obj(At(objs, a).value), Obj(At(objs, b).value)])))
  {
    ConnectionLineId(a);
    ConnectionLineId(b);
    NotHeader(lines[0]);
  }

  /** Where the lines of a connected object's text sit. */
  lemma ConnectedShape(line: string, mods: seq<string>, a: int, b: int, foot: string)
    ensures var lines := EndLines(Some((a, b))) + [line] + mods + [foot];
      |lines| >= 3 && lines[0] == "> " + IntToString(a) && lines[1] == "> " + IntToString(b) && lines[2] == line
  {
  }

  /**
   * parse(to_str(enumeration=True)) of a connected object gives back its
   * attributes and modifiers, and resolves the two `>` ids in the level list.
   */
  lemma {:induction false} ParseConnected(attrs: seq<Attr>, mods: seq<string>, a: int, b: int, footer: int, objs: seq<Object>)
    requires Tokenizable(attrs)
    requires forall i :: 0 <= i < |mods| ==> NoLineBreak(mods[i])
    requires -|objs| <= a < |objs| && -|objs| <= b < |objs|
    ensures ParseGroup(Join("\n", SerializedLines(attrs, mods, Some((a, b)), Some(footer))), objs)
      == Ok(Some(Parsed(Reparsed(attrs), mods, [Obj(At(objs, a).value), Obj(At(objs, b).value)])))
  {
    var lines := SerializedLines(attrs, mods, Some((a, b)), Some(footer));
    SerializedLinesSplit(attrs, mods, Some((a, b)), footer);
    TokensOfLine(attrs);
    ConnectedShape(AttributeLine(attrs), mods, a, b, "< " + IntToString(footer));
    ParseConnectionLines(lines, objs, a, b);
    MiddleOf(EndLines(Some((a, b))) + [AttributeLine(attrs)], mods, "< " + IntToString(footer));
  }
}
