/**
 * The point plotters of circloo_helper/plotters.py: line_plotter joins a
 * list of points with Line objects, rope_plotter with Rope objects hung
 * between two placeholder lines, plot_points picks one of the two by name
 * and adjust_points moves and scales the points in place.
 *
 * As in the builders, a Line or Rope the plotters create is represented by
 * its Factory value (Catalogue.Make turns one into an Object); the two
 * placeholder lines of rope_plotter are real Objects, because the ropes
 * refer to them.
 */
module Plotters {
  import opened Wrappers
  import opened LevelObject
  import opened Catalogue

  /** A point as the tuple (x, y). */
  type Point = (int, int)

  /** The consecutive pairs (points[k], points[k+1]). */
  function Pairs(points: seq<Point>): (r: seq<(Point, Point)>)
  {
    if |points| < 2 then []
    else seq(|points| - 1, k requires 0 <= k < |points| - 1 => (points[k], points[k + 1]))
  }

  /**
   * The pairs a plotter joins: the consecutive pairs and, when `close`,
   * the pair from the last point back to the first (points[-1], points[0]).
   * Closing an empty list indexes points[-1], so it needs a point.
   */
  function Span(points: seq<Point>, close: bool): (r: seq<(Point, Point)>)
    requires close ==> |points| > 0
  {
    Pairs(points) + (if close then [(points[|points| - 1], points[0])] else [])
  }

  /** The spans form one path through the points in order, back to the start when closed. */
  lemma SpanIsPath(points: seq<Point>, close: bool)
    requires close ==> |points| > 0
    ensures var s := Span(points, close);
      && |s| == (if |points| == 0 then 0 else |points| - 1) + (if close then 1 else 0)
      && (forall k :: 0 <= k < |s| ==> s[k].0 == points[k])
      && (forall k :: 0 <= k < |s| - 1 ==> s[k].1 == s[k + 1].0)
      && (close ==> s[|s| - 1].1 == s[0].0)
      && (!close && |s| > 0 ==> s[|s| - 1].1 == points[|points| - 1])
  {
    var s := Span(points, close);
    if close && |points| == 1 {
      assert s == [(points[0], points[0])];
    }
  }

  /** A thin line from p to q: Line(*p, *q, thickness=thickness). */
  function Link(p: Point, q: Point, thickness: int): (f: Factory)
    ensures f.Line? && f.thickness == thickness
    ensures (f.x1, f.y1) == p && (f.x2, f.y2) == q
  {
    Factory.Line(p.0, p.1, q.0, q.1, thickness)
  }

  /** One line per span. */
  function Lines(s: seq<(Point, Point)>, thickness: int): (r: seq<Factory>)
    ensures |r| == |s|
    ensures forall k :: 0 <= k < |s| ==> r[k] == Link(s[k].0, s[k].1, thickness)
  {
    seq(|s|, k requires 0 <= k < |s| => Link(s[k].0, s[k].1, thickness))
  }

  /** What line_plotter returns. */
  function Polyline(points: seq<Point>, thickness: int, close: bool): (r: seq<Factory>)
    requires close ==> |points| > 0
  {
    Lines(Span(points, close), thickness)
  }

  /**
   * The lines of line_plotter: all of the given thickness, the k-th starting
   * at points[k], each starting where the one before ends, and the last
   * ending at the first point when closed, at the last point otherwise.
   */
  lemma PolylineIsPath(points: seq<Point>, thickness: int, close: bool)
    requires close ==> |points| > 0
    ensures var r := Polyline(points, thickness, close);
      && |r| == (if |points| == 0 then 0 else |points| - 1) + (if close then 1 else 0)
      && (forall k :: 0 <= k < |r| ==> r[k].Line? && r[k].thickness == thickness)
      && (forall k :: 0 <= k < |r| ==> (r[k].x1, r[k].y1) == points[k])
      && (forall k :: 0 <= k < |r| - 1 ==> (r[k].x2, r[k].y2) == (r[k + 1].x1, r[k + 1].y1))
      && (close ==> (r[|r| - 1].x2, r[|r| - 1].y2) == (r[0].x1, r[0].y1))
      && (!close && |r| > 0 ==> (r[|r| - 1].x2, r[|r| - 1].y2) == points[|points| - 1])
  {
    SpanIsPath(points, close);
  }

  /**
   * line_plotter(points, thickness, close): one Line per consecutive pair,
   * then the closing Line when `close`; closing an empty list raises
   * IndexError at points[-1].
   */
  method LinePlotter(points: seq<Point>, thickness: int, close: bool) returns (r: Result<seq<Factory>>)
    ensures r.Err? <==> close && |points| == 0
    ensures r.Err? ==> r.error == IndexError
    ensures r.Ok? ==> r.value == Polyline(points, thickness, close)
  {
    ghost var ps := Pairs(points);
    var lines: seq<Factory> := [];
    var i := 0;
    while i < |points| - 1
      invariant 0 <= i <= |ps|
      invariant lines == Lines(ps[..i], thickness)
    {
      assert ps[i] == (points[i], points[i + 1]);
      lines := lines + [Link(points[i], points[i + 1], thickness)];
      i := i + 1;
    }
    assert ps[..i] == ps;
    if close {
      if |points| == 0 {
        return Err(IndexError);
      }
      lines := lines + [Link(points[|points| - 1], points[0], thickness)];
    }
    r := Ok(lines);
  }

  /** Rope(line_1, line_2, *p, *q): a rope between the two objects, offsets p and q. */
  function Tie(a: Object, b: Object, p: Point, q: Point): (f: Factory)
    ensures f.Rope? && Ends(f) == [Obj(a), Obj(b)] && f.maxLength == 0
    ensures (f.offset1X, f.offset1Y) == p && (f.offset2X, f.offset2Y) == q
  {
    Factory.Rope(Obj(a), Obj(b), p.0, p.1, q.0, q.1)
  }

  /** One rope between a and b per span. */
  function Ropes(a: Object, b: Object, s: seq<(Point, Point)>): (r: seq<Factory>)
    ensures |r| == |s|
    ensures forall k :: 0 <= k < |s| ==> r[k] == Tie(a, b, s[k].0, s[k].1)
  {
    seq(|s|, k requires 0 <= k < |s| => Tie(a, b, s[k].0, s[k].1))
  }

  /** An element of the list rope_plotter returns: the pair [line_1, line_2], or a created object. */
  datatype Piece = Placeholders(first: Object, second: Object) | Made(f: Factory)

  /** The created objects as list elements. */
  function Pieces(fs: seq<Factory>): (r: seq<Piece>)
    ensures |r| == |fs| && forall k :: 0 <= k < |fs| ==> r[k] == Made(fs[k])
  {
    seq(|fs|, k requires 0 <= k < |fs| => Made(fs[k]))
  }

  /**
   * The shape of rope_plotter's list: the two distinct placeholder lines
   * first, then one rope between them per span.
   */
  predicate Roped(r: seq<Piece>, points: seq<Point>, close: bool)
    requires close ==> |points| > 0
  {
    && |r| >= 1 && r[0].Placeholders? && r[0].first != r[0].second
    && r[1..] == Pieces(Ropes(r[0].first, r[0].second, Span(points, close)))
  }

  /** A placeholder: what Line(0, 0, 0, 0) creates. */
  ghost predicate Placeholder(o: Object)
    reads o
  {
    && o.attributes == Layout(Factory.Line(0, 0, 0, 0)) && o.modifiers == Modifiers(Factory.Line(0, 0, 0, 0))
    && o.connections == [] && o.id == -1 && o.kind == Kind.Line
  }

  /**
   * The ropes of rope_plotter all hang between the two placeholders, with no
   * length limit; the k-th starts at offset points[k], each starts at the
   * offset where the one before ends, and when closed the last ends at the
   * offset where the first starts.
   */
  lemma RopesArePath(r: seq<Piece>, points: seq<Point>, close: bool)
    requires close ==> |points| > 0
    requires Roped(r, points, close)
    ensures |r| == 1 + (if |points| == 0 then 0 else |points| - 1) + (if close then 1 else 0)
    ensures forall k :: 1 <= k < |r| ==>
      r[k].Made? && r[k].f.Rope? && r[k].f.maxLength == 0 && Ends(r[k].f) == [Obj(r[0].first), Obj(r[0].second)]
    ensures forall k :: 1 <= k < |r| ==> (r[k].f.offset1X, r[k].f.offset1Y) == points[k - 1]
    ensures forall k :: 1 <= k < |r| - 1 ==>
      (r[k].f.offset2X, r[k].f.offset2Y) == (r[k + 1].f.offset1X, r[k + 1].f.offset1Y)
    ensures close ==> (r[|r| - 1].f.offset2X, r[|r| - 1].f.offset2Y) == (r[1].f.offset1X, r[1].f.offset1Y)
  {
    SpanIsPath(points, close);
    var s := Span(points, close);
    forall k | 1 <= k < |r|
      ensures r[k] == Made(Tie(r[0].first, r[0].second, s[k - 1].0, s[k - 1].1))
    {
      assert r[k] == r[1..][k - 1];
    }
  }

  /**
   * rope_plotter(points, close): two new placeholder lines, listed as a pair,
   * then one Rope between them per consecutive pair, then the closing Rope
   * when `close`; closing an empty list raises IndexError at points[-1].
   */
  method RopePlotter(points: seq<Point>, close: bool) returns (r: Result<seq<Piece>>)
    ensures r.Err? <==> close && |points| == 0
    ensures r.Err? ==> r.error == IndexError
    ensures r.Ok? ==> Roped(r.value, points, close)
    ensures r.Ok? ==> fresh(r.value[0].first) && fresh(r.value[0].second)
    ensures r.Ok? ==> Placeholder(r.value[0].first) && Placeholder(r.value[0].second)
  {
    var line1 := Make(Factory.Line(0, 0, 0, 0));
    var line2 := Make(Factory.Line(0, 0, 0, 0));
    ghost var ps := Pairs(points);
    var objs := [Placeholders(line1, line2)];
    var i := 0;
    while i < |points| - 1
      invariant 0 <= i <= |ps|
      invariant objs == [Placeholders(line1, line2)] + Pieces(Ropes(line1, line2, ps[..i]))
    {
      assert ps[i] == (points[i], points[i + 1]);
      objs := objs + [Made(Tie(line1, line2, points[i], points[i + 1]))];
      i := i + 1;
    }
    assert ps[..i] == ps;
    if close {
      if |points| == 0 {
        return Err(IndexError);
      }
      objs := objs + [Made(Tie(line1, line2, points[|points| - 1], points[0]))];
    }
    assert objs[1..] == Pieces(Ropes(line1, line2, Span(points, close)));
    r := Ok(objs);
  }

  /** What plot_points returns for the two modes it knows. */
  datatype Plot = LinePlot(lines: seq<Factory>) | RopePlot(pieces: seq<Piece>)

  /**
   * plot_points(points, mode, close, line_thickness): line_plotter for
   * "line", rope_plotter for "rope", and None (the match falls through) for
   * any other mode.
   */
  method PlotPoints(points: seq<Point>, mode: string, close: bool, lineThickness: int) returns (r: Option<Result<Plot>>)
    ensures r.None? <==> mode != "line" && mode != "rope"
    ensures r.Some? ==> (r.value.Err? <==> close && |points| == 0)
    ensures r.Some? && r.value.Err? ==> r.value.error == IndexError
    ensures mode == "line" && r.Some? && r.value.Ok? ==>
      r.value.value == LinePlot(Polyline(points, lineThickness, close))
    ensures mode == "rope" && r.Some? && r.value.Ok? ==>
      r.value.value.RopePlot? && Roped(r.value.value.pieces, points, close)
  {
    if mode == "line" {
      var lines := LinePlotter(points, lineThickness, close);
      r := Some(if lines.Ok? then Ok(LinePlot(lines.value)) else Err(lines.error));
    } else if mode == "rope" {
      var pieces := RopePlotter(points, close);
      r := Some(if pieces.Ok? then Ok(RopePlot(pieces.value)) else Err(pieces.error));
    } else {
      r := None;
    }
  }

  /** (scale * x + start_x, scale * y + start_y). */
  function Moved(p: Point, startX: int, startY: int, scale: int): (q: Point)
  {
    (scale * p.0 + startX, scale * p.1 + startY)
  }

  /** Every point moved. */
  function Adjusted(ps: seq<Point>, startX: int, startY: int, scale: int): (r: seq<Point>)
    ensures |r| == |ps|
  {
    seq(|ps|, k requires 0 <= k < |ps| => Moved(ps[k], startX, startY, scale))
  }

  /** Scaling by 1 from the origin leaves the points where they are. */
  lemma AdjustedIdentity(ps: seq<Point>)
    ensures Adjusted(ps, 0, 0, 1) == ps
  {
  }

  /** Two adjustments in a row are one adjustment, with the scales multiplied. */
  lemma AdjustedTwice(ps: seq<Point>, x1: int, y1: int, s1: int, x2: int, y2: int, s2: int)
    ensures Adjusted(Adjusted(ps, x1, y1, s1), x2, y2, s2) == Adjusted(ps, s2 * x1 + x2, s2 * y1 + y2, s2 * s1)
  {
    var a := Adjusted(Adjusted(ps, x1, y1, s1), x2, y2, s2);
    var b := Adjusted(ps, s2 * x1 + x2, s2 * y1 + y2, s2 * s1);
    forall k | 0 <= k < |ps|
      ensures a[k] == b[k]
    {
      MovedTwice(ps[k], x1, y1, s1, x2, y2, s2);
    }
  }

  lemma MovedTwice(p: Point, x1: int, y1: int, s1: int, x2: int, y2: int, s2: int)
    ensures Moved(Moved(p, x1, y1, s1), x2, y2, s2) == Moved(p, s2 * x1 + x2, s2 * y1 + y2, s2 * s1)
  {
    assert s2 * (s1 * p.0 + x1) == (s2 * s1) * p.0 + s2 * x1;
    assert s2 * (s1 * p.1 + y1) == (s2 * s1) * p.1 + s2 * y1;
  }

  /**
   * adjust_points(points, start_x, start_y, scale): replaces every point of
   * the list, in place, by (scale * x + start_x, scale * y + start_y).
   */
  method AdjustPoints(points: array<Point>, startX: int, startY: int, scale: int)
    modifies points
    ensures points[..] == Adjusted(old(points[..]), startX, startY, scale)
  {
    var i := 0;
    while i < points.Length
      invariant 0 <= i <= points.Length
      invariant forall k :: 0 <= k < i ==> points[k] == Moved(old(points[k]), startX, startY, scale)
      invariant forall k :: i <= k < points.Length ==> points[k] == old(points[k])
    {
      points[i] := (scale * points[i].0 + startX, scale * points[i].1 + startY);
      i := i + 1;
    }
  }
}
