/**
 * The builders that turn a matrix of cells into level objects or level
 * text: build of circloo_helper/pixel_builder.py and of pixel_builder.py,
 * reduced_build of circloo_helper/image_converter.py and of
 * image_converter/image_converter.py. Each visits the cells row by row and
 * emits something for the cells a test keeps.
 */
module Builders {
  import opened Wrappers
  import opened Text
  import opened Catalogue
  import opened Grid

  type Position = (nat, nat)

  /** The positions (i, jj), jj < j, of row i whose cells `keep` accepts, left to right. */
  function RowHits(m: seq<seq<int>>, keep: int -> bool, i: nat, j: nat): (r: seq<Position>)
    requires i < |m| && j <= |m[i]|
  {
    if j == 0 then []
    else RowHits(m, keep, i, j - 1) + (if keep(m[i][j - 1]) then [(i, j - 1)] else [])
  }

  /** The kept positions of the rows before i, in row-major order. */
  function HitsBefore(m: seq<seq<int>>, keep: int -> bool, i: nat): (r: seq<Position>)
    requires i <= |m|
  {
    if i == 0 then [] else HitsBefore(m, keep, i - 1) + RowHits(m, keep, i - 1, |m[i - 1]|)
  }

  /** The kept positions of a matrix, in row-major order. */
  function Hits(m: seq<seq<int>>, keep: int -> bool): (ps: seq<Position>) {
    HitsBefore(m, keep, |m|)
  }

  /** p comes before q in row-major order. */
  predicate Before(p: Position, q: Position) {
    p.0 < q.0 || (p.0 == q.0 && p.1 < q.1)
  }

  /** Every position listed is a cell of the matrix that `keep` accepts. */
  predicate Sound(m: seq<seq<int>>, keep: int -> bool, ps: seq<Position>) {
    forall k :: 0 <= k < |ps| ==> ps[k].0 < |m| && ps[k].1 < |m[ps[k].0]| && keep(m[ps[k].0][ps[k].1])
  }

  lemma {:induction false} RowHitsFacts(m: seq<seq<int>>, keep: int -> bool, i: nat, j: nat)
    requires i < |m| && j <= |m[i]|
    ensures var r := RowHits(m, keep, i, j);
      Sound(m, keep, r) &&
      (forall k :: 0 <= k < |r| ==> r[k].0 == i && r[k].1 < j) &&
      (forall k, l :: 0 <= k < l < |r| ==> r[k].1 < r[l].1) &&
      (forall b :: 0 <= b < j && keep(m[i][b]) ==> (i, b) in r)
  {
    if j > 0 {
      RowHitsFacts(m, keep, i, j - 1);
    }
  }

  lemma {:induction false} HitsBeforeFacts(m: seq<seq<int>>, keep: int -> bool, i: nat)
    requires i <= |m|
    ensures var r := HitsBefore(m, keep, i);
      Sound(m, keep, r) &&
      (forall k :: 0 <= k < |r| ==> r[k].0 < i) &&
      (forall k, l :: 0 <= k < l < |r| ==> Before(r[k], r[l])) &&
      (forall a, b :: 0 <= a < i && 0 <= b < |m[a]| && keep(m[a][b]) ==> (a, b) in r)
  {
    if i > 0 {
      HitsBeforeFacts(m, keep, i - 1);
      RowHitsFacts(m, keep, i - 1, |m[i - 1]|);
      var front := HitsBefore(m, keep, i - 1);
      var row := RowHits(m, keep, i - 1, |m[i - 1]|);
      forall a, b | 0 <= a < i && 0 <= b < |m[a]| && keep(m[a][b])
        ensures (a, b) in front + row
      {
        if a < i - 1 {
          assert (a, b) in front;
        } else {
          assert (a, b) in row;
        }
      }
    }
  }

  /**
   * The positions a builder visits and keeps: exactly the cells `keep`
   * accepts, each once, in row-major order.
   */
  lemma HitsExactly(m: seq<seq<int>>, keep: int -> bool)
    ensures var ps := Hits(m, keep);
      Sound(m, keep, ps) &&
      (forall k, l :: 0 <= k < l < |ps| ==> Before(ps[k], ps[l])) &&
      (forall a, b :: 0 <= a < |m| && 0 <= b < |m[a]| && keep(m[a][b]) ==> (a, b) in ps)
  {
    HitsBeforeFacts(m, keep, |m|);
  }

  /** Visiting cell (i, j) extends the kept positions by that cell when `keep` accepts it. */
  lemma HitsStep(m: seq<seq<int>>, keep: int -> bool, i: nat, j: nat)
    requires i < |m| && j < |m[i]|
    ensures HitsBefore(m, keep, i) + RowHits(m, keep, i, j + 1) ==
      HitsBefore(m, keep, i) + RowHits(m, keep, i, j) + (if keep(m[i][j]) then [(i, j)] else [])
  {
    var front := HitsBefore(m, keep, i);
    var tail: seq<Position> := if keep(m[i][j]) then [(i, j)] else [];
    assert RowHits(m, keep, i, j + 1) == RowHits(m, keep, i, j) + tail;
    assert front + (RowHits(m, keep, i, j) + tail) == front + RowHits(m, keep, i, j) + tail;
  }

  predicate IsOne(x: int) { x == 1 }

  predicate Positive(x: int) { x > 0 }

  // ----- build of circloo_helper/pixel_builder.py -----

  /** The Rectangle for the 1 at row i, column j. */
  function Pixel(p: Position, startX: int, startY: int, size: int): (r: Factory) {
    Rectangle(p.1 * 2 * size + startX, p.0 * 2 * size + startY, size, size)
  }

  function Pixels(ps: seq<Position>, startX: int, startY: int, size: int): (r: seq<Factory>)
    ensures |r| == |ps|
  {
    seq(|ps|, k requires 0 <= k < |ps| => Pixel(ps[k], startX, startY, size))
  }

  /**
   * build(arr, start_x, start_y, size) of circloo_helper/pixel_builder.py:
   * one size × size Rectangle, rotation 0, per 1 of the (possibly ragged)
   * matrix, at (j * 2 * size + start_x, i * 2 * size + start_y), in row-major
   * order.
   */
  method BuildRectangles(arr: seq<seq<int>>, startX: int, startY: int, size: int) returns (objs: seq<Factory>)
    ensures objs == Pixels(Hits(arr, IsOne), startX, startY, size)
  {
    objs := [];
    var i := 0;
    while i < |arr|
      invariant 0 <= i <= |arr|
      invariant objs == Pixels(HitsBefore(arr, IsOne, i), startX, startY, size)
    {
      var j := 0;
      while j < |arr[i]|
        invariant 0 <= j <= |arr[i]|
        invariant objs == Pixels(HitsBefore(arr, IsOne, i) + RowHits(arr, IsOne, i, j), startX, startY, size)
      {
        if arr[i][j] == 1 {
          var xpos := j * 2 * size + startX;
          var ypos := i * 2 * size + startY;
          objs := objs + [Rectangle(xpos, ypos, size, size)];
        }
        j := j + 1;
      }
      i := i + 1;
    }
  }

  /**
   * The Rectangles of build: one per 1 of the matrix, in row-major order,
   * each size × size with rotation 0, its position given by its cell.
   */
  lemma BuildRectanglesCells(arr: seq<seq<int>>, startX: int, startY: int, size: int)
    ensures var ps := Hits(arr, IsOne);
      var objs := Pixels(ps, startX, startY, size);
      (forall k :: 0 <= k < |objs| ==>
        var (i, j) := ps[k];
        i < |arr| && j < |arr[i]| && arr[i][j] == 1 &&
        objs[k] == Rectangle(j * 2 * size + startX, i * 2 * size + startY, size, size, 0)) &&
      (forall i, j :: 0 <= i < |arr| && 0 <= j < |arr[i]| && arr[i][j] == 1 ==> (i, j) in ps) &&
      (forall k, l :: 0 <= k < l < |ps| ==> Before(ps[k], ps[l]))
  {
    HitsExactly(arr, IsOne);
  }

  // ----- reduced_build of circloo_helper/image_converter.py -----

  /** Every listed position is a cell of g with at least two channels. */
  predicate Within(g: Image, ps: seq<Position>) {
    forall k :: 0 <= k < |ps| ==> InCell(g, ps[k])
  }

  predicate InCell(g: Image, p: Position) {
    p.0 < |g| && p.1 < |g[p.0]| && |g[p.0][p.1]| >= 2
  }

  /**
   * The Rectangle of the cell at p: its half-width size * ch0 and half-height
   * size * ch1, its centre that far right of and below the cell's corner.
   */
  function Reduced(g: Image, p: Position, startX: int, startY: int, size: int): (r: Factory)
    requires InCell(g, p)
  {
    var cell := g[p.0][p.1];
    Rectangle(p.1 * (2 * size) + startX + size * cell[0], p.0 * (2 * size) + startY + size * cell[1],
      size * cell[0], size * cell[1])
  }

  function ReducedAll(g: Image, ps: seq<Position>, startX: int, startY: int, size: int): (r: seq<Factory>)
    requires Within(g, ps)
    ensures |r| == |ps|
  {
    seq(|ps|, k requires 0 <= k < |ps| => Reduced(g, ps[k], startX, startY, size))
  }

  lemma ReducedSnoc(g: Image, ps: seq<Position>, p: Position, startX: int, startY: int, size: int)
    requires Within(g, ps) && InCell(g, p)
    ensures Within(g, ps + [p])
    ensures ReducedAll(g, ps + [p], startX, startY, size) ==
      ReducedAll(g, ps, startX, startY, size) + [Reduced(g, p, startX, startY, size)]
  {
  }

  /**
   * reduced_build(arr, start_x, start_y, size) of
   * circloo_helper/image_converter.py: one Rectangle per cell whose channel 0
   * is positive, in row-major order.
   */
  method ReducedBuild(a: array3<int>, startX: int, startY: int, size: int) returns (objs: seq<Factory>)
    requires a.Length2 >= 2
    ensures Within(Cells(a), Hits(Channel0(Cells(a), a.Length1, a.Length2), Positive))
    ensures objs == ReducedAll(Cells(a), Hits(Channel0(Cells(a), a.Length1, a.Length2), Positive), startX, startY, size)
  {
    ghost var g := Cells(a);
    ghost var m := Channel0(g, a.Length1, a.Length2);
    ghost var ps: seq<Position> := [];
    objs := [];
    var ypos := 0;
    var i := 0;
    while i < a.Length0
      invariant 0 <= i <= a.Length0
      invariant ps == HitsBefore(m, Positive, i) && Within(g, ps)
      invariant objs == ReducedAll(g, ps, startX, startY, size)
      invariant ypos == i * (2 * size)
    {
      objs, ps := ReducedRow(a, i, ypos, startX, startY, size, objs, ps);
      MulNext(i, 2 * size);
      ypos := ypos + 2 * size;
      i := i + 1;
    }
  }

  /** Row i of reduced_build, xpos running from 0 by 2 * size. */
  method ReducedRow(a: array3<int>, i: nat, ypos: int, startX: int, startY: int, size: int,
                    objs: seq<Factory>, ghost ps: seq<Position>) returns (objs': seq<Factory>, ghost ps': seq<Position>)
    requires a.Length2 >= 2 && i < a.Length0 && ypos == i * (2 * size)
    requires ps == HitsBefore(Channel0(Cells(a), a.Length1, a.Length2), Positive, i)
    requires Within(Cells(a), ps) && objs == ReducedAll(Cells(a), ps, startX, startY, size)
    ensures ps' == HitsBefore(Channel0(Cells(a), a.Length1, a.Length2), Positive, i + 1)
    ensures Within(Cells(a), ps') && objs' == ReducedAll(Cells(a), ps', startX, startY, size)
  {
    ghost var m := Channel0(Cells(a), a.Length1, a.Length2);
    objs', ps' := objs, ps;
    var xpos := 0;
    var j := 0;
    while j < a.Length1
      invariant 0 <= j <= a.Length1
      invariant ps' == HitsBefore(m, Positive, i) + RowHits(m, Positive, i, j)
      invariant Within(Cells(a), ps') && objs' == ReducedAll(Cells(a), ps', startX, startY, size)
      invariant xpos == j * (2 * size)
    {
      HitsStep(m, Positive, i, j);
      objs', ps' := ReducedCell(a, i, j, xpos, ypos, startX, startY, size, objs', ps');
      MulNext(j, 2 * size);
      xpos := xpos + 2 * size;
      j := j + 1;
    }
  }

  /** One cell of reduced_build: its Rectangle is appended when channel 0 is positive. */
  method ReducedCell(a: array3<int>, i: nat, j: nat, xpos: int, ypos: int, startX: int, startY: int, size: int,
                     objs: seq<Factory>, ghost ps: seq<Position>) returns (objs': seq<Factory>, ghost ps': seq<Position>)
    requires a.Length2 >= 2 && i < a.Length0 && j < a.Length1
    requires xpos == j * (2 * size) && ypos == i * (2 * size)
    requires Within(Cells(a), ps) && objs == ReducedAll(Cells(a), ps, startX, startY, size)
    ensures ps' == ps + (if Positive(Channel0(Cells(a), a.Length1, a.Length2)[i][j]) then [(i, j)] else [])
    ensures Within(Cells(a), ps') && objs' == ReducedAll(Cells(a), ps', startX, startY, size)
  {
    ghost var g := Cells(a);
    var xFactor := a[i, j, 0];
    var yFactor := a[i, j, 1];
    assert Channel0(g, a.Length1, a.Length2)[i][j] == g[i][j][0] == xFactor && g[i][j][1] == yFactor;
    objs', ps' := objs, ps;
    if xFactor > 0 {
      var rect := Rectangle(xpos + startX + size * xFactor, ypos + startY + size * yFactor, size * xFactor, size * yFactor);
      assert rect == Reduced(g, (i, j), startX, startY, size);
      ReducedSnoc(g, ps, (i, j), startX, startY, size);
      objs' := objs + [rect];
      ps' := ps + [(i, j)];
    }
  }

  /**
   * The Rectangles of reduced_build: one per cell with a positive channel 0,
   * each cell once, in row-major order; a Rectangle's width is size * ch0
   * and its left edge x − width is the cell's corner start_x + 2 * size * j,
   * likewise height size * ch1 and top edge start_y + 2 * size * i.
   */
  lemma ReducedBuildCells(g: Image, w: nat, c: nat, startX: int, startY: int, size: int)
    requires Shaped(g, |g|, w, c) && c >= 2
    ensures var ps := Hits(Channel0(g, w, c), Positive);
      Within(g, ps) &&
      var objs := ReducedAll(g, ps, startX, startY, size);
      (forall k :: 0 <= k < |ps| ==>
        var (i, j) := ps[k];
        g[i][j][0] > 0 &&
        objs[k].Rectangle? && objs[k].rotation == 0 &&
        objs[k].width == size * g[i][j][0] && objs[k].height == size * g[i][j][1] &&
        objs[k].x - objs[k].width == startX + 2 * size * j &&
        objs[k].y - objs[k].height == startY + 2 * size * i) &&
      (forall i, j :: 0 <= i < |g| && 0 <= j < w && g[i][j][0] > 0 ==> (i, j) in ps) &&
      (forall k, l :: 0 <= k < l < |ps| ==> Before(ps[k], ps[l]))
  {
    PositiveCells(g, w, c);
    var ps := Hits(Channel0(g, w, c), Positive);
    forall k | 0 <= k < |ps|
      ensures Reduced(g, ps[k], startX, startY, size) ==
        Rectangle(2 * size * ps[k].1 + startX + size * g[ps[k].0][ps[k].1][0],
          2 * size * ps[k].0 + startY + size * g[ps[k].0][ps[k].1][1],
          size * g[ps[k].0][ps[k].1][0], size * g[ps[k].0][ps[k].1][1])
    {
      ReducedAt(g, ps[k], startX, startY, size);
    }
  }

  /** The cells with a positive channel 0, in row-major order, each once. */
  lemma PositiveCells(g: Image, w: nat, c: nat)
    requires Shaped(g, |g|, w, c) && c >= 2
    ensures var ps := Hits(Channel0(g, w, c), Positive);
      Within(g, ps) &&
      (forall k :: 0 <= k < |ps| ==> g[ps[k].0][ps[k].1][0] > 0) &&
      (forall i, j :: 0 <= i < |g| && 0 <= j < w && g[i][j][0] > 0 ==> (i, j) in ps) &&
      (forall k, l :: 0 <= k < l < |ps| ==> Before(ps[k], ps[l]))
  {
    var m := Channel0(g, w, c);
    HitsExactly(m, Positive);
    var ps := Hits(m, Positive);
    forall k | 0 <= k < |ps|
      ensures InCell(g, ps[k]) && g[ps[k].0][ps[k].1][0] > 0
    {
      assert m[ps[k].0][ps[k].1] == g[ps[k].0][ps[k].1][0];
    }
    forall i, j | 0 <= i < |g| && 0 <= j < w && g[i][j][0] > 0
      ensures (i, j) in ps
    {
      assert m[i][j] == g[i][j][0];
    }
  }

  /** The Rectangle of one cell, its coordinates written as the source adds them. */
  lemma ReducedAt(g: Image, p: Position, startX: int, startY: int, size: int)
    requires InCell(g, p)
    ensures Reduced(g, p, startX, startY, size) ==
      Rectangle(2 * size * p.1 + startX + size * g[p.0][p.1][0], 2 * size * p.0 + startY + size * g[p.0][p.1][1],
        size * g[p.0][p.1][0], size * g[p.0][p.1][1])
  {
    MulComm(p.1, 2 * size);
    MulComm(p.0, 2 * size);
  }

  lemma MulComm(a: int, b: int)
    ensures a * b == b * a
  {
  }

  // ----- enumerated text -----

  /**
   * One entry of the text list a text builder joins: an object line
   * `{obj} {x} {y} {w} {h} {extras}`, the solid-rectangle line
   * `b {x} {y} {w} {h} 0`, or an enumeration line `< n`.
   */
  datatype Entry =
    | Item(obj: string, x: int, y: int, w: int, h: int, extras: string)
    | Box(x: int, y: int, w: int, h: int)
    | Footer(n: int)

  /** The line `{obj} {x} {y} {w} {h} {extras}` the builders append per object. */
  function ItemText(obj: string, x: int, y: int, w: int, h: int, extras: string): (t: string)
  {
    obj + " " + IntToString(x) + " " + IntToString(y) + " " + IntToString(w) + " " + IntToString(h) + " " + extras + "\n"
  }

  /** The entry as the text the builder appends. */
  function Render(e: Entry): (t: string) {
    match e
    case Item(obj, x, y, w, h, extras) => ItemText(obj, x, y, w, h, extras)
    case Box(x, y, w, h) => ItemText("b", x, y, w, h, "0")
    case Footer(n) => "< " + IntToString(n) + "\n"
  }

  /** ''.join of the text list. */
  function Joined(es: seq<Entry>): (t: string) {
    Concat(seq(|es|, k requires 0 <= k < |es| => Render(es[k])))
  }

  /**
   * The object entries, each followed by its `< n` entry when `on`, n running
   * from `first`.
   */
  function Numbered(items: seq<Entry>, on: bool, first: int): (r: seq<Entry>)
    decreases |items|
  {
    if items == [] then []
    else
      var n := |items| - 1;
      Numbered(items[..n], on, first) + [items[n]] + (if on then [Footer(first + n)] else [])
  }

  /** Numbering one more object entry appends it and, when on, its number. */
  lemma NumberedSnoc(items: seq<Entry>, x: Entry, on: bool, first: int)
    ensures Numbered(items + [x], on, first) ==
      Numbered(items, on, first) + [x] + (if on then [Footer(first + |items|)] else [])
  {
    assert (items + [x])[..|items|] == items;
  }

  /** With numbering, object entry k sits at 2k and is followed by `< first + k`. */
  lemma {:induction false} NumberedOn(items: seq<Entry>, first: int)
    ensures var r := Numbered(items, true, first);
      |r| == 2 * |items| &&
      forall k :: 0 <= k < |items| ==> r[2 * k] == items[k] && r[2 * k + 1] == Footer(first + k)
    decreases |items|
  {
    if items != [] {
      var n := |items| - 1;
      var front := items[..n];
      NumberedOn(front, first);
      var r := Numbered(items, true, first);
      var r0 := Numbered(front, true, first);
      assert r == r0 + [items[n]] + [Footer(first + n)];
      forall k | 0 <= k < |items|
        ensures r[2 * k] == items[k] && r[2 * k + 1] == Footer(first + k)
      {
        if k < n {
          assert r[2 * k] == r0[2 * k] == front[k];
          assert r[2 * k + 1] == r0[2 * k + 1];
        } else {
          assert k == n && |r0| == 2 * n;
          assert r[2 * n] == items[n];
        }
      }
    }
  }

  /** Without numbering, the list is the object entries alone. */
  lemma {:induction false} NumberedOff(items: seq<Entry>, first: int)
    ensures Numbered(items, false, first) == items
    decreases |items|
  {
    if items != [] {
      var n := |items| - 1;
      NumberedOff(items[..n], first);
      assert items[..n] + [items[n]] == items;
    }
  }

  // ----- build of pixel_builder.py -----

  /** The object entry of the 1 at row p.0, column p.1. */
  function PixelItem(p: Position, obj: string, startX: int, startY: int, size: int, extras: string): (r: Entry) {
    Item(obj, p.1 * (2 * size) + startX, p.0 * (2 * size) + startY, size, size, extras)
  }

  function PixelItems(ps: seq<Position>, obj: string, startX: int, startY: int, size: int, extras: string): (r: seq<Entry>)
    ensures |r| == |ps|
  {
    seq(|ps|, k requires 0 <= k < |ps| => PixelItem(ps[k], obj, startX, startY, size, extras))
  }

  /**
   * build(arr, obj, start_x, start_y, size, extras, line_nums, start_line)
   * of pixel_builder.py: an object line per 1 of the matrix in row-major
   * order, each followed by `< n` when line_nums, n counting from
   * start_line; the lines joined.
   */
  method BuildText(arr: seq<seq<int>>, obj: string, startX: int, startY: int, size: int, extras: string,
                   lineNums: bool, startLine: int) returns (s: string)
    ensures s == Joined(Numbered(PixelItems(Hits(arr, IsOne), obj, startX, startY, size, extras), lineNums, startLine))
  {
    var text: seq<Entry> := [];
    var xpos := 0;
    var ypos := 0;
    var curLine := startLine;
    ghost var ps: seq<Position> := [];
    var i := 0;
    while i < |arr|
      invariant 0 <= i <= |arr|
      invariant ps == HitsBefore(arr, IsOne, i)
      invariant text == Numbered(PixelItems(ps, obj, startX, startY, size, extras), lineNums, startLine)
      invariant curLine == startLine + (if lineNums then |ps| else 0)
      invariant xpos == 0 && ypos == i * (2 * size)
    {
      var j := 0;
      while j < |arr[i]|
        invariant 0 <= j <= |arr[i]|
        invariant ps == HitsBefore(arr, IsOne, i) + RowHits(arr, IsOne, i, j)
        invariant text == Numbered(PixelItems(ps, obj, startX, startY, size, extras), lineNums, startLine)
        invariant curLine == startLine + (if lineNums then |ps| else 0)
        invariant xpos == j * (2 * size) && ypos == i * (2 * size)
      {
        HitsStep(arr, IsOne, i, j);
        if arr[i][j] == 1 {
          var item := Item(obj, xpos + startX, ypos + startY, size, size, extras);
          text := text + [item];
          if lineNums {
            text := text + [Footer(curLine)];
            curLine := curLine + 1;
          }
          ghost var items := PixelItems(ps, obj, startX, startY, size, extras);
          ps := ps + [(i, j)];
          assert PixelItems(ps, obj, startX, startY, size, extras) == items + [item];
          NumberedSnoc(items, item, lineNums, startLine);
        }
        MulNext(j, 2 * size);
        xpos := xpos + 2 * size;
        j := j + 1;
      }
      MulNext(i, 2 * size);
      xpos := 0;
      ypos := ypos + 2 * size;
      i := i + 1;
    }
    s := Joined(text);
  }

  /**
   * The text list of build: object entry k is `{obj} {x} {y} {size} {size}
   * {extras}` for the k-th 1 in row-major order, at x = start_x + 2 * size * c,
   * y = start_y + 2 * size * r; with line_nums it is followed by
   * `< start_line + k`, without it there is no `<` entry.
   */
  lemma BuildTextLines(arr: seq<seq<int>>, obj: string, startX: int, startY: int, size: int, extras: string,
                       lineNums: bool, startLine: int)
    ensures var ps := Hits(arr, IsOne);
      var items := PixelItems(ps, obj, startX, startY, size, extras);
      var text := Numbered(items, lineNums, startLine);
      (forall k :: 0 <= k < |ps| ==> var (r, c) := ps[k];
        r < |arr| && c < |arr[r]| && arr[r][c] == 1 &&
        items[k] == Item(obj, startX + 2 * size * c, startY + 2 * size * r, size, size, extras)) &&
      (forall r, c :: 0 <= r < |arr| && 0 <= c < |arr[r]| && arr[r][c] == 1 ==> (r, c) in ps) &&
      (forall k, l :: 0 <= k < l < |ps| ==> Before(ps[k], ps[l])) &&
      (lineNums ==> (|text| == 2 * |ps| &&
        forall k :: 0 <= k < |ps| ==> text[2 * k] == items[k] && text[2 * k + 1] == Footer(startLine + k))) &&
      (!lineNums ==> text == items && forall k :: 0 <= k < |text| ==> !text[k].Footer?)
  {
    HitsExactly(arr, IsOne);
    var items := PixelItems(Hits(arr, IsOne), obj, startX, startY, size, extras);
    if lineNums {
      NumberedOn(items, startLine);
    } else {
      NumberedOff(items, startLine);
    }
  }

  // ----- reduced_build of image_converter/image_converter.py -----

  /**
   * The object line of the cell at p: half-width size * ch0, half-height
   * size * ch1, centre that far right of and below the cell's corner.
   */
  function ReducedItem(g: Image, p: Position, startX: int, startY: int, size: int): (r: Entry) {
    Box(p.1 * (2 * size) + startX + size * Channel(g, p, 0), p.0 * (2 * size) + startY + size * Channel(g, p, 1),
      size * Channel(g, p, 0), size * Channel(g, p, 1))
  }

  /** Channel k of the cell at p, 0 off the image. */
  function Channel(g: Image, p: Position, k: nat): (r: int) {
    if p.0 < |g| && p.1 < |g[p.0]| && k < |g[p.0][p.1]| then g[p.0][p.1][k] else 0
  }

  /**
   * Both reduced_build copies place a cell alike: the line of the text copy
   * is the `b` line of the Rectangle the object copy makes, rotation 0.
   */
  lemma ReducedItemIsRectangle(g: Image, p: Position, startX: int, startY: int, size: int)
    requires InCell(g, p)
    ensures var r := Reduced(g, p, startX, startY, size);
      r.Rectangle? && r.rotation == 0 && ReducedItem(g, p, startX, startY, size) == Box(r.x, r.y, r.width, r.height)
  {
  }

  function ReducedItems(g: Image, ps: seq<Position>, startX: int, startY: int, size: int): (r: seq<Entry>)
    ensures |r| == |ps|
  {
    seq(|ps|, k requires 0 <= k < |ps| => ReducedItem(g, ps[k], startX, startY, size))
  }

  /**
   * The text list of reduced_build on an image of w columns and c channels:
   * the object entries of the positive cells, numbered from 0 when on.
   */
  function ReducedLines(g: Image, w: nat, c: nat, startX: int, startY: int, size: int, on: bool): (r: seq<Entry>)
    requires Shaped(g, |g|, w, c) && c >= 2
  {
    Numbered(ReducedItems(g, Hits(Channel0(g, w, c), Positive), startX, startY, size), on, 0)
  }

  /**
   * reduced_build(arr, start_x, start_y, size, start_line) of
   * image_converter/image_converter.py: a `b {x} {y} {w} {h} 0` line per cell
   * whose channel 0 is positive, in row-major order; when start_line >= 0
   * each is followed by `< n`, n counting from 0 whatever start_line is.
   * The array is only read, so it is passed as its contents g with its
   * shape: |g| rows of w cells of c channels.
   */
  method ReducedText(g: Image, w: nat, c: nat, startX: int, startY: int, size: int, startLine: int) returns (s: string)
    requires Shaped(g, |g|, w, c) && c >= 2
    ensures s == Joined(ReducedLines(g, w, c, startX, startY, size, startLine >= 0))
  {
    var on := startLine >= 0;
    var text := ReducedTextList(g, w, c, startX, startY, size, on);
    ListingNumbered(g, Hits(Channel0(g, w, c), Positive), startX, startY, size, on);
    s := Joined(text);
  }

  /** The loop of the text reduced_build: the text list, `< n` counting from 0 when on. */
  method ReducedTextList(g: Image, w: nat, c: nat, startX: int, startY: int, size: int, on: bool) returns (text: seq<Entry>)
    requires Shaped(g, |g|, w, c) && c >= 2
    ensures text == Listing(g, Hits(Channel0(g, w, c), Positive), startX, startY, size, on)
  {
    ghost var m := Channel0(g, w, c);
    ghost var ps: seq<Position> := [];
    text := [];
    var curLine := 0;
    var ypos := 0;
    var i := 0;
    while i < |g|
      invariant 0 <= i <= |g| && ps == HitsBefore(m, Positive, i)
      invariant text == Listing(g, ps, startX, startY, size, on) && curLine == (if on then |ps| else 0)
      invariant ypos == Steps(i, 2 * size)
    {
      text, curLine, ps := ReducedTextRow(g, w, c, i, ypos, startX, startY, size, on, text, curLine, m, ps);
      ypos := ypos + 2 * size;
      i := i + 1;
    }
  }

  /** The text list reduced_build has built once it has kept the cells ps. */
  function Listing(g: Image, ps: seq<Position>, startX: int, startY: int, size: int, on: bool): (r: seq<Entry>)
    decreases |ps|
  {
    if ps == [] then []
    else
      var n := |ps| - 1;
      Listing(g, ps[..n], startX, startY, size, on) + [ReducedItem(g, ps[n], startX, startY, size)] +
        (if on then [Footer(n)] else [])
  }

  lemma {:induction false} ListingNumbered(g: Image, ps: seq<Position>, startX: int, startY: int, size: int, on: bool)
    ensures Listing(g, ps, startX, startY, size, on) == Numbered(ReducedItems(g, ps, startX, startY, size), on, 0)
    decreases |ps|
  {
    if ps != [] {
      var n := |ps| - 1;
      ListingNumbered(g, ps[..n], startX, startY, size, on);
      assert ReducedItems(g, ps, startX, startY, size) ==
        ReducedItems(g, ps[..n], startX, startY, size) + [ReducedItem(g, ps[n], startX, startY, size)];
      NumberedSnoc(ReducedItems(g, ps[..n], startX, startY, size), ReducedItem(g, ps[n], startX, startY, size), on, 0);
    }
  }

  /** Row i of the text reduced_build. */
  method ReducedTextRow(g: Image, w: nat, c: nat, i: nat, ypos: int, startX: int, startY: int, size: int, on: bool,
                        text: seq<Entry>, curLine: int, ghost m: seq<seq<int>>, ghost ps: seq<Position>)
    returns (text': seq<Entry>, curLine': int, ghost ps': seq<Position>)
    requires Shaped(g, |g|, w, c) && c >= 2 && i < |g| && ypos == Steps(i, 2 * size)
    requires m == Channel0(g, w, c) && ps == HitsBefore(m, Positive, i)
    requires text == Listing(g, ps, startX, startY, size, on) && curLine == (if on then |ps| else 0)
    ensures ps' == HitsBefore(m, Positive, i + 1)
    ensures text' == Listing(g, ps', startX, startY, size, on) && curLine' == (if on then |ps'| else 0)
  {
    assert |m[i]| == w;
    text', curLine', ps' := text, curLine, ps;
    var xpos := 0;
    var j := 0;
    while j < w
      invariant 0 <= j <= w
      invariant ps' == HitsBefore(m, Positive, i) + RowHits(m, Positive, i, j)
      invariant text' == Listing(g, ps', startX, startY, size, on) && curLine' == (if on then |ps'| else 0)
      invariant xpos == Steps(j, 2 * size)
    {
      HitsStep(m, Positive, i, j);
      text', curLine', ps' := ReducedTextCell(g, w, c, i, j, xpos, ypos, startX, startY, size, on, text', curLine', m, ps');
      xpos := xpos + 2 * size;
      j := j + 1;
    }
    assert ps' == HitsBefore(m, Positive, i + 1);
  }

  /** One cell of the text reduced_build. */
  method ReducedTextCell(g: Image, w: nat, c: nat, i: nat, j: nat, xpos: int, ypos: int, startX: int, startY: int,
                         size: int, on: bool, text: seq<Entry>, curLine: int, ghost m: seq<seq<int>>,
                         ghost ps: seq<Position>)
    returns (text': seq<Entry>, curLine': int, ghost ps': seq<Position>)
    requires Shaped(g, |g|, w, c) && c >= 2 && i < |g| && j < w
    requires xpos == Steps(j, 2 * size) && ypos == Steps(i, 2 * size)
    requires m == Channel0(g, w, c)
    requires text == Listing(g, ps, startX, startY, size, on) && curLine == (if on then |ps| else 0)
    ensures ps' == ps + (if Positive(m[i][j]) then [(i, j)] else [])
    ensures text' == Listing(g, ps', startX, startY, size, on) && curLine' == (if on then |ps'| else 0)
  {
    var xFactor := g[i][j][0];
    var yFactor := g[i][j][1];
    assert m[i][j] == xFactor;
    StepsProduct(i, 2 * size);
    StepsProduct(j, 2 * size);
    text', curLine', ps' := text, curLine, ps;
    if xFactor > 0 {
      var item := Box(xpos + startX + size * xFactor, ypos + startY + size * yFactor, size * xFactor, size * yFactor);
      assert item == ReducedItem(g, (i, j), startX, startY, size);
      text' := text + [item];
      if on {
        text' := text' + [Footer(curLine)];
        curLine' := curLine + 1;
      }
      ps' := ps + [(i, j)];
      assert ps'[..|ps|] == ps;
    }
  }

  /** The offset after n steps of d from 0, as the builders advance xpos and ypos. */
  function Steps(n: nat, d: int): (r: int)
  {
    if n == 0 then 0 else Steps(n - 1, d) + d
  }

  /** n steps of d reach n * d. */
  lemma {:induction false} StepsProduct(n: nat, d: int)
    ensures Steps(n, d) == n * d
  {
    if n > 0 {
      StepsProduct(n - 1, d);
      MulNext(n - 1, d);
    }
  }

  /** The line of one cell, its coordinates written as the source adds them. */
  lemma ReducedItemAt(g: Image, p: Position, startX: int, startY: int, size: int)
    requires InCell(g, p)
    ensures ReducedItem(g, p, startX, startY, size) == CellLine(g, p, startX, startY, size)
  {
    MulComm(p.1, 2 * size);
    MulComm(p.0, 2 * size);
  }


  /** Entry k of the object entries of reduced_build is the line of the k-th positive cell. */
  lemma ReducedItemsCells(g: Image, w: nat, c: nat, startX: int, startY: int, size: int)
    requires Shaped(g, |g|, w, c) && c >= 2
    ensures var ps := Hits(Channel0(g, w, c), Positive);
      Within(g, ps) &&
      forall k :: 0 <= k < |ps| ==> ReducedItems(g, ps, startX, startY, size)[k] == CellLine(g, ps[k], startX, startY, size)
  {
    PositiveCells(g, w, c);
    var ps := Hits(Channel0(g, w, c), Positive);
    forall k | 0 <= k < |ps|
      ensures ReducedItems(g, ps, startX, startY, size)[k] == CellLine(g, ps[k], startX, startY, size)
    {
      ReducedItemAt(g, ps[k], startX, startY, size);
    }
  }

  /**
   * The text of reduced_build when start_line >= 0: for the k-th positive
   * cell in row-major order its `b` line, then `< k`, so the numbering
   * starts at 0 whatever start_line is.
   */
  lemma ReducedTextNumbered(g: Image, w: nat, c: nat, startX: int, startY: int, size: int)
    requires Shaped(g, |g|, w, c) && c >= 2
    ensures var ps := Hits(Channel0(g, w, c), Positive);
      var text := ReducedLines(g, w, c, startX, startY, size, true);
      Within(g, ps) && |text| == 2 * |ps| &&
      forall k :: 0 <= k < |ps| ==> text[2 * k] == CellLine(g, ps[k], startX, startY, size) && text[2 * k + 1] == Footer(k)
  {
    var ps := Hits(Channel0(g, w, c), Positive);
    var items := ReducedItems(g, ps, startX, startY, size);
    ReducedItemsCells(g, w, c, startX, startY, size);
    NumberedOn(items, 0);
    var text := ReducedLines(g, w, c, startX, startY, size, true);
    assert text == Numbered(items, true, 0);
    forall k | 0 <= k < |ps|
      ensures text[2 * k] == CellLine(g, ps[k], startX, startY, size) && text[2 * k + 1] == Footer(k)
    {
      assert text[2 * k] == items[k];
    }
  }

  /** The text of reduced_build when start_line < 0: the `b` lines alone, no `<` entry. */
  lemma ReducedTextPlain(g: Image, w: nat, c: nat, startX: int, startY: int, size: int)
    requires Shaped(g, |g|, w, c) && c >= 2
    ensures var ps := Hits(Channel0(g, w, c), Positive);
      var text := ReducedLines(g, w, c, startX, startY, size, false);
      Within(g, ps) && |text| == |ps| &&
      forall k :: 0 <= k < |ps| ==> text[k] == CellLine(g, ps[k], startX, startY, size)
  {
    var ps := Hits(Channel0(g, w, c), Positive);
    var items := ReducedItems(g, ps, startX, startY, size);
    ReducedItemsCells(g, w, c, startX, startY, size);
    NumberedOff(items, 0);
    assert ReducedLines(g, w, c, startX, startY, size, false) == items;
  }

  /**
   * The text list of reduced_build with cur_line starting at start_line, as
   * build of pixel_builder.py starts it.
   */
  function FixedReducedLines(g: Image, w: nat, c: nat, startX: int, startY: int, size: int, startLine: int): (r: seq<Entry>)
    requires Shaped(g, |g|, w, c) && c >= 2
  {
    Numbered(ReducedItems(g, Hits(Channel0(g, w, c), Positive), startX, startY, size), startLine >= 0, startLine)
  }

  /** With the counter started at start_line, the k-th positive cell's `b` line is followed by `< start_line + k`. */
  lemma FixedReducedTextNumbered(g: Image, w: nat, c: nat, startX: int, startY: int, size: int, startLine: int)
    requires Shaped(g, |g|, w, c) && c >= 2 && startLine >= 0
    ensures var ps := Hits(Channel0(g, w, c), Positive);
      var text := FixedReducedLines(g, w, c, startX, startY, size, startLine);
      Within(g, ps) && |text| == 2 * |ps| &&
      forall k :: 0 <= k < |ps| ==>
        text[2 * k] == CellLine(g, ps[k], startX, startY, size) && text[2 * k + 1] == Footer(startLine + k)
  {
    var ps := Hits(Channel0(g, w, c), Positive);
    var items := ReducedItems(g, ps, startX, startY, size);
    ReducedItemsCells(g, w, c, startX, startY, size);
    NumberedOn(items, startLine);
    var text := FixedReducedLines(g, w, c, startX, startY, size, startLine);
    assert text == Numbered(items, true, startLine);
    forall k | 0 <= k < |ps|
      ensures text[2 * k] == CellLine(g, ps[k], startX, startY, size) && text[2 * k + 1] == Footer(startLine + k)
    {
      assert text[2 * k] == items[k];
    }
  }

  /** The `b` line of a cell in the source's own arithmetic. */
  function CellLine(g: Image, p: Position, startX: int, startY: int, size: int): (r: Entry)
    requires InCell(g, p)
  {
    var cell := g[p.0][p.1];
    Box(2 * size * p.1 + startX + size * cell[0], 2 * size * p.0 + startY + size * cell[1], size * cell[0], size * cell[1])
  }
}
