/**
 * The image arrays of the converters (H × W × channels integer arrays) and
 * greedy_decomposition on them: circloo_helper/image_converter.py and
 * image_converter/image_converter.py work in place, the copy in
 * circloo_helper/video_converter.py on a new three-channel array.
 */
module Grid {
  import opened Wrappers
  import opened Runs

  /** An image as values: rows of cells, each cell its channel values. */
  type Image = seq<seq<Cell>>

  predicate Shaped(g: Image, h: nat, w: nat, c: nat) {
    |g| == h && (forall i :: 0 <= i < h ==> |g[i]| == w) &&
    forall i, j :: 0 <= i < h && 0 <= j < w ==> |g[i][j]| == c
  }

  /** The contents of an array. */
  function Cells(a: array3<int>): (g: Image)
    reads a
    ensures Shaped(g, a.Length0, a.Length1, a.Length2)
    ensures forall i, j, k :: 0 <= i < a.Length0 && 0 <= j < a.Length1 && 0 <= k < a.Length2 ==>
      g[i][j][k] == a[i, j, k]
  {
    seq(a.Length0, i reads a requires 0 <= i < a.Length0 =>
      seq(a.Length1, j reads a requires 0 <= j < a.Length1 =>
        seq(a.Length2, k reads a requires 0 <= k < a.Length2 => a[i, j, k])))
  }

  // ----- the passes on a whole image -----

  /** Channel 0 of row i. */
  function Row0(g: Image, i: nat, w: nat, c: nat): (r: seq<int>)
    requires Shaped(g, |g|, w, c) && c >= 1 && i < |g|
    ensures |r| == w
  {
    seq(w, j requires 0 <= j < w => g[i][j][0])
  }

  /** The horizontal pass on every row: channel 0 run-length encoded, the other channels kept. */
  function Horizontal(g: Image, w: nat, c: nat): (r: Image)
    requires Shaped(g, |g|, w, c) && c >= 1
    ensures Shaped(r, |g|, w, c)
  {
    seq(|g|, i requires 0 <= i < |g| =>
      seq(w, j requires 0 <= j < w => g[i][j][0 := RunLengths(Row0(g, i, w, c))[j]]))
  }

  /** Column j: the cells of every row at index j. */
  function Column(g: Image, j: nat, w: nat, c: nat): (r: seq<Cell>)
    requires Shaped(g, |g|, w, c) && c >= 2 && j < w
    ensures |r| == |g| && Wide(r)
  {
    seq(|g|, i requires 0 <= i < |g| => g[i][j])
  }

  /** The vertical pass on every column. */
  function Vertical(g: Image, w: nat, c: nat): (r: Image)
    requires Shaped(g, |g|, w, c) && c >= 2
    ensures Shaped(r, |g|, w, c)
  {
    seq(|g|, i requires 0 <= i < |g| =>
      seq(w, j requires 0 <= j < w => Stacked(Column(g, j, w, c))[i]))
  }

  /** greedy_decomposition on values: the horizontal pass, then the vertical pass. */
  function Decomposed(g: Image, w: nat, c: nat): (r: Image)
    requires Shaped(g, |g|, w, c) && c >= 2
    ensures Shaped(r, |g|, w, c)
  {
    Vertical(Horizontal(g, w, c), w, c)
  }

  // ----- what the passes do to every cell -----

  /** Row i after the horizontal pass: channel 0 is the run-length encoding of the input row. */
  lemma HorizontalRows(g: Image, w: nat, c: nat, i: nat)
    requires Shaped(g, |g|, w, c) && c >= 1 && i < |g|
    ensures Row0(Horizontal(g, w, c), i, w, c) == Encoded(Row0(g, i, w, c))
    ensures forall j, k :: 0 <= j < w && 1 <= k < c ==> Horizontal(g, w, c)[i][j][k] == g[i][j][k]
  {
    RunLengthsEncode(Row0(g, i, w, c));
  }

  /**
   * After greedy_decomposition a cell with a nonzero channel 0 has channel 1
   * at least 1, and a cell cleared by the vertical pass is 0 in every channel.
   */
  lemma DecomposedHeights(g: Image, w: nat, c: nat, i: nat, j: nat)
    requires Shaped(g, |g|, w, c) && c >= 2 && i < |g| && j < w
    ensures var r := Decomposed(g, w, c)[i][j];
      r[0] != 0 ==> r[1] >= 1
  {
    var h := Horizontal(g, w, c);
    StackedCells(Column(h, j, w, c), i);
  }

  // ----- totals over an image -----

  /** A matrix of integers with rows of width w. */
  predicate Matrix(m: seq<seq<int>>, w: nat) {
    forall i :: 0 <= i < |m| ==> |m[i]| == w
  }

  /** The sum of the row sums. */
  function ByRows(m: seq<seq<int>>): (total: int) {
    Sum(seq(|m|, i requires 0 <= i < |m| => Sum(m[i])))
  }

  /** Column j of a matrix. */
  function ColumnOf(m: seq<seq<int>>, w: nat, j: nat): (r: seq<int>)
    requires Matrix(m, w) && j < w
    ensures |r| == |m|
  {
    seq(|m|, i requires 0 <= i < |m| => m[i][j])
  }

  /** The sum of the column sums. */
  function ByColumns(m: seq<seq<int>>, w: nat): (r: int)
    requires Matrix(m, w)
  {
    Sum(seq(w, j requires 0 <= j < w => Sum(ColumnOf(m, w, j))))
  }

  lemma {:induction false} SumPointwise(a: seq<int>, b: seq<int>)
    requires |a| == |b|
    ensures Sum(seq(|a|, k requires 0 <= k < |a| => a[k] + b[k])) == Sum(a) + Sum(b)
  {
    if a != [] {
      var s := seq(|a|, k requires 0 <= k < |a| => a[k] + b[k]);
      assert s[1..] == seq(|a| - 1, k requires 0 <= k < |a| - 1 => a[1..][k] + b[1..][k]);
      SumPointwise(a[1..], b[1..]);
    }
  }

  /** Adding up a matrix by rows or by columns gives the same total. */
  lemma {:induction false} RowsColumns(m: seq<seq<int>>, w: nat)
    requires Matrix(m, w)
    ensures ByRows(m) == ByColumns(m, w)
  {
    if m == [] {
      assert seq(w, j requires 0 <= j < w => Sum(ColumnOf(m, w, j))) == seq(w, j => 0);
      ZeroSum(w);
    } else {
      var rest := m[1..];
      RowsColumns(rest, w);
      assert seq(|m|, i requires 0 <= i < |m| => Sum(m[i]))[1..] == seq(|rest|, i requires 0 <= i < |rest| => Sum(rest[i]));
      var cols := seq(w, j requires 0 <= j < w => Sum(ColumnOf(rest, w, j)));
      forall j | 0 <= j < w ensures Sum(ColumnOf(m, w, j)) == m[0][j] + cols[j] {
        assert ColumnOf(m, w, j)[1..] == ColumnOf(rest, w, j);
      }
      assert seq(w, j requires 0 <= j < w => Sum(ColumnOf(m, w, j))) ==
        seq(|m[0]|, k requires 0 <= k < |m[0]| => m[0][k] + cols[k]);
      SumPointwise(m[0], cols);
    }
  }

  lemma {:induction false} ZeroSum(n: nat)
    ensures Sum(seq(n, j => 0)) == 0
  {
    if n > 0 {
      assert seq(n, j => 0)[1..] == seq(n - 1, j => 0);
      ZeroSum(n - 1);
    }
  }

  /** Channel 0 of every cell. */
  function Channel0(g: Image, w: nat, c: nat): (m: seq<seq<int>>)
    requires Shaped(g, |g|, w, c) && c >= 1
    ensures |m| == |g| && Matrix(m, w)
  {
    seq(|g|, i requires 0 <= i < |g| => Row0(g, i, w, c))
  }

  /** channel 0 × channel 1 of every cell. */
  function AreaMatrix(g: Image, w: nat, c: nat): (m: seq<seq<int>>)
    requires Shaped(g, |g|, w, c) && c >= 2
    ensures |m| == |g| && Matrix(m, w)
  {
    seq(|g|, i requires 0 <= i < |g| => seq(w, j requires 0 <= j < w => g[i][j][0] * g[i][j][1]))
  }

  /** The horizontal pass keeps the channel-0 total. */
  lemma HorizontalTotal(g: Image, w: nat, c: nat)
    requires Shaped(g, |g|, w, c) && c >= 1
    ensures ByRows(Channel0(Horizontal(g, w, c), w, c)) == ByRows(Channel0(g, w, c))
  {
    var h := Horizontal(g, w, c);
    forall i | 0 <= i < |g| ensures Sum(Channel0(h, w, c)[i]) == Sum(Channel0(g, w, c)[i]) {
      assert Row0(h, i, w, c) == RunLengths(Row0(g, i, w, c));
      RunLengthsSum(Row0(g, i, w, c));
    }
    assert seq(|h|, i requires 0 <= i < |h| => Sum(Channel0(h, w, c)[i])) ==
      seq(|g|, i requires 0 <= i < |g| => Sum(Channel0(g, w, c)[i]));
  }

  /** The vertical pass turns the channel-0 total into the total of the areas. */
  lemma VerticalTotal(g: Image, w: nat, c: nat)
    requires Shaped(g, |g|, w, c) && c >= 2
    ensures ByRows(AreaMatrix(Vertical(g, w, c), w, c)) == ByRows(Channel0(g, w, c))
  {
    var v := Vertical(g, w, c);
    var areas := AreaMatrix(v, w, c);
    var firsts := Channel0(g, w, c);
    RowsColumns(areas, w);
    RowsColumns(firsts, w);
    forall j | 0 <= j < w ensures Sum(ColumnOf(areas, w, j)) == Sum(ColumnOf(firsts, w, j)) {
      var col := Column(g, j, w, c);
      assert ColumnOf(areas, w, j) == Areas(Stacked(col));
      assert ColumnOf(firsts, w, j) == Firsts(col);
      StackedArea(col);
    }
    assert seq(w, j requires 0 <= j < w => Sum(ColumnOf(areas, w, j))) ==
      seq(w, j requires 0 <= j < w => Sum(ColumnOf(firsts, w, j)));
  }

  /**
   * After greedy_decomposition the areas channel 0 × channel 1 add up to the
   * channel-0 total of the input: for a binary image with channel 1 at 0,
   * the number of 1 cells, each covered by exactly one rectangle.
   */
  lemma DecomposedTotal(g: Image, w: nat, c: nat)
    requires Shaped(g, |g|, w, c) && c >= 2
    ensures ByRows(AreaMatrix(Decomposed(g, w, c), w, c)) == ByRows(Channel0(g, w, c))
  {
    VerticalTotal(Horizontal(g, w, c), w, c);
    HorizontalTotal(g, w, c);
  }

  // ----- the array methods -----

  /**
   * greedy_decomposition(arr) of circloo_helper/image_converter.py and
   * image_converter/image_converter.py: both passes in place; the same
   * array is returned.
   */
  method GreedyDecomposition(a: array3<int>) returns (r: array3<int>)
    requires a.Length2 >= 2
    modifies a
    ensures r == a
    ensures forall i, j, k :: 0 <= i < a.Length0 && 0 <= j < a.Length1 && 0 <= k < a.Length2 ==>
      a[i, j, k] == Decomposed(old(Cells(a)), a.Length1, a.Length2)[i][j][k]
  {
    ghost var g := Cells(a);
    HorizontalPass(a, g);
    VerticalPass(a, Horizontal(g, a.Length1, a.Length2));
    r := a;
  }

  /**
   * greedy_decomposition(arr) of circloo_helper/video_converter.py: a new
   * H × W × 3 array with the frame in channel 0 and zeros elsewhere, then
   * both passes on it; the frame itself is not changed.
   */
  method GreedyVideo(frame: array2<int>) returns (r: array3<int>)
    ensures fresh(r) && r.Length0 == frame.Length0 && r.Length1 == frame.Length1 && r.Length2 == 3
    ensures forall i, j, k :: 0 <= i < r.Length0 && 0 <= j < r.Length1 && 0 <= k < 3 ==>
      r[i, j, k] == Decomposed(Layered(frame), frame.Length1, 3)[i][j][k]
  {
    r := new int[frame.Length0, frame.Length1, 3]((i: nat, j: nat, k: nat) reads frame =>
      if k == 0 && i < frame.Length0 && j < frame.Length1 then frame[i, j] else 0);
    ghost var g := Cells(r);
    assert g == Layered(frame) by {
      forall i | 0 <= i < frame.Length0 ensures g[i] == Layered(frame)[i] {
        forall j | 0 <= j < frame.Length1 ensures g[i][j] == Layered(frame)[i][j] {
        }
      }
    }
    HorizontalPass(r, g);
    VerticalPass(r, Horizontal(g, r.Length1, 3));
  }

  /** A frame as a three-channel image: its values in channel 0, zeros in channels 1 and 2. */
  function Layered(frame: array2<int>): (g: Image)
    reads frame
    ensures Shaped(g, frame.Length0, frame.Length1, 3)
  {
    seq(frame.Length0, i reads frame requires 0 <= i < frame.Length0 =>
      seq(frame.Length1, j reads frame requires 0 <= j < frame.Length1 => [frame[i, j], 0, 0]))
  }

  /** The first loop nest: every row through the horizontal pass. */
  method HorizontalPass(a: array3<int>, ghost g: Image)
    requires a.Length2 >= 1 && g == Cells(a)
    modifies a
    ensures forall i, j, k :: 0 <= i < a.Length0 && 0 <= j < a.Length1 && 0 <= k < a.Length2 ==>
      a[i, j, k] == Horizontal(g, a.Length1, a.Length2)[i][j][k]
  {
    var i := 0;
    while i < a.Length0
      invariant 0 <= i <= a.Length0
      invariant forall ii, j, k :: 0 <= ii < a.Length0 && 0 <= j < a.Length1 && 0 <= k < a.Length2 ==>
        a[ii, j, k] == if ii < i then Horizontal(g, a.Length1, a.Length2)[ii][j][k] else g[ii][j][k]
    {
      HorizontalRow(a, i, g);
      i := i + 1;
    }
  }

  /** One row of the horizontal pass, with `point` the column of the open run's first cell. */
  method HorizontalRow(a: array3<int>, i: nat, ghost g: Image)
    requires a.Length2 >= 1 && i < a.Length0 && Shaped(g, a.Length0, a.Length1, a.Length2)
    requires forall j, k :: 0 <= j < a.Length1 && 0 <= k < a.Length2 ==> a[i, j, k] == g[i][j][k]
    modifies a
    ensures forall j, k :: 0 <= j < a.Length1 && 0 <= k < a.Length2 ==>
      a[i, j, k] == Horizontal(g, a.Length1, a.Length2)[i][j][k]
    ensures forall ii, j, k :: 0 <= ii < a.Length0 && ii != i && 0 <= j < a.Length1 && 0 <= k < a.Length2 ==>
      a[ii, j, k] == old(a[ii, j, k])
  {
    ghost var row := Row0(g, i, a.Length1, a.Length2);
    ghost var cur := row;
    var point: Option<nat> := None;
    var j := 0;
    while j < a.Length1
      invariant 0 <= j <= a.Length1 && |cur| == a.Length1
      invariant point.Some? ==> point.value < j
      invariant Scan(cur, j, point) == RunLengths(row)
      invariant forall jj :: 0 <= jj < a.Length1 ==> a[i, jj, 0] == cur[jj]
      invariant forall jj, k :: 0 <= jj < a.Length1 && 1 <= k < a.Length2 ==> a[i, jj, k] == g[i][jj][k]
      invariant forall ii, jj, k :: 0 <= ii < a.Length0 && ii != i && 0 <= jj < a.Length1 && 0 <= k < a.Length2 ==>
        a[ii, jj, k] == old(a[ii, jj, k])
    {
      if a[i, j, 0] == 1 {
        if point.None? {
          point := Some(j);
        } else {
          var p := point.value;
          a[i, p, 0] := a[i, p, 0] + 1;
          a[i, j, 0] := 0;
          cur := cur[p := cur[p] + 1][j := 0];
        }
      } else {
        point := None;
      }
      j := j + 1;
    }
  }

  /** The second loop nest: every column through the vertical pass. */
  method VerticalPass(a: array3<int>, ghost h: Image)
    requires a.Length2 >= 2 && Shaped(h, a.Length0, a.Length1, a.Length2)
    requires forall i, j, k :: 0 <= i < a.Length0 && 0 <= j < a.Length1 && 0 <= k < a.Length2 ==> a[i, j, k] == h[i][j][k]
    modifies a
    ensures forall i, j, k :: 0 <= i < a.Length0 && 0 <= j < a.Length1 && 0 <= k < a.Length2 ==>
      a[i, j, k] == Vertical(h, a.Length1, a.Length2)[i][j][k]
  {
    var j := 0;
    while j < a.Length1
      invariant 0 <= j <= a.Length1
      invariant forall i, jj, k :: 0 <= i < a.Length0 && 0 <= jj < a.Length1 && 0 <= k < a.Length2 ==>
        a[i, jj, k] == if jj < j then Vertical(h, a.Length1, a.Length2)[i][jj][k] else h[i][jj][k]
    {
      VerticalColumn(a, j, h);
      j := j + 1;
    }
  }

  /**
   * One column of the vertical pass: `point` is the row of the run start and
   * `check` its channel-0 value, None and -1 between runs.
   */
  method VerticalColumn(a: array3<int>, j: nat, ghost h: Image)
    requires a.Length2 >= 2 && j < a.Length1 && Shaped(h, a.Length0, a.Length1, a.Length2)
    requires forall i, k :: 0 <= i < a.Length0 && 0 <= k < a.Length2 ==> a[i, j, k] == h[i][j][k]
    modifies a
    ensures forall i, k :: 0 <= i < a.Length0 && 0 <= k < a.Length2 ==>
      a[i, j, k] == Vertical(h, a.Length1, a.Length2)[i][j][k]
    ensures forall i, jj, k :: 0 <= i < a.Length0 && 0 <= jj < a.Length1 && jj != j && 0 <= k < a.Length2 ==>
      a[i, jj, k] == old(a[i, jj, k])
  {
    ghost var col := Column(h, j, a.Length1, a.Length2);
    ghost var cur := col;
    var point: Option<nat> := None;
    var check := -1;
    var i := 0;
    while i < a.Length0
      invariant 0 <= i <= a.Length0 && |cur| == a.Length0
      invariant forall ii :: 0 <= ii < a.Length0 ==> |cur[ii]| == a.Length2
      invariant point.Some? ==> point.value < i
      invariant point.None? ==> check == -1
      invariant Merge(cur, i, point, check) == Stacked(col)
      invariant forall ii, k :: 0 <= ii < a.Length0 && 0 <= k < a.Length2 ==> a[ii, j, k] == cur[ii][k]
      invariant forall ii, jj, k :: 0 <= ii < a.Length0 && 0 <= jj < a.Length1 && jj != j && 0 <= k < a.Length2 ==>
        a[ii, jj, k] == old(a[ii, jj, k])
    {
      if a[i, j, 0] == 0 {
        point, check := None, -1;
      } else if point.None? && check == -1 {
        point, check := Some(i), a[i, j, 0];
        a[i, j, 1] := 1;
        cur := cur[i := cur[i][1 := 1]];
      } else if a[i, j, 0] == check {
        var p := point.value;
        a[p, j, 1] := a[p, j, 1] + 1;
        cur := cur[p := cur[p][1 := cur[p][1] + 1]];
        ClearCell(a, i, j);
        cur := cur[i := Zeros(|cur[i]|)];
      } else {
        point, check := Some(i), a[i, j, 0];
        a[i, j, 1] := 1;
        cur := cur[i := cur[i][1 := 1]];
      }
      i := i + 1;
    }
  }

  /** arr[i, j, :] = 0 */
  method ClearCell(a: array3<int>, i: nat, j: nat)
    requires i < a.Length0 && j < a.Length1
    modifies a
    ensures forall k :: 0 <= k < a.Length2 ==> a[i, j, k] == 0
    ensures forall ii, jj, k :: 0 <= ii < a.Length0 && 0 <= jj < a.Length1 && 0 <= k < a.Length2 && (ii != i || jj != j) ==>
      a[ii, jj, k] == old(a[ii, jj, k])
  {
    var k := 0;
    while k < a.Length2
      invariant 0 <= k <= a.Length2
      invariant forall kk :: 0 <= kk < k ==> a[i, j, kk] == 0
      invariant forall ii, jj, kk :: 0 <= ii < a.Length0 && 0 <= jj < a.Length1 && 0 <= kk < a.Length2 && (ii != i || jj != j || kk >= k) ==>
        a[ii, jj, kk] == old(a[ii, jj, kk])
    {
      a[i, j, k] := 0;
      k := k + 1;
    }
  }

  // ----- downsample -----

  /** Every step-th element from the first, as Python's s[::step] for a positive step. */
  function Stride<T>(s: seq<T>, step: nat): (r: seq<T>)
    requires step > 0
    decreases |s|
  {
    if s == [] then []
    else if |s| <= step then [s[0]]
    else [s[0]] + Stride(s[step..], step)
  }

  lemma MulNext(a: int, b: int)
    ensures (a + 1) * b == a * b + b
  {
  }

  function Reverse<T>(s: seq<T>): (r: seq<T>)
    ensures |r| == |s| && forall k :: 0 <= k < |s| ==> r[k] == s[|s| - 1 - k]
  {
    seq(|s|, k requires 0 <= k < |s| => s[|s| - 1 - k])
  }

  /** Python's s[::step]: a negative step walks back from the last element; a zero step is a ValueError. */
  function Slice<T>(s: seq<T>, step: int): (r: Result<seq<T>>)
    ensures r.Err? <==> step == 0
  {
    if step == 0 then Err(ValueError)
    else if step > 0 then Ok(Stride(s, step))
    else Ok(Stride(Reverse(s), -step))
  }

  /**
   * downsample(image, factor): image[::factor, ::factor, :], every
   * factor-th row and, of those, every factor-th pixel.
   */
  function Downsample<T>(image: seq<seq<T>>, factor: int): (r: Result<seq<seq<T>>>)
    ensures r.Err? <==> factor == 0
  {
    var rows :- Slice(image, factor);
    Ok(seq(|rows|, i requires 0 <= i < |rows| => Slice(rows[i], factor).value))
  }

  /** Element k of s[::step] is s[k * step]. */
  lemma {:induction false} StrideAt<T>(s: seq<T>, step: nat, k: nat)
    requires step > 0 && k < |Stride(s, step)|
    ensures k * step < |s| && Stride(s, step)[k] == s[k * step]
    decreases |s|
  {
    if k > 0 {
      var rest := s[step..];
      assert Stride(s, step) == [s[0]] + Stride(rest, step);
      StrideAt(rest, step, k - 1);
      MulNext(k - 1, step);
      assert rest[(k - 1) * step] == s[k * step];
    }
  }

  /** s[::step] has ⌈|s| / step⌉ elements. */
  lemma {:induction false} StrideLength<T>(s: seq<T>, step: nat)
    requires step > 0
    ensures var n := |Stride(s, step)|; (n - 1) * step < |s| <= n * step
    decreases |s|
  {
    if |s| > step {
      var rest := s[step..];
      StrideLength(rest, step);
      var m := |Stride(rest, step)|;
      assert |Stride(s, step)| == m + 1;
      MulNext(m, step);
      MulNext(m - 1, step);
    }
  }

  /** s[::step] for a nonzero step has ⌈|s| / |step|⌉ elements. */
  lemma SliceLength<T>(s: seq<T>, step: int)
    requires step != 0
    ensures var f := if step > 0 then step else -step;
      var n := |Slice(s, step).value|;
      (n - 1) * f < |s| <= n * f
  {
    StrideLength(if step > 0 then s else Reverse(s), if step > 0 then step else -step);
  }

  /**
   * Element k of s[::step] is s[k * step] for a positive step and counts
   * back from the last element for a negative one.
   */
  lemma SliceAt<T>(s: seq<T>, step: int, k: nat)
    requires step != 0 && k < |Slice(s, step).value|
    ensures var f := if step > 0 then step else -step;
      k * f < |s| && Slice(s, step).value[k] == s[if step > 0 then k * f else |s| - 1 - k * f]
  {
    StrideAt(if step > 0 then s else Reverse(s), if step > 0 then step else -step, k);
  }

  /**
   * downsample keeps ⌈rows / |factor|⌉ rows of the image and
   * ⌈row length / |factor|⌉ pixels of each: pixel (i * factor, j * factor)
   * for a positive factor, counting from the last row and pixel for a
   * negative one.
   */
  lemma DownsamplePicks<T>(image: seq<seq<T>>, factor: int, i: nat, j: nat)
    requires factor != 0 && i < |Downsample(image, factor).value|
    ensures var f := if factor > 0 then factor else -factor;
      var rows := |Downsample(image, factor).value|;
      var n := if factor > 0 then i * f else |image| - 1 - i * f;
      (rows - 1) * f < |image| <= rows * f &&
      0 <= n < |image| &&
      var r := Downsample(image, factor).value[i];
      (|r| - 1) * f < |image[n]| <= |r| * f &&
      (j < |r| ==> (j * f < |image[n]| &&
        r[j] == image[n][if factor > 0 then j * f else |image[n]| - 1 - j * f]))
  {
    var f := if factor > 0 then factor else -factor;
    var n := if factor > 0 then i * f else |image| - 1 - i * f;
    SliceLength(image, factor);
    SliceAt(image, factor, i);
    var r := Slice(image[n], factor).value;
    assert Downsample(image, factor).value[i] == r;
    SliceLength(image[n], factor);
    if j < |r| {
      SliceAt(image[n], factor, j);
    }
  }
}
