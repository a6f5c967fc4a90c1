/**
 * The two passes of greedy_decomposition, on values: the horizontal pass
 * on one row of channel 0 and the vertical pass on one column of cells
 * (circloo_helper/image_converter.py, image_converter/image_converter.py,
 * circloo_helper/video_converter.py). Each pass is written as the scan the
 * loops perform and proved equal to a closed-form reference.
 */
module Runs {
  import opened Wrappers

  // ----- sums -----

  function Sum(s: seq<int>): (total: int) {
    if s == [] then 0 else s[0] + Sum(s[1..])
  }

  lemma {:induction false} SumAppend(a: seq<int>, b: seq<int>)
    ensures Sum(a + b) == Sum(a) + Sum(b)
  {
    if a == [] {
      assert a + b == b;
    } else {
      assert (a + b)[1..] == a[1..] + b;
      SumAppend(a[1..], b);
    }
  }

  lemma {:induction false} SumUpdate(s: seq<int>, k: nat, v: int)
    requires k < |s|
    ensures Sum(s[k := v]) == Sum(s) - s[k] + v
  {
    if k == 0 {
      assert s[k := v][1..] == s[1..];
    } else {
      assert s[k := v][1..] == s[1..][k - 1 := v];
      SumUpdate(s[1..], k - 1, v);
    }
  }

  // ----- the horizontal pass -----

  /** The number of consecutive 1s from index k on, looking no further than index j. */
  function OnesFrom(row: seq<int>, k: nat, j: nat): (r: nat)
    requires j <= |row|
    decreases j - k
  {
    if k < j && row[k] == 1 then 1 + OnesFrom(row, k + 1, j) else 0
  }

  /** Cell k starts a maximal run of 1s. */
  predicate RunStart(row: seq<int>, k: nat)
    requires k < |row|
  {
    row[k] == 1 && (k == 0 || row[k - 1] != 1)
  }

  /** Cell k once the cells before j are encoded: a run start holds the length of its run so far, the rest of a run 0. */
  function EncodedUpTo(row: seq<int>, k: nat, j: nat): (r: int)
    requires k < j <= |row|
  {
    if row[k] != 1 then row[k] else if RunStart(row, k) then OnesFrom(row, k, j) else 0
  }

  /**
   * The reference for the horizontal pass: the first cell of every maximal
   * run of 1s holds the run's length, the other cells of the run hold 0, and
   * every cell that is not 1 keeps its value.
   */
  function Encoded(row: seq<int>): (r: seq<int>)
    ensures |r| == |row|
  {
    seq(|row|, k requires 0 <= k < |row| => EncodedUpTo(row, k, |row|))
  }

  /**
   * The loop of the horizontal pass from column j on, with `start` the
   * column of the run being counted: a 1 opens a run or is added to the
   * open run's first cell and cleared; anything else closes the run.
   */
  function Scan(row: seq<int>, j: nat, start: Option<nat>): (r: seq<int>)
    requires j <= |row|
    requires start.Some? ==> start.value < j
    ensures |r| == |row|
    decreases |row| - j
  {
    if j == |row| then row
    else if row[j] == 1 then
      if start.None? then Scan(row, j + 1, Some(j))
      else Scan(row[start.value := row[start.value] + 1][j := 0], j + 1, start)
    else Scan(row, j + 1, None)
  }

  /** The horizontal pass over one row of channel 0. */
  function RunLengths(row: seq<int>): (r: seq<int>)
    ensures |r| == |row|
  {
    Scan(row, 0, None)
  }

  lemma {:induction false} OnesExtend(row: seq<int>, k: nat, j: nat)
    requires k <= j < |row|
    ensures OnesFrom(row, k, j + 1) ==
      OnesFrom(row, k, j) + (if forall m :: k <= m <= j ==> row[m] == 1 then 1 else 0)
    decreases j - k
  {
    if k < j && row[k] == 1 {
      OnesExtend(row, k + 1, j);
    }
  }

  /** Where the scan stands at column j: done up to j, untouched from j, and the open run. */
  predicate Scanned(orig: seq<int>, cur: seq<int>, j: nat, start: Option<nat>) {
    |cur| == |orig| && j <= |orig| &&
    (forall k :: j <= k < |orig| ==> cur[k] == orig[k]) &&
    (forall k :: 0 <= k < j ==> cur[k] == EncodedUpTo(orig, k, j)) &&
    (start.Some? <==> (j > 0 && orig[j - 1] == 1)) &&
    (start.Some? ==> (start.value < j && RunStart(orig, start.value) &&
      forall m :: start.value <= m < j ==> orig[m] == 1))
  }

  /** A cell before j whose run does not reach j is encoded for good. */
  lemma Settled(orig: seq<int>, k: nat, j: nat)
    requires k < j < |orig|
    requires !(forall m :: k <= m <= j ==> orig[m] == 1)
    ensures EncodedUpTo(orig, k, j + 1) == EncodedUpTo(orig, k, j)
  {
    OnesExtend(orig, k, j);
  }

  lemma ScanStep(orig: seq<int>, cur: seq<int>, j: nat, start: Option<nat>)
    requires Scanned(orig, cur, j, start) && j < |orig|
    ensures cur[j] == 1 && start.None? ==> Scanned(orig, cur, j + 1, Some(j))
    ensures cur[j] == 1 && start.Some? ==>
      (Scanned(orig, cur[start.value := cur[start.value] + 1][j := 0], j + 1, start))
    ensures cur[j] != 1 ==> Scanned(orig, cur, j + 1, None)
  {
    if cur[j] != 1 {
      forall k | 0 <= k < j ensures cur[k] == EncodedUpTo(orig, k, j + 1) {
        Settled(orig, k, j);
      }
    } else if start.None? {
      forall k | 0 <= k < j ensures cur[k] == EncodedUpTo(orig, k, j + 1) {
        assert orig[j - 1] != 1;
        Settled(orig, k, j);
      }
      assert OnesFrom(orig, j, j + 1) == 1;
    } else {
      var s := start.value;
      var next := cur[s := cur[s] + 1][j := 0];
      forall k | 0 <= k < j + 1 ensures next[k] == EncodedUpTo(orig, k, j + 1) {
        if k == s {
          OnesExtend(orig, k, j);
        } else if k < s {
          assert s > 0 && orig[s - 1] != 1;
          Settled(orig, k, j);
        } else if k < j {
          assert orig[k - 1] == 1;
        }
      }
    }
  }

  lemma {:induction false} ScanEncodes(orig: seq<int>, cur: seq<int>, j: nat, start: Option<nat>)
    requires Scanned(orig, cur, j, start)
    ensures Scan(cur, j, start) == Encoded(orig)
    decreases |orig| - j
  {
    if j == |orig| {
      assert cur == Encoded(orig);
    } else {
      ScanStep(orig, cur, j, start);
      if cur[j] == 1 {
        if start.None? {
          ScanEncodes(orig, cur, j + 1, Some(j));
        } else {
          ScanEncodes(orig, cur[start.value := cur[start.value] + 1][j := 0], j + 1, start);
        }
      } else {
        ScanEncodes(orig, cur, j + 1, None);
      }
    }
  }

  /** The horizontal pass computes the run-length encoding of the row. */
  lemma RunLengthsEncode(row: seq<int>)
    ensures RunLengths(row) == Encoded(row)
  {
    ScanEncodes(row, row, 0, None);
  }

  lemma {:induction false} ScanSum(row: seq<int>, j: nat, start: Option<nat>)
    requires j <= |row| && (start.Some? ==> start.value < j)
    ensures Sum(Scan(row, j, start)) == Sum(row)
    decreases |row| - j
  {
    if j < |row| {
      if row[j] == 1 {
        if start.None? {
          ScanSum(row, j + 1, Some(j));
        } else {
          var s := start.value;
          var bumped := row[s := row[s] + 1];
          SumUpdate(row, s, row[s] + 1);
          SumUpdate(bumped, j, 0);
          ScanSum(bumped[j := 0], j + 1, start);
        }
      } else {
        ScanSum(row, j + 1, None);
      }
    }
  }

  /** The horizontal pass keeps the row's total: what leaves a cell is added to its run's first cell. */
  lemma RunLengthsSum(row: seq<int>)
    ensures Sum(RunLengths(row)) == Sum(row)
  {
    ScanSum(row, 0, None);
  }

  // ----- the vertical pass -----

  type Cell = seq<int>

  function Zeros(n: nat): (r: Cell)
    ensures |r| == n && forall k :: 0 <= k < n ==> r[k] == 0
  {
    seq(n, k => 0)
  }

  /** Every cell has channels 0 and 1. */
  predicate Wide(col: seq<Cell>) {
    forall i :: 0 <= i < |col| ==> |col[i]| >= 2
  }

  /**
   * The loop of the vertical pass from row i on: `start` is the run-start
   * cell and `check` its channel-0 value (None and -1 when there is none).
   * A 0 closes the run; a cell equal to `check` is added to the run start's
   * channel 1 and cleared in every channel; any other cell starts a new run
   * with channel 1 set to 1.
   */
  function Merge(col: seq<Cell>, i: nat, start: Option<nat>, check: int): (r: seq<Cell>)
    requires i <= |col| && Wide(col)
    requires start.Some? ==> start.value < i
    requires start.None? ==> check == -1
    ensures |r| == |col| && Wide(r)
    decreases |col| - i
  {
    if i == |col| then col
    else if col[i][0] == 0 then Merge(col, i + 1, None, -1)
    else if start.None? && check == -1 then Merge(col[i := col[i][1 := 1]], i + 1, Some(i), col[i][0])
    else if col[i][0] == check then
      var p := start.value;
      Merge(col[p := col[p][1 := col[p][1] + 1]][i := Zeros(|col[i]|)], i + 1, start, check)
    else Merge(col[i := col[i][1 := 1]], i + 1, Some(i), col[i][0])
  }

  /** The vertical pass keeps the number of channels of every cell. */
  lemma {:induction false} MergeWidths(col: seq<Cell>, i: nat, start: Option<nat>, check: int)
    requires i <= |col| && Wide(col)
    requires start.Some? ==> start.value < i
    requires start.None? ==> check == -1
    ensures var r := Merge(col, i, start, check);
      forall k :: 0 <= k < |r| ==> |r[k]| == |col[k]|
    decreases |col| - i
  {
    if i < |col| && col[i][0] != 0 {
      if start.None? && check == -1 {
        MergeWidths(col[i := col[i][1 := 1]], i + 1, Some(i), col[i][0]);
      } else if col[i][0] == check {
        var p := start.value;
        MergeWidths(col[p := col[p][1 := col[p][1] + 1]][i := Zeros(|col[i]|)], i + 1, start, check);
      } else {
        MergeWidths(col[i := col[i][1 := 1]], i + 1, Some(i), col[i][0]);
      }
    } else if i < |col| {
      MergeWidths(col, i + 1, None, -1);
    }
  }

  /** The vertical pass over one column. */
  function Stacked(col: seq<Cell>): (r: seq<Cell>)
    requires Wide(col)
    ensures |r| == |col| && Wide(r)
    ensures forall k :: 0 <= k < |r| ==> |r[k]| == |col[k]|
  {
    MergeWidths(col, 0, None, -1);
    Merge(col, 0, None, -1)
  }

  /** How many cells from row m on (before row j) continue a run of channel-0 value v. */
  function Follow(col: seq<Cell>, v: int, m: nat, j: nat): (r: nat)
    requires j <= |col| && Wide(col)
    decreases j - m
  {
    if m < j && col[m][0] == v then 1 + Follow(col, v, m + 1, j) else 0
  }

  /** Cell i continues the run of the cell directly above it. */
  predicate Continues(col: seq<Cell>, i: nat)
    requires i < |col| && Wide(col)
  {
    i > 0 && col[i][0] == col[i - 1][0]
  }

  /** Cell k once the rows before j are merged. */
  function StackedUpTo(col: seq<Cell>, k: nat, j: nat): (r: Cell)
    requires k < j <= |col| && Wide(col)
  {
    if col[k][0] == 0 then col[k]
    else if Continues(col, k) then Zeros(|col[k]|)
    else col[k][1 := 1 + Follow(col, col[k][0], k + 1, j)]
  }

  /**
   * The reference for the vertical pass: a zero cell is left alone; a
   * nonzero cell equal to the one above it is cleared; any other nonzero
   * cell heads a run and its channel 1 counts the cells of that run.
   */
  function Expected(col: seq<Cell>): (r: seq<Cell>)
    requires Wide(col)
    ensures |r| == |col|
  {
    seq(|col|, k requires 0 <= k < |col| => StackedUpTo(col, k, |col|))
  }

  lemma {:induction false} FollowExtend(col: seq<Cell>, v: int, m: nat, j: nat)
    requires m <= j < |col| && Wide(col)
    ensures Follow(col, v, m, j + 1) ==
      Follow(col, v, m, j) + (if forall q :: m <= q <= j ==> col[q][0] == v then 1 else 0)
    decreases j - m
  {
    if m < j && col[m][0] == v {
      FollowExtend(col, v, m + 1, j);
    }
  }

  /** Where the vertical scan stands at row i. */
  predicate Merged(orig: seq<Cell>, cur: seq<Cell>, i: nat, start: Option<nat>, check: int) {
    Wide(orig) && |cur| == |orig| && i <= |orig| &&
    (forall k :: i <= k < |orig| ==> cur[k] == orig[k]) &&
    (forall k :: 0 <= k < i ==> cur[k] == StackedUpTo(orig, k, i)) &&
    (start.None? <==> (i == 0 || orig[i - 1][0] == 0)) &&
    (start.None? ==> check == -1) &&
    (start.Some? ==> (start.value < i && check != 0 && orig[start.value][0] == check &&
      !Continues(orig, start.value) && forall m :: start.value <= m < i ==> orig[m][0] == check))
  }

  lemma Stable(orig: seq<Cell>, k: nat, j: nat)
    requires k < j < |orig| && Wide(orig)
    requires !(forall q :: k + 1 <= q <= j ==> orig[q][0] == orig[k][0])
    ensures StackedUpTo(orig, k, j + 1) == StackedUpTo(orig, k, j)
  {
    FollowExtend(orig, orig[k][0], k + 1, j);
  }

  lemma MergeZero(orig: seq<Cell>, cur: seq<Cell>, i: nat, start: Option<nat>, check: int)
    requires Merged(orig, cur, i, start, check) && i < |orig| && cur[i][0] == 0
    ensures Merged(orig, cur, i + 1, None, -1)
  {
    forall k | 0 <= k < i ensures cur[k] == StackedUpTo(orig, k, i + 1) {
      if orig[k][0] != 0 {
        Stable(orig, k, i);
      }
    }
  }

  lemma MergeNew(orig: seq<Cell>, cur: seq<Cell>, i: nat, start: Option<nat>, check: int)
    requires Merged(orig, cur, i, start, check) && i < |orig| && cur[i][0] != 0
    requires start.None? || cur[i][0] != check
    ensures Merged(orig, cur[i := cur[i][1 := 1]], i + 1, Some(i), cur[i][0])
  {
    var next := cur[i := cur[i][1 := 1]];
    forall k | 0 <= k < i ensures next[k] == StackedUpTo(orig, k, i + 1) {
      if orig[k][0] != 0 && !Continues(orig, k) {
        assert orig[i - 1][0] != orig[i][0];
        Stable(orig, k, i);
      }
    }
    assert next[i] == StackedUpTo(orig, i, i + 1);
  }

  lemma MergeSame(orig: seq<Cell>, cur: seq<Cell>, i: nat, start: Option<nat>, check: int)
    requires Merged(orig, cur, i, start, check) && i < |orig| && cur[i][0] != 0
    requires start.Some? && cur[i][0] == check
    ensures var p := start.value;
      Merged(orig, cur[p := cur[p][1 := cur[p][1] + 1]][i := Zeros(|cur[i]|)], i + 1, start, check)
  {
    var p := start.value;
    var next := cur[p := cur[p][1 := cur[p][1] + 1]][i := Zeros(|cur[i]|)];
    assert orig[i - 1][0] == check;
    forall k | 0 <= k < i ensures next[k] == StackedUpTo(orig, k, i + 1) {
      if k == p {
        FollowExtend(orig, check, k + 1, i);
      } else if k < p {
        if orig[k][0] != 0 && !Continues(orig, k) {
          assert p > 0 && orig[p - 1][0] != orig[p][0];
          Stable(orig, k, i);
        }
      } else {
        assert orig[k - 1][0] == check;
      }
    }
  }

  lemma {:induction false} MergeExpected(orig: seq<Cell>, cur: seq<Cell>, i: nat, start: Option<nat>, check: int)
    requires Merged(orig, cur, i, start, check)
    ensures Wide(cur) && Merge(cur, i, start, check) == Expected(orig)
    decreases |orig| - i, 1
  {
    if i == |orig| {
      assert cur == Expected(orig);
    } else if cur[i][0] == 0 {
      MergeZero(orig, cur, i, start, check);
      MergeExpected(orig, cur, i + 1, None, -1);
    } else if (start.None? && check == -1) || cur[i][0] != check {
      NewExpected(orig, cur, i, start, check);
    } else {
      SameExpected(orig, cur, i, start, check);
    }
  }

  /** MergeExpected when row i opens a run. */
  lemma {:induction false} NewExpected(orig: seq<Cell>, cur: seq<Cell>, i: nat, start: Option<nat>, check: int)
    requires Merged(orig, cur, i, start, check) && i < |orig| && cur[i][0] != 0
    requires (start.None? && check == -1) || cur[i][0] != check
    ensures Wide(cur) && Merge(cur, i, start, check) == Expected(orig)
    decreases |orig| - i, 0
  {
    var next := cur[i := cur[i][1 := 1]];
    assert Merge(cur, i, start, check) == Merge(next, i + 1, Some(i), cur[i][0]);
    MergeNew(orig, cur, i, start, check);
    MergeExpected(orig, next, i + 1, Some(i), cur[i][0]);
  }

  /** MergeExpected when row i continues the open run. */
  lemma {:induction false} SameExpected(orig: seq<Cell>, cur: seq<Cell>, i: nat, start: Option<nat>, check: int)
    requires Merged(orig, cur, i, start, check) && i < |orig| && cur[i][0] != 0
    requires start.Some? && cur[i][0] == check
    ensures Wide(cur) && Merge(cur, i, start, check) == Expected(orig)
    decreases |orig| - i, 0
  {
    var p := start.value;
    var next := cur[p := cur[p][1 := cur[p][1] + 1]][i := Zeros(|cur[i]|)];
    assert Merge(cur, i, start, check) == Merge(next, i + 1, start, check);
    MergeSame(orig, cur, i, start, check);
    MergeExpected(orig, next, i + 1, start, check);
  }

  /** The vertical pass computes the reference. */
  lemma StackedIsExpected(col: seq<Cell>)
    requires Wide(col)
    ensures Stacked(col) == Expected(col)
  {
    MergeExpected(col, col, 0, None, -1);
  }

  /**
   * After the vertical pass a zero cell is untouched, a nonzero cell either
   * keeps its channel-0 value with channel 1 at least 1 and its other
   * channels, or equals the cell above it and is cleared in every channel.
   */
  lemma StackedCells(col: seq<Cell>, i: nat)
    requires Wide(col) && i < |col|
    ensures var r := Stacked(col)[i];
      (col[i][0] == 0 ==> r == col[i]) &&
      (col[i][0] != 0 ==> (
        (i > 0 && col[i - 1][0] == col[i][0] && r == Zeros(|col[i]|)) ||
        (!(i > 0 && col[i - 1][0] == col[i][0]) && |r| == |col[i]| && r[0] == col[i][0] && r[1] >= 1 &&
          forall k :: 2 <= k < |r| ==> r[k] == col[i][k])))
  {
    StackedIsExpected(col);
  }

  // ----- the weighted total of the vertical pass -----

  /** Channel 0 of every cell. */
  function Firsts(col: seq<Cell>): (r: seq<int>)
    requires Wide(col)
    ensures |r| == |col|
  {
    seq(|col|, k requires 0 <= k < |col| => col[k][0])
  }

  /** channel 0 × channel 1 of every cell: the area of the rectangle a cell stands for. */
  function Areas(col: seq<Cell>): (r: seq<int>)
    requires Wide(col)
    ensures |r| == |col|
  {
    seq(|col|, k requires 0 <= k < |col| => col[k][0] * col[k][1])
  }

  lemma AreasSnoc(col: seq<Cell>, i: nat)
    requires Wide(col) && i < |col|
    ensures Sum(Areas(col[..i + 1])) == Sum(Areas(col[..i])) + col[i][0] * col[i][1]
  {
    assert Areas(col[..i + 1]) == Areas(col[..i]) + [col[i][0] * col[i][1]];
    SumAppend(Areas(col[..i]), [col[i][0] * col[i][1]]);
  }

  lemma FirstsCons(col: seq<Cell>, i: nat)
    requires Wide(col) && i < |col|
    ensures Sum(Firsts(col[i..])) == col[i][0] + Sum(Firsts(col[i + 1..]))
  {
    assert Firsts(col[i..])[1..] == Firsts(col[i + 1..]);
  }

  lemma {:induction false} MergeArea(cur: seq<Cell>, i: nat, start: Option<nat>, check: int)
    requires i <= |cur| && Wide(cur)
    requires start.None? ==> check == -1
    requires start.Some? ==> start.value < i && cur[start.value][0] == check
    ensures Sum(Areas(Merge(cur, i, start, check))) == Sum(Areas(cur[..i])) + Sum(Firsts(cur[i..]))
    decreases |cur| - i, 1
  {
    if i == |cur| {
      assert cur[..i] == cur && cur[i..] == [];
    } else if cur[i][0] == 0 {
      FirstsCons(cur, i);
      AreasSnoc(cur, i);
      MergeArea(cur, i + 1, None, -1);
    } else if (start.None? && check == -1) || cur[i][0] != check {
      NewArea(cur, i, start, check);
    } else {
      SameArea(cur, i, start, check);
    }
  }

  /** MergeArea when row i opens a run. */
  lemma {:induction false} NewArea(cur: seq<Cell>, i: nat, start: Option<nat>, check: int)
    requires i < |cur| && Wide(cur) && cur[i][0] != 0
    requires start.None? ==> check == -1
    requires start.Some? ==> start.value < i && cur[start.value][0] == check
    requires (start.None? && check == -1) || cur[i][0] != check
    ensures Sum(Areas(Merge(cur, i, start, check))) == Sum(Areas(cur[..i])) + Sum(Firsts(cur[i..]))
    decreases |cur| - i, 0
  {
    var next := cur[i := cur[i][1 := 1]];
    assert Merge(cur, i, start, check) == Merge(next, i + 1, Some(i), cur[i][0]);
    NewRunArea(cur, i);
    MergeArea(next, i + 1, Some(i), cur[i][0]);
  }

  /** MergeArea when row i continues the open run. */
  lemma {:induction false} SameArea(cur: seq<Cell>, i: nat, start: Option<nat>, check: int)
    requires i < |cur| && Wide(cur) && cur[i][0] != 0
    requires start.Some? && start.value < i && cur[start.value][0] == check && cur[i][0] == check
    ensures Sum(Areas(Merge(cur, i, start, check))) == Sum(Areas(cur[..i])) + Sum(Firsts(cur[i..]))
    decreases |cur| - i, 0
  {
    var p := start.value;
    var next := cur[p := cur[p][1 := cur[p][1] + 1]][i := Zeros(|cur[i]|)];
    assert Merge(cur, i, start, check) == Merge(next, i + 1, start, check);
    SameRunArea(cur, i, p);
    MergeArea(next, i + 1, start, check);
  }

  /** Opening a run at row i moves channel 0 of row i from the pending total to the areas. */
  lemma NewRunArea(cur: seq<Cell>, i: nat)
    requires Wide(cur) && i < |cur|
    ensures var next := cur[i := cur[i][1 := 1]];
      Sum(Areas(next[..i + 1])) + Sum(Firsts(next[i + 1..])) == Sum(Areas(cur[..i])) + Sum(Firsts(cur[i..]))
  {
    var next := cur[i := cur[i][1 := 1]];
    FirstsCons(cur, i);
    assert next[..i] == cur[..i] && next[i + 1..] == cur[i + 1..];
    AreasSnoc(next, i);
  }

  /** Adding row i to the run at row p moves channel 0 of row i to p's area. */
  lemma SameRunArea(cur: seq<Cell>, i: nat, p: nat)
    requires Wide(cur) && p < i < |cur| && cur[p][0] == cur[i][0]
    ensures var next := cur[p := cur[p][1 := cur[p][1] + 1]][i := Zeros(|cur[i]|)];
      Sum(Areas(next[..i + 1])) + Sum(Firsts(next[i + 1..])) == Sum(Areas(cur[..i])) + Sum(Firsts(cur[i..]))
  {
    var bumped := cur[p := cur[p][1 := cur[p][1] + 1]];
    var next := bumped[i := Zeros(|cur[i]|)];
    FirstsCons(cur, i);
    assert Areas(bumped[..i]) == Areas(cur[..i])[p := cur[p][0] * (cur[p][1] + 1)];
    SumUpdate(Areas(cur[..i]), p, cur[p][0] * (cur[p][1] + 1));
    assert next[..i] == bumped[..i] && next[i + 1..] == cur[i + 1..];
    AreasSnoc(next, i);
  }

  /**
   * The vertical pass keeps the column's channel-0 total as the sum of the
   * areas channel 0 × channel 1: each cleared cell is counted by its run start.
   */
  lemma StackedArea(col: seq<Cell>)
    requires Wide(col)
    ensures Sum(Areas(Stacked(col))) == Sum(Firsts(col))
  {
    MergeArea(col, 0, None, -1);
    assert col[..0] == [] && col[0..] == col;
  }
}
