/**
 * greedy_time of circloo_helper/video_converter.py: the frames of a video,
 * each already through greedy_decomposition, merged over time cell by cell.
 * Channel 0 and 1 of a cell are its (w, h), channel 2 the number of frames
 * it stays on screen.
 */
module Frames {
  import opened Wrappers
  import opened Runs

  /** One cell of one frame: channels 0, 1 and 2. */
  datatype Px = Px(w: int, h: int, t: int)

  const Blank := Px(0, 0, 0)

  /** _np.any(cur != 0) on channels 0 and 1. */
  predicate Shown(p: Px) { p.w != 0 || p.h != 0 }

  /** _np.all(cur != 0) on channels 0 and 1. */
  predicate Full(p: Px) { p.w != 0 && p.h != 0 }

  /** _np.all(cur == nxt) on channels 0 and 1. */
  predicate Same(p: Px, q: Px) { p.w == q.w && p.h == q.h }

  /**
   * The loop over frames f for one cell, as written: `merging` and `cp`
   * are merging and check_point. Frame f is marked shown (channel 2 set to
   * 1) unless merging; a frame equal to the next one starts a merge that
   * clears the next frame and counts it in channel 2; the continuing branch
   * clears frames f and f + 1 and counts at check_point; a difference ends
   * the merge.
   */
  function TimeScan(vs: seq<Px>, f: nat, merging: bool, cp: nat): (r: seq<Px>)
    requires f <= |vs| && (merging ==> cp < f)
    ensures |r| == |vs|
    decreases |vs| - f
  {
    if f == |vs| then vs
    else
      var vs1 := if !merging && Shown(vs[f]) then vs[f := vs[f].(t := 1)] else vs;
      if f == |vs| - 1 then vs1
      else if !merging && Same(vs1[f], vs1[f + 1]) && Full(vs1[f]) then
        TimeScan(vs1[f + 1 := Blank][f := vs1[f].(t := vs1[f].t + 1)], f + 1, true, f)
      else if merging && Same(vs1[f], vs1[f + 1]) && Full(vs1[f]) then
        var cleared := vs1[f + 1 := Blank][f := Blank];
        TimeScan(cleared[cp := cleared[cp].(t := cleared[cp].t + 1)], f + 1, true, cp)
      else if merging && !Same(vs1[f], vs1[f + 1]) then TimeScan(vs1, f + 1, false, cp)
      else TimeScan(vs1, f + 1, merging, cp)
  }

  /** greedy_time on the frames of one cell. */
  function GreedyTimeCell(vs: seq<Px>): (r: seq<Px>)
    ensures |r| == |vs|
  {
    TimeScan(vs, 0, false, 0)
  }

  /** How often TimeScan takes its continuing branch. */
  function Continuing(vs: seq<Px>, f: nat, merging: bool, cp: nat): (r: nat)
    requires f <= |vs| && (merging ==> cp < f)
    decreases |vs| - f
  {
    if f == |vs| then 0
    else
      var vs1 := if !merging && Shown(vs[f]) then vs[f := vs[f].(t := 1)] else vs;
      if f == |vs| - 1 then 0
      else if !merging && Same(vs1[f], vs1[f + 1]) && Full(vs1[f]) then
        Continuing(vs1[f + 1 := Blank][f := vs1[f].(t := vs1[f].t + 1)], f + 1, true, f)
      else if merging && Same(vs1[f], vs1[f + 1]) && Full(vs1[f]) then
        var cleared := vs1[f + 1 := Blank][f := Blank];
        1 + Continuing(cleared[cp := cleared[cp].(t := cleared[cp].t + 1)], f + 1, true, cp)
      else if merging && !Same(vs1[f], vs1[f + 1]) then Continuing(vs1, f + 1, false, cp)
      else Continuing(vs1, f + 1, merging, cp)
  }

  /** While merging, the current frame has already been cleared by the previous step. */
  predicate Idle(vs: seq<Px>, f: nat, merging: bool) {
    merging ==> f < |vs| && !Shown(vs[f])
  }

  lemma {:induction false} NoContinuing(vs: seq<Px>, f: nat, merging: bool, cp: nat)
    requires f <= |vs| && (merging ==> cp < f) && Idle(vs, f, merging)
    ensures Continuing(vs, f, merging, cp) == 0
    decreases |vs| - f
  {
    if f < |vs| - 1 {
      var vs1 := if !merging && Shown(vs[f]) then vs[f := vs[f].(t := 1)] else vs;
      if !merging && Same(vs1[f], vs1[f + 1]) && Full(vs1[f]) {
        NoContinuing(vs1[f + 1 := Blank][f := vs1[f].(t := vs1[f].t + 1)], f + 1, true, f);
      } else if merging && !Same(vs1[f], vs1[f + 1]) {
        NoContinuing(vs1, f + 1, false, cp);
      } else {
        NoContinuing(vs1, f + 1, merging, cp);
      }
    }
  }

  /**
   * The continuing branch of greedy_time never runs: a merge clears frame
   * f + 1 before frame f + 1 is compared with frame f + 2, so the test that
   * frame f + 1 is nonzero fails.
   */
  lemma ContinuingIsDead(vs: seq<Px>)
    ensures Continuing(vs, 0, false, 0) == 0
  {
    NoContinuing(vs, 0, false, 0);
  }

  /**
   * Three equal frames are not merged into one: the first shows for two
   * frames, the second is cleared and the third shows again on its own.
   */
  lemma SplitsRun(a: Px)
    requires Full(a) && a.t == 0
    ensures GreedyTimeCell([a, a, a]) == [a.(t := 2), Blank, a.(t := 1)]
  {
    var s0 := [a, a, a][0 := a.(t := 1)];
    var s1 := [a.(t := 2), Blank, a];
    assert s0[1 := Blank][0 := s0[0].(t := s0[0].t + 1)] == s1;
    assert TimeScan([a, a, a], 0, false, 0) == TimeScan(s1, 1, true, 0);
    assert TimeScan(s1, 1, true, 0) == TimeScan(s1, 2, false, 0);
  }

  // ----- what greedy_time does to channels 0 and 1 -----

  /**
   * Frames before f are untouched in `out`, and every other frame keeps its
   * (w, h) or is cleared right after a merge with the frame before it,
   * which then shows for two frames.
   */
  predicate Kept(vs: seq<Px>, out: seq<Px>, f: nat, merging: bool)
    requires |out| == |vs| && f <= |vs| && (merging ==> f < |vs|)
  {
    (forall g :: 0 <= g < f ==> out[g] == vs[g]) &&
    (merging ==> out[f] == vs[f]) &&
    forall g :: f <= g < |vs| ==>
      Same(out[g], vs[g]) ||
      (f < g && Full(vs[g - 1]) && Same(vs[g - 1], vs[g]) && out[g] == Blank && out[g - 1] == vs[g - 1].(t := 2))
  }

  lemma {:induction false} KeptOrCleared(vs: seq<Px>, f: nat, merging: bool, cp: nat)
    requires f <= |vs| && (merging ==> cp < f) && Idle(vs, f, merging)
    ensures Kept(vs, TimeScan(vs, f, merging, cp), f, merging)
    decreases |vs| - f, 1
  {
    if f == |vs| - 1 {
      var vs1 := if !merging && Shown(vs[f]) then vs[f := vs[f].(t := 1)] else vs;
      assert TimeScan(vs, f, merging, cp) == vs1;
      assert Same(vs1[f], vs[f]);
    } else if f < |vs| - 1 {
      if !merging && Shown(vs[f]) && Same(vs[f], vs[f + 1]) && Full(vs[f]) {
        KeptMerge(vs, f, cp);
      } else {
        KeptPass(vs, f, merging, cp);
      }
    }
  }

  /** KeptOrCleared at a step that merges frame f + 1 into frame f. */
  lemma {:induction false} KeptMerge(vs: seq<Px>, f: nat, cp: nat)
    requires f + 1 < |vs| && Full(vs[f]) && Same(vs[f], vs[f + 1])
    ensures Kept(vs, TimeScan(vs, f, false, cp), f, false)
    decreases |vs| - f, 0
  {
    var vs1 := vs[f := vs[f].(t := 1)];
    var next := vs1[f + 1 := Blank][f := vs1[f].(t := vs1[f].t + 1)];
    assert TimeScan(vs, f, false, cp) == TimeScan(next, f + 1, true, f);
    KeptOrCleared(next, f + 1, true, f);
    var out := TimeScan(next, f + 1, true, f);
    forall g | f + 1 < g < |vs|
      ensures Same(out[g], vs[g]) ||
        (Full(vs[g - 1]) && Same(vs[g - 1], vs[g]) && out[g] == Blank && out[g - 1] == vs[g - 1].(t := 2))
    {
      assert next[g] == vs[g];
      if !Same(out[g], next[g]) {
        assert next[g - 1] == vs[g - 1];
      }
    }
    assert out[f + 1] == Blank && out[f] == vs[f].(t := 2);
    assert Same(out[f], vs[f]);
    assert f < f + 1 && Full(vs[f]) && Same(vs[f], vs[f + 1]) && out[f + 1] == Blank && out[f] == vs[f].(t := 2);
    forall g | 0 <= g < f ensures out[g] == vs[g] {
      assert out[g] == next[g];
    }
  }

  /** KeptOrCleared at a step that merges nothing. */
  lemma {:induction false} KeptPass(vs: seq<Px>, f: nat, merging: bool, cp: nat)
    requires f + 1 < |vs| && (merging ==> cp < f) && Idle(vs, f, merging)
    requires !(!merging && Same(vs[f], vs[f + 1]) && Full(vs[f]))
    ensures Kept(vs, TimeScan(vs, f, merging, cp), f, merging)
    decreases |vs| - f, 0
  {
    var vs1 := if !merging && Shown(vs[f]) then vs[f := vs[f].(t := 1)] else vs;
    var merging' := if merging && !Same(vs1[f], vs1[f + 1]) then false else merging;
    assert TimeScan(vs, f, merging, cp) == TimeScan(vs1, f + 1, merging', cp);
    KeptOrCleared(vs1, f + 1, merging', cp);
    var out := TimeScan(vs1, f + 1, merging', cp);
    forall g | f + 1 < g < |vs|
      ensures Same(out[g], vs[g]) ||
        (Full(vs[g - 1]) && Same(vs[g - 1], vs[g]) && out[g] == Blank && out[g - 1] == vs[g - 1].(t := 2))
    {
      assert vs1[g] == vs[g] && vs1[g - 1] == vs[g - 1];
    }
    forall g | 0 <= g < f ensures out[g] == vs[g] {
      assert out[g] == vs1[g];
    }
    assert out[f] == vs1[f] && Same(vs1[f], vs[f]);
    assert Same(out[f + 1], vs1[f + 1]) && vs1[f + 1] == vs[f + 1];
  }

  /**
   * greedy_time only keeps or clears channels 0 and 1 of a cell. A frame's
   * cell is cleared only when its (w, h) equals the nonzero (w, h) of the
   * frame before, whose channel 2 then counts two frames.
   */
  lemma ChannelsKeptOrCleared(vs: seq<Px>)
    ensures var out := GreedyTimeCell(vs);
      forall g :: 0 <= g < |vs| ==>
        Same(out[g], vs[g]) ||
        (g > 0 && Full(vs[g - 1]) && Same(vs[g - 1], vs[g]) && out[g] == Blank && out[g - 1] == vs[g - 1].(t := 2))
  {
    KeptOrCleared(vs, 0, false, 0);
    var out := TimeScan(vs, 0, false, 0);
    assert Kept(vs, out, 0, false);
    assert GreedyTimeCell(vs) == out;
    forall g | 0 <= g < |vs|
      ensures Same(out[g], vs[g]) ||
        (g > 0 && Full(vs[g - 1]) && Same(vs[g - 1], vs[g]) && out[g] == Blank && out[g - 1] == vs[g - 1].(t := 2))
    {
      assert 0 <= g < |vs|;
      assert Same(out[g], vs[g]) ||
        (0 < g && Full(vs[g - 1]) && Same(vs[g - 1], vs[g]) && out[g] == Blank && out[g - 1] == vs[g - 1].(t := 2));
    }
  }

  // ----- channel 2 counts the frames a cell is shown -----

  function Times(vs: seq<Px>): (r: seq<int>)
    ensures |r| == |vs|
  {
    seq(|vs|, k requires 0 <= k < |vs| => vs[k].t)
  }

  function Marks(vs: seq<Px>): (r: seq<int>)
    ensures |r| == |vs|
  {
    seq(|vs|, k requires 0 <= k < |vs| => if Shown(vs[k]) then 1 else 0)
  }

  lemma TimesSnoc(vs: seq<Px>, f: nat)
    requires f < |vs|
    ensures Sum(Times(vs[..f + 1])) == Sum(Times(vs[..f])) + vs[f].t
  {
    assert Times(vs[..f + 1]) == Times(vs[..f]) + [vs[f].t];
    SumAppend(Times(vs[..f]), [vs[f].t]);
  }

  lemma MarksCons(vs: seq<Px>, f: nat)
    requires f < |vs|
    ensures Sum(Marks(vs[f..])) == (if Shown(vs[f]) then 1 else 0) + Sum(Marks(vs[f + 1..]))
  {
    assert Marks(vs[f..])[1..] == Marks(vs[f + 1..]);
  }

  /** From step f on, channel 2 before f plus the shown frames from f on is the final channel-2 total. */
  lemma {:induction false} ScanTotal(vs: seq<Px>, f: nat, merging: bool, cp: nat)
    requires f <= |vs| && (merging ==> cp < f) && Idle(vs, f, merging)
    requires forall g :: f <= g < |vs| ==> vs[g].t == 0
    ensures Sum(Times(TimeScan(vs, f, merging, cp))) == Sum(Times(vs[..f])) + Sum(Marks(vs[f..]))
    decreases |vs| - f, 1
  {
    if f == |vs| {
      assert vs[..f] == vs && vs[f..] == [];
    } else {
      var vs1 := if !merging && Shown(vs[f]) then vs[f := vs[f].(t := 1)] else vs;
      MarksCons(vs, f);
      TimesSnoc(vs1, f);
      assert vs1[..f] == vs[..f];
      if f == |vs| - 1 {
        assert vs1[..f + 1] == vs1 && vs[f + 1..] == [];
      } else if !merging && Same(vs1[f], vs1[f + 1]) && Full(vs1[f]) {
        MergeTotal(vs, f, cp);
      } else if merging && !Same(vs1[f], vs1[f + 1]) {
        ScanTotal(vs1, f + 1, false, cp);
        assert vs1[f + 1..] == vs[f + 1..];
      } else {
        ScanTotal(vs1, f + 1, merging, cp);
        assert vs1[f + 1..] == vs[f + 1..];
      }
    }
  }

  /** ScanTotal at a step that merges frame f + 1 into frame f. */
  lemma {:induction false} MergeTotal(vs: seq<Px>, f: nat, cp: nat)
    requires f + 1 < |vs| && Full(vs[f]) && Same(vs[f], vs[f + 1])
    requires forall g :: f <= g < |vs| ==> vs[g].t == 0
    ensures Sum(Times(TimeScan(vs, f, false, cp))) == Sum(Times(vs[..f])) + Sum(Marks(vs[f..]))
    decreases |vs| - f, 0
  {
    var vs1 := vs[f := vs[f].(t := 1)];
    var next := vs[f + 1 := Blank][f := vs[f].(t := 2)];
    assert vs1[f + 1 := Blank][f := vs1[f].(t := vs1[f].t + 1)] == next;
    assert TimeScan(vs, f, false, cp) == TimeScan(next, f + 1, true, f);
    ScanTotal(next, f + 1, true, f);
    TimesSnoc(next, f);
    assert next[..f] == vs[..f];
    MarksCons(vs, f);
    MarksCons(vs, f + 1);
    MarksCons(next, f + 1);
    assert next[f + 2..] == vs[f + 2..];
  }

  /**
   * When channel 2 starts at 0, greedy_time leaves in channel 2 of a cell,
   * summed over the frames, the number of frames whose (w, h) was nonzero.
   */
  lemma TotalIsShownFrames(vs: seq<Px>)
    requires forall g :: 0 <= g < |vs| ==> vs[g].t == 0
    ensures Sum(Times(GreedyTimeCell(vs))) == Sum(Marks(vs))
  {
    ScanTotal(vs, 0, false, 0);
    assert vs[..0] == [] && vs[0..] == vs;
  }

  // ----- greedy_time as evidently intended -----

  /**
   * The loop over frames for one cell with the continuing branch as
   * intended: while merging, the next frame is compared with the frame at
   * check_point, which still holds the run's (w, h); an equal next frame is
   * cleared and counted there.
   */
  function TimeFix(vs: seq<Px>, f: nat, merging: bool, cp: nat): (r: seq<Px>)
    requires f <= |vs| && (merging ==> cp < f)
    ensures |r| == |vs|
    decreases |vs| - f
  {
    if f == |vs| then vs
    else
      var vs1 := if !merging && Shown(vs[f]) then vs[f := vs[f].(t := 1)] else vs;
      if f == |vs| - 1 then vs1
      else if !merging && Same(vs1[f], vs1[f + 1]) && Full(vs1[f]) then
        TimeFix(vs1[f + 1 := Blank][f := vs1[f].(t := vs1[f].t + 1)], f + 1, true, f)
      else if merging && Same(vs1[cp], vs1[f + 1]) then
        TimeFix(vs1[f + 1 := Blank][cp := vs1[cp].(t := vs1[cp].t + 1)], f + 1, true, cp)
      else TimeFix(vs1, f + 1, false, cp)
  }

  function FixedTimeCell(vs: seq<Px>): (r: seq<Px>)
    ensures |r| == |vs|
  {
    TimeFix(vs, 0, false, 0)
  }

  /** How many frames from m on (before j) have the (w, h) of v. */
  function RunOf(vs: seq<Px>, v: Px, m: nat, j: nat): (r: nat)
    requires j <= |vs|
    decreases j - m
  {
    if m < j && Same(vs[m], v) then 1 + RunOf(vs, v, m + 1, j) else 0
  }

  /** Frame k repeats the nonzero (w, h) of frame k - 1. */
  predicate Absorbed(vs: seq<Px>, k: nat)
    requires k < |vs|
  {
    k > 0 && Full(vs[k]) && Same(vs[k - 1], vs[k])
  }

  /** Frame k once the frames before j have been compared. */
  function CollapsedUpTo(vs: seq<Px>, k: nat, j: nat): (r: Px)
    requires k < j <= |vs|
  {
    if Absorbed(vs, k) then Blank
    else if Full(vs[k]) then vs[k].(t := 1 + RunOf(vs, vs[k], k + 1, j))
    else if Shown(vs[k]) then vs[k].(t := 1)
    else vs[k]
  }

  /**
   * The reference for greedy_time: a run of equal frames with nonzero w and
   * h shows from its first frame for as many frames as the run is long and
   * is cleared in the others; any other frame with a nonzero (w, h) shows
   * for one frame, and an empty frame is left alone.
   */
  function Collapsed(vs: seq<Px>): (r: seq<Px>)
    ensures |r| == |vs|
  {
    seq(|vs|, k requires 0 <= k < |vs| => CollapsedUpTo(vs, k, |vs|))
  }

  lemma {:induction false} RunExtend(vs: seq<Px>, v: Px, m: nat, j: nat)
    requires m <= j < |vs|
    ensures RunOf(vs, v, m, j + 1) ==
      RunOf(vs, v, m, j) + (if forall q :: m <= q <= j ==> Same(vs[q], v) then 1 else 0)
    decreases j - m
  {
    if m < j && Same(vs[m], v) {
      RunExtend(vs, v, m + 1, j);
    }
  }

  /** A frame whose run stops before frame f + 1 does not change when frame f + 1 is compared. */
  lemma Settled(vs: seq<Px>, g: nat, f: nat)
    requires g <= f && f + 1 < |vs|
    requires !(forall q :: g + 1 <= q <= f + 1 ==> Same(vs[q], vs[g]))
    ensures CollapsedUpTo(vs, g, f + 2) == CollapsedUpTo(vs, g, f + 1)
  {
    RunExtend(vs, vs[g], g + 1, f + 1);
  }

  /** Where the intended scan stands at frame f. */
  predicate Fixing(orig: seq<Px>, cur: seq<Px>, f: nat, merging: bool, cp: nat) {
    |cur| == |orig| && f < |orig| &&
    (forall g :: f < g < |orig| ==> cur[g] == orig[g]) &&
    cur[f] == (if merging then Blank else orig[f]) &&
    (forall g :: 0 <= g < f ==> cur[g] == CollapsedUpTo(orig, g, f + 1)) &&
    (merging <==> Absorbed(orig, f)) &&
    (merging ==> (cp < f && !Absorbed(orig, cp) && Full(orig[cp]) &&
      forall q :: cp <= q <= f ==> Same(orig[q], orig[cp])))
  }

  lemma {:induction false} FixExpected(orig: seq<Px>, cur: seq<Px>, f: nat, merging: bool, cp: nat)
    requires Fixing(orig, cur, f, merging, cp)
    ensures TimeFix(cur, f, merging, cp) == Collapsed(orig)
    decreases |orig| - f, 1
  {
    if f == |orig| - 1 {
      var vs1 := if !merging && Shown(cur[f]) then cur[f := cur[f].(t := 1)] else cur;
      assert TimeFix(cur, f, merging, cp) == vs1;
      assert !merging && Full(orig[f]) ==> RunOf(orig, orig[f], f + 1, |orig|) == 0;
      forall g | 0 <= g < |orig| ensures vs1[g] == Collapsed(orig)[g] {
      }
    } else if !merging && Same(cur[f], cur[f + 1]) && Full(cur[f]) {
      FixMerge(orig, cur, f, cp);
    } else if merging && Same(cur[cp], cur[f + 1]) {
      FixJoin(orig, cur, f, cp);
    } else {
      FixPass(orig, cur, f, merging, cp);
    }
  }

  /** FixExpected at a step that starts a merge at frame f. */
  lemma {:induction false} FixMerge(orig: seq<Px>, cur: seq<Px>, f: nat, cp: nat)
    requires Fixing(orig, cur, f, false, cp) && f + 1 < |orig|
    requires Same(cur[f], cur[f + 1]) && Full(cur[f])
    ensures TimeFix(cur, f, false, cp) == Collapsed(orig)
    decreases |orig| - f, 0
  {
    var vs1 := cur[f := cur[f].(t := 1)];
    var next := vs1[f + 1 := Blank][f := vs1[f].(t := vs1[f].t + 1)];
    assert TimeFix(cur, f, false, cp) == TimeFix(next, f + 1, true, f);
    assert RunOf(orig, orig[f], f + 2, f + 2) == 0;
    assert next[f] == CollapsedUpTo(orig, f, f + 2);
    forall g | 0 <= g < f ensures next[g] == CollapsedUpTo(orig, g, f + 2) {
      if Full(orig[g]) && !Absorbed(orig, g) {
        Settled(orig, g, f);
      }
    }
    assert Fixing(orig, next, f + 1, true, f);
    FixExpected(orig, next, f + 1, true, f);
  }

  /** FixExpected at a step that adds frame f + 1 to the run at cp. */
  lemma {:induction false} FixJoin(orig: seq<Px>, cur: seq<Px>, f: nat, cp: nat)
    requires Fixing(orig, cur, f, true, cp) && f + 1 < |orig|
    requires Same(cur[cp], cur[f + 1])
    ensures TimeFix(cur, f, true, cp) == Collapsed(orig)
    decreases |orig| - f, 0
  {
    var next := cur[f + 1 := Blank][cp := cur[cp].(t := cur[cp].t + 1)];
    assert TimeFix(cur, f, true, cp) == TimeFix(next, f + 1, true, cp);
    RunExtend(orig, orig[cp], cp + 1, f + 1);
    assert next[cp] == CollapsedUpTo(orig, cp, f + 2);
    forall g | 0 <= g < f + 1 ensures next[g] == CollapsedUpTo(orig, g, f + 2) {
      if g < cp && Full(orig[g]) && !Absorbed(orig, g) {
        Settled(orig, g, f);
      }
    }
    assert Fixing(orig, next, f + 1, true, cp);
    FixExpected(orig, next, f + 1, true, cp);
  }

  /** FixExpected at a step that merges nothing. */
  lemma {:induction false} FixPass(orig: seq<Px>, cur: seq<Px>, f: nat, merging: bool, cp: nat)
    requires Fixing(orig, cur, f, merging, cp) && f + 1 < |orig|
    requires !(!merging && Same(cur[f], cur[f + 1]) && Full(cur[f]))
    requires !(merging && Same(cur[cp], cur[f + 1]))
    ensures TimeFix(cur, f, merging, cp) == Collapsed(orig)
    decreases |orig| - f, 0
  {
    var vs1 := if !merging && Shown(cur[f]) then cur[f := cur[f].(t := 1)] else cur;
    assert TimeFix(cur, f, merging, cp) == TimeFix(vs1, f + 1, false, cp);
    assert !Absorbed(orig, f + 1);
    assert !merging && Full(orig[f]) ==> RunOf(orig, orig[f], f + 1, f + 2) == 0;
    assert vs1[f] == CollapsedUpTo(orig, f, f + 2);
    forall g | 0 <= g < f ensures vs1[g] == CollapsedUpTo(orig, g, f + 2) {
      if Full(orig[g]) && !Absorbed(orig, g) {
        Settled(orig, g, f);
      }
    }
    assert Fixing(orig, vs1, f + 1, false, cp);
    FixExpected(orig, vs1, f + 1, false, cp);
  }

  /** The intended greedy_time computes the reference. */
  lemma FixedCollapses(vs: seq<Px>)
    ensures FixedTimeCell(vs) == Collapsed(vs)
  {
    if vs != [] {
      FixExpected(vs, vs, 0, false, 0);
    }
  }

  /** As intended, three equal frames show once, from the first, for three frames. */
  lemma FixedRun(a: Px)
    requires Full(a) && a.t == 0
    ensures FixedTimeCell([a, a, a]) == [a.(t := 3), Blank, Blank]
  {
    FixedCollapses([a, a, a]);
    assert RunOf([a, a, a], a, 1, 3) == 2;
  }

  // ----- greedy_time on the frame arrays -----

  /** Frames of one shape H × W × 3, no array listed twice. */
  predicate Video(frames: seq<array3<int>>, h: nat, w: nat) {
    (forall f :: 0 <= f < |frames| ==> frames[f].Length0 == h && frames[f].Length1 == w && frames[f].Length2 == 3) &&
    forall f, g :: 0 <= f < g < |frames| ==> frames[f] != frames[g]
  }

  /** Cell (i, j) of every frame. */
  function Timeline(frames: seq<array3<int>>, i: nat, j: nat): (r: seq<Px>)
    requires forall f :: 0 <= f < |frames| ==> i < frames[f].Length0 && j < frames[f].Length1 && frames[f].Length2 == 3
    reads frames
    ensures |r| == |frames|
    ensures forall f :: 0 <= f < |frames| ==> r[f] == Px(frames[f][i, j, 0], frames[f][i, j, 1], frames[f][i, j, 2])
  {
    seq(|frames|, f reads frames requires 0 <= f < |frames| =>
      Px(frames[f][i, j, 0], frames[f][i, j, 1], frames[f][i, j, 2]))
  }

  /**
   * greedy_time(frames): every cell of every frame merged over time in
   * place; an empty list raises IndexError at frames[0].
   */
  method GreedyTime(frames: seq<array3<int>>) returns (r: Result<seq<array3<int>>>)
    requires |frames| > 0 ==> Video(frames, frames[0].Length0, frames[0].Length1)
    modifies frames
    ensures |frames| == 0 ==> r == Err(IndexError)
    ensures |frames| > 0 ==> (r == Ok(frames) &&
      forall i, j :: 0 <= i < frames[0].Length0 && 0 <= j < frames[0].Length1 ==>
        Timeline(frames, i, j) == GreedyTimeCell(old(Timeline(frames, i, j))))
  {
    if |frames| == 0 {
      return Err(IndexError);
    }
    var h, w := frames[0].Length0, frames[0].Length1;
    var i := 0;
    while i < h
      invariant 0 <= i <= h
      invariant forall ii, jj :: 0 <= ii < h && 0 <= jj < w ==>
        Timeline(frames, ii, jj) == if ii < i then GreedyTimeCell(old(Timeline(frames, ii, jj))) else old(Timeline(frames, ii, jj))
    {
      TimeRow(frames, i, h, w);
      i := i + 1;
    }
    r := Ok(frames);
  }

  /** The cells of row i. */
  method TimeRow(frames: seq<array3<int>>, i: nat, h: nat, w: nat)
    requires Video(frames, h, w) && i < h
    modifies frames
    ensures forall jj :: 0 <= jj < w ==> Timeline(frames, i, jj) == GreedyTimeCell(old(Timeline(frames, i, jj)))
    ensures forall ii, jj :: 0 <= ii < h && ii != i && 0 <= jj < w ==> Timeline(frames, ii, jj) == old(Timeline(frames, ii, jj))
  {
    var j := 0;
    while j < w
      invariant 0 <= j <= w
      invariant forall jj :: 0 <= jj < w ==>
        Timeline(frames, i, jj) == if jj < j then GreedyTimeCell(old(Timeline(frames, i, jj))) else old(Timeline(frames, i, jj))
      invariant forall ii, jj :: 0 <= ii < h && ii != i && 0 <= jj < w ==> Timeline(frames, ii, jj) == old(Timeline(frames, ii, jj))
    {
      TimeCell(frames, i, j, h, w);
      j := j + 1;
    }
  }

  /** The loop over frames for cell (i, j), with merging and check_point. */
  method TimeCell(frames: seq<array3<int>>, i: nat, j: nat, h: nat, w: nat)
    requires Video(frames, h, w) && i < h && j < w
    modifies frames
    ensures Timeline(frames, i, j) == GreedyTimeCell(old(Timeline(frames, i, j)))
    ensures forall ii, jj :: 0 <= ii < h && 0 <= jj < w && (ii != i || jj != j) ==>
      Timeline(frames, ii, jj) == old(Timeline(frames, ii, jj))
  {
    ghost var orig := Timeline(frames, i, j);
    ghost var cur := orig;
    ghost var cpn: nat := 0;
    var checkPoint := -1;
    var merging := false;
    var f := 0;
    while f < |frames|
      invariant 0 <= f <= |frames| && |cur| == |frames|
      invariant merging ==> cpn < f && checkPoint == cpn
      invariant TimeScan(cur, f, merging, cpn) == GreedyTimeCell(orig)
      invariant forall g :: 0 <= g < |frames| ==> cur[g] == PxAt(frames[g], i, j)
      invariant forall g, ii, jj, k :: 0 <= g < |frames| && 0 <= ii < h && 0 <= jj < w && 0 <= k < 3 && (ii != i || jj != j) ==>
        frames[g][ii, jj, k] == old(frames[g][ii, jj, k])
    {
      merging, checkPoint, cur, cpn := TimeStep(frames, i, j, h, w, f, merging, checkPoint, cur, cpn);
      f := f + 1;
    }
    forall ii, jj | 0 <= ii < h && 0 <= jj < w && (ii != i || jj != j)
      ensures Timeline(frames, ii, jj) == old(Timeline(frames, ii, jj))
    {
    }
  }

  /** Cell (i, j) of one frame. */
  function PxAt(a: array3<int>, i: nat, j: nat): (r: Px)
    requires i < a.Length0 && j < a.Length1 && a.Length2 == 3
    reads a
  {
    Px(a[i, j, 0], a[i, j, 1], a[i, j, 2])
  }

  /** frames[f][i, j, :] = p */
  method SetPx(a: array3<int>, i: nat, j: nat, p: Px)
    requires i < a.Length0 && j < a.Length1 && a.Length2 == 3
    modifies a
    ensures PxAt(a, i, j) == p
    ensures forall ii, jj, k :: 0 <= ii < a.Length0 && 0 <= jj < a.Length1 && 0 <= k < 3 && (ii != i || jj != j) ==>
      a[ii, jj, k] == old(a[ii, jj, k])
  {
    a[i, j, 0] := p.w;
    a[i, j, 1] := p.h;
    a[i, j, 2] := p.t;
  }

  /** One pass of the loop over frames: frame f of cell (i, j). */
  method TimeStep(frames: seq<array3<int>>, i: nat, j: nat, h: nat, w: nat, f: nat, merging: bool, checkPoint: int,
                  ghost cur: seq<Px>, ghost cpn: nat)
      returns (merging': bool, checkPoint': int, ghost cur': seq<Px>, ghost cpn': nat)
    requires Video(frames, h, w) && i < h && j < w && f < |frames| && |cur| == |frames|
    requires merging ==> cpn < f && checkPoint == cpn
    requires forall g :: 0 <= g < |frames| ==> cur[g] == PxAt(frames[g], i, j)
    modifies frames
    ensures |cur'| == |frames| && (merging' ==> cpn' < f + 1 && checkPoint' == cpn')
    ensures TimeScan(cur', f + 1, merging', cpn') == TimeScan(cur, f, merging, cpn)
    ensures forall g :: 0 <= g < |frames| ==> cur'[g] == PxAt(frames[g], i, j)
    ensures forall g, ii, jj, k :: 0 <= g < |frames| && 0 <= ii < h && 0 <= jj < w && 0 <= k < 3 && (ii != i || jj != j) ==>
      frames[g][ii, jj, k] == old(frames[g][ii, jj, k])
  {
    merging', checkPoint', cur', cpn' := merging, checkPoint, cur, cpn;
    if !merging && (frames[f][i, j, 0] != 0 || frames[f][i, j, 1] != 0) {
      SetPx(frames[f], i, j, PxAt(frames[f], i, j).(t := 1));
      cur' := cur'[f := cur'[f].(t := 1)];
    }
    ghost var vs1 := cur';
    if f != |frames| - 1 {
      var same := frames[f][i, j, 0] == frames[f + 1][i, j, 0] && frames[f][i, j, 1] == frames[f + 1][i, j, 1];
      var full := frames[f][i, j, 0] != 0 && frames[f][i, j, 1] != 0;
      if !merging && same && full {
        merging' := true;
        checkPoint' := f;
        SetPx(frames[f + 1], i, j, Blank);
        SetPx(frames[f], i, j, PxAt(frames[f], i, j).(t := frames[f][i, j, 2] + 1));
        cur' := vs1[f + 1 := Blank][f := vs1[f].(t := vs1[f].t + 1)];
        cpn' := f;
      } else if merging && same && full {
        SetPx(frames[f + 1], i, j, Blank);
        SetPx(frames[f], i, j, Blank);
        SetPx(frames[checkPoint], i, j, PxAt(frames[checkPoint], i, j).(t := frames[checkPoint][i, j, 2] + 1));
        var cleared := vs1[f + 1 := Blank][f := Blank];
        cur' := cleared[cpn := cleared[cpn].(t := cleared[cpn].t + 1)];
      } else if merging && !same {
        merging' := false;
      }
    }
  }
}
