/**
 * ObjectGroup (circloo_helper/object_groups.py): objects moved together.
 * The group remembers, for every member, the offsets of its position pairs
 * from the first member's first position, taken when the member joined,
 * and set_position moves every member to the new position plus those offsets.
 */
module Groups {
  import opened Wrappers
  import opened LevelObject
  import opened Positions

  /** What the group reads of a member: its attributes, whether it is a Rectangle, its position count. */
  datatype Member = Member(attrs: seq<Attr>, rect: bool, count: Option<int>)

  function Snap(o: Object): (r: Member)
    reads o
  {
    Member(o.attributes, o.kind.Rectangle?, o.numberOfPositions)
  }

  function Snaps(os: seq<Object>): (r: seq<Member>)
    reads os
    ensures |r| == |os| && forall k :: 0 <= k < |os| ==> r[k] == Snap(os[k])
  {
    seq(|os|, k reads os requires 0 <= k < |os| => Snap(os[k]))
  }

  // ----- offsets -----

  /**
   * Offset pair k (0-based) of a member: its pair k minus the primary
   * position, less (int(attrs[3]), int(attrs[4])) for a Rectangle.
   */
  function OffsetAt(m: Member, primary: Pair, k: nat): (r: Result<Pair>) {
    var x :- IntAt(m.attrs, 2 * k + 1);
    var y :- IntAt(m.attrs, 2 * k + 2);
    if m.rect then
      var w :- IntAt(m.attrs, 3);
      var h :- IntAt(m.attrs, 4);
      Ok((x - primary.0 - w, y - primary.1 - h))
    else Ok((x - primary.0, y - primary.1))
  }

  /** The first n offset pairs, in order; the first failing int() is raised. */
  function OffsetPairs(m: Member, primary: Pair, n: nat): (r: Result<seq<Pair>>)
    ensures r.Ok? ==> |r.value| == n
  {
    if n == 0 then Ok([])
    else
      var front :- OffsetPairs(m, primary, n - 1);
      var last :- OffsetAt(m, primary, n - 1);
      Ok(front + [last])
  }

  /** _find_position_offset(obj): TypeError without a count, no pairs for a count of 0 or less. */
  function OffsetsOf(m: Member, primary: Pair): (r: Result<seq<Pair>>) {
    if m.count.None? then Err(TypeError)
    else if m.count.value <= 0 then Ok([])
    else OffsetPairs(m, primary, m.count.value)
  }

  /** The offsets of a member hold one pair per position, each its pair minus the primary position (and the size, for a Rectangle). */
  lemma {:induction false} OffsetPairsValues(m: Member, primary: Pair, n: nat)
    requires OffsetPairs(m, primary, n).Ok?
    ensures var offs := OffsetPairs(m, primary, n).value;
      |offs| == n && forall k :: 0 <= k < n ==> OffsetAt(m, primary, k) == Ok(offs[k])
  {
    if n > 0 {
      OffsetPairsValues(m, primary, n - 1);
    }
  }

  /** The offsets are all read exactly when each pair is. */
  lemma {:induction false} OffsetPairsOk(m: Member, primary: Pair, n: nat)
    requires forall k :: 0 <= k < n ==> OffsetAt(m, primary, k).Ok?
    ensures OffsetPairs(m, primary, n).Ok?
  {
    if n > 0 {
      OffsetPairsOk(m, primary, n - 1);
    }
  }

  /** For a member that is not a Rectangle, offset pair k is its pair k minus the primary position. */
  lemma PlainOffset(m: Member, primary: Pair, k: nat)
    requires !m.rect && PairAt(m.attrs, k).Ok?
    ensures OffsetAt(m, primary, k) ==
      Ok((PairAt(m.attrs, k).value.0 - primary.0, PairAt(m.attrs, k).value.1 - primary.1))
  {
  }

  // ----- construction -----

  /** (int(objs[0].attributes[1]), int(objs[0].attributes[2])) */
  function PrimaryOf(ms: seq<Member>): (r: Result<Pair>) {
    if ms == [] then Err(IndexError) else PairAt(ms[0].attrs, 0)
  }

  /** _find_position_offsets(): the offsets of every member, in order. */
  function AllOffsets(ms: seq<Member>, primary: Pair): (r: Result<seq<seq<Pair>>>)
    ensures r.Ok? ==> |r.value| == |ms|
  {
    if ms == [] then Ok([])
    else
      var n := |ms| - 1;
      var front :- AllOffsets(ms[..n], primary);
      var last :- OffsetsOf(ms[n], primary);
      Ok(front + [last])
  }

  /** ObjectGroup(objs): the primary position and the offsets, or the exception raised. */
  function Created(ms: seq<Member>): (r: Result<(Pair, seq<seq<Pair>>)>) {
    var primary :- PrimaryOf(ms);
    var offsets :- AllOffsets(ms, primary);
    Ok((primary, offsets))
  }

  lemma {:induction false} AllOffsetsValues(ms: seq<Member>, primary: Pair)
    requires AllOffsets(ms, primary).Ok?
    ensures var offs := AllOffsets(ms, primary).value;
      |offs| == |ms| && forall k :: 0 <= k < |ms| ==> OffsetsOf(ms[k], primary) == Ok(offs[k])
    decreases |ms|
  {
    if ms != [] {
      var n := |ms| - 1;
      AllOffsetsValues(ms[..n], primary);
      assert forall k :: 0 <= k < n ==> ms[..n][k] == ms[k];
    }
  }

  /**
   * A group is created exactly when the first member has an integer first
   * pair and every member's offsets can be read; it then holds one offset
   * list per member, as long as that member's position count.
   */
  lemma CreatedShape(ms: seq<Member>)
    ensures Created(ms).Ok? ==>
      ms != [] && Created(ms).value.0 == PairAt(ms[0].attrs, 0).value &&
      |Created(ms).value.1| == |ms| &&
      forall k :: 0 <= k < |ms| ==>
        ms[k].count.Some? &&
        |Created(ms).value.1[k]| == (if ms[k].count.value <= 0 then 0 else ms[k].count.value) &&
        OffsetsOf(ms[k], Created(ms).value.0) == Ok(Created(ms).value.1[k])
  {
    if Created(ms).Ok? {
      var primary := Created(ms).value.0;
      AllOffsetsValues(ms, primary);
    }
  }

  /** A member without a position count makes creation raise TypeError (None * 2). */
  lemma {:induction false} NoCountNoGroup(ms: seq<Member>, primary: Pair, k: nat)
    requires k < |ms| && ms[k].count.None?
    ensures AllOffsets(ms, primary).Err?
    decreases |ms|
  {
    var n := |ms| - 1;
    if k < n {
      assert ms[..n][k] == ms[k];
      NoCountNoGroup(ms[..n], primary, k);
    }
  }

  // ----- moving the group -----

  function Shifted(p: Pair, d: Pair): (r: Pair) {
    (p.0 + d.0, p.1 + d.1)
  }

  /** The first member: every one of its 1 to 4 pairs is set to p; any other count leaves it alone. */
  function PrimaryMove(m: Member, p: Pair): (r: Written) {
    if m.count == Some(1) then SetPositions(m.attrs, m.count, p, None, None, None)
    else if m.count == Some(2) then SetPositions(m.attrs, m.count, p, Some(p), None, None)
    else if m.count == Some(3) then SetPositions(m.attrs, m.count, p, Some(p), Some(p), None)
    else if m.count == Some(4) then SetPositions(m.attrs, m.count, p, Some(p), Some(p), Some(p))
    else Written(m.attrs, None)
  }

  /** Pair k (1-based) a later member is sent to, when its count reaches k. */
  function Aim(p: Pair, off: seq<Pair>, n: int, k: nat): (r: Option<Pair>)
    requires 1 <= k
    requires n >= k ==> k <= |off|
  {
    if n >= k then Some(Shifted(p, off[k - 1])) else None
  }

  /**
   * A later member: IndexError when the group has no offsets for it, TypeError
   * without a count, untouched with a count of 0 or less, IndexError when its
   * offsets are shorter than its count, otherwise set_position with each
   * pair p plus its offset.
   */
  function MemberMove(m: Member, offset: Option<seq<Pair>>, p: Pair): (r: Written) {
    if offset.None? then Written(m.attrs, Some(IndexError))
    else if m.count.None? then Written(m.attrs, Some(TypeError))
    else if m.count.value <= 0 then Written(m.attrs, None)
    else
      var n := m.count.value;
      var off := offset.value;
      if |off| < (if n < 4 then n else 4) then Written(m.attrs, Some(IndexError))
      else SetPositions(m.attrs, m.count, Shifted(p, off[0]), Aim(p, off, n, 2), Aim(p, off, n, 3), Aim(p, off, n, 4))
  }

  /** What set_position(p) does to member k, on its own. */
  function Step(ms: seq<Member>, offsets: seq<seq<Pair>>, p: Pair, k: nat): (r: Written)
    requires k < |ms|
  {
    if k == 0 then PrimaryMove(ms[0], p)
    else MemberMove(ms[k], if k < |offsets| then Some(offsets[k]) else None, p)
  }

  /** The index of the first step that raises, or the number of steps. */
  function FailAt(ms: seq<Member>, offsets: seq<seq<Pair>>, p: Pair, from: nat): (n: nat)
    requires from <= |ms|
    ensures from <= n <= |ms|
    ensures forall k :: from <= k < n ==> Step(ms, offsets, p, k).error.None?
    ensures n < |ms| ==> Step(ms, offsets, p, n).error.Some?
    decreases |ms| - from
  {
    if from == |ms| || Step(ms, offsets, p, from).error.Some? then from
    else FailAt(ms, offsets, p, from + 1)
  }

  /**
   * The members' attributes after set_position(p): every member up to and
   * including the first that raises has had its step (with the pairs written
   * before the exception); the rest are untouched.
   */
  function Moved(ms: seq<Member>, offsets: seq<seq<Pair>>, p: Pair): (r: seq<seq<Attr>>)
    ensures |r| == |ms|
  {
    var f := FailAt(ms, offsets, p, 0);
    seq(|ms|, k requires 0 <= k < |ms| => if k <= f then Step(ms, offsets, p, k).attrs else ms[k].attrs)
  }

  /** The exception set_position(p) raises, if any; an empty group fails at objs[0]. */
  function MoveError(ms: seq<Member>, offsets: seq<seq<Pair>>, p: Pair): (r: Option<Error>) {
    if ms == [] then Some(IndexError)
    else
      var f := FailAt(ms, offsets, p, 0);
      if f < |ms| then Step(ms, offsets, p, f).error else None
  }

  /** The members with their attributes replaced. */
  function WithAttrs(ms: seq<Member>, attrs: seq<seq<Attr>>): (r: seq<Member>)
    requires |attrs| == |ms|
    ensures |r| == |ms| && forall k :: 0 <= k < |ms| ==> r[k] == ms[k].(attrs := attrs[k])
  {
    seq(|ms|, k requires 0 <= k < |ms| => ms[k].(attrs := attrs[k]))
  }

  /** Repeating one member's step changes nothing more and raises the same way. */
  lemma StepAgain(ms: seq<Member>, offsets: seq<seq<Pair>>, p: Pair, k: nat)
    requires k < |ms|
    ensures var w := Step(ms, offsets, p, k);
      Step(ms[k := ms[k].(attrs := w.attrs)], offsets, p, k) == w
  {
    var m := ms[k];
    if k == 0 {
      if m.count == Some(1) {
        SetPositionsIdempotent(m.attrs, m.count, p, None, None, None);
      } else if m.count == Some(2) {
        SetPositionsIdempotent(m.attrs, m.count, p, Some(p), None, None);
      } else if m.count == Some(3) {
        SetPositionsIdempotent(m.attrs, m.count, p, Some(p), Some(p), None);
      } else if m.count == Some(4) {
        SetPositionsIdempotent(m.attrs, m.count, p, Some(p), Some(p), Some(p));
      }
    } else if k < |offsets| && m.count.Some? && m.count.value > 0 {
      var n := m.count.value;
      var off := offsets[k];
      if |off| >= (if n < 4 then n else 4) {
        SetPositionsIdempotent(m.attrs, m.count, Shifted(p, off[0]), Aim(p, off, n, 2), Aim(p, off, n, 3), Aim(p, off, n, 4));
      }
    }
  }

  /** A step depends on nothing but its own member. */
  lemma StepLocal(ms: seq<Member>, ns: seq<Member>, offsets: seq<seq<Pair>>, p: Pair, k: nat)
    requires k < |ms| == |ns| && ms[k] == ns[k]
    ensures Step(ms, offsets, p, k) == Step(ns, offsets, p, k)
  {
  }

  /**
   * Calling set_position(p) a second time leaves every member's attributes
   * as the first call left them, and raises exactly as the first call did.
   */
  lemma MoveIdempotent(ms: seq<Member>, offsets: seq<seq<Pair>>, p: Pair)
    ensures var ms' := WithAttrs(ms, Moved(ms, offsets, p));
      Moved(ms', offsets, p) == Moved(ms, offsets, p) && MoveError(ms', offsets, p) == MoveError(ms, offsets, p)
  {
    var once := Moved(ms, offsets, p);
    var ms' := WithAttrs(ms, once);
    var f := FailAt(ms, offsets, p, 0);
    forall k | 0 <= k < |ms| && k <= f
      ensures Step(ms', offsets, p, k) == Step(ms, offsets, p, k)
    {
      var w := Step(ms, offsets, p, k);
      StepAgain(ms, offsets, p, k);
      StepLocal(ms', ms[k := ms[k].(attrs := w.attrs)], offsets, p, k);
    }
    forall k | 0 <= k < |ms| && k > f
      ensures ms'[k] == ms[k]
    {
    }
    SameFailure(ms, ms', offsets, p, 0, f);
    var twice := Moved(ms', offsets, p);
    forall k | 0 <= k < |ms| ensures twice[k] == once[k] {
    }
  }

  /** Two member lists whose steps agree up to the first failure of one fail at the same place. */
  lemma {:induction false} SameFailure(ms: seq<Member>, ns: seq<Member>, offsets: seq<seq<Pair>>, p: Pair, from: nat, f: nat)
    requires |ms| == |ns| && from <= |ms| && from <= f == FailAt(ms, offsets, p, from)
    requires forall k :: from <= k < |ms| && k <= f ==> Step(ns, offsets, p, k) == Step(ms, offsets, p, k)
    ensures FailAt(ns, offsets, p, from) == f
    decreases |ms| - from
  {
    if from < |ms| && Step(ms, offsets, p, from).error.None? {
      SameFailure(ms, ns, offsets, p, from + 1, f);
    }
  }

  /** A later member with a count of 0 or less, and offsets recorded for it, is left untouched. */
  lemma UnplacedUntouched(ms: seq<Member>, offsets: seq<seq<Pair>>, p: Pair, k: nat)
    requires 0 < k < |ms| && k < |offsets| && ms[k].count.Some? && ms[k].count.value <= 0
    ensures Moved(ms, offsets, p)[k] == ms[k].attrs && Step(ms, offsets, p, k).error.None?
  {
  }

  /**
   * When no member before it raised, a later member with 1 to 4 positions,
   * offsets for all of them and room for them in its attributes ends with
   * pair j at p plus offset j, read back by get_position.
   */
  lemma MemberPlaced(ms: seq<Member>, offsets: seq<seq<Pair>>, p: Pair, k: nat)
    requires 0 < k < |ms| && k < |offsets|
    requires forall j :: 0 <= j < k ==> Step(ms, offsets, p, j).error.None?
    requires ms[k].count.Some? && 1 <= ms[k].count.value <= 4 && |offsets[k]| >= ms[k].count.value
    requires 2 * ms[k].count.value < |ms[k].attrs|
    ensures var n := ms[k].count.value;
      Step(ms, offsets, p, k).error.None? &&
      PositionsOf(Moved(ms, offsets, p)[k], ms[k].count) ==
        Ok(Some(seq(n, j requires 0 <= j < n => Shifted(p, offsets[k][j]))))
  {
    var m := ms[k];
    var n := m.count.value;
    var off := offsets[k];
    var p2, p3, p4 := Aim(p, off, n, 2), Aim(p, off, n, 3), Aim(p, off, n, 4);
    SetThenGet(m.attrs, n, Shifted(p, off[0]), p2, p3, p4);
    var want := seq(n, j requires 0 <= j < n => Shifted(p, off[j]));
    var got := seq(n, j requires 0 <= j < n => Requested(j + 1, Shifted(p, off[0]), p2, p3, p4).value);
    assert got == want;
  }

  /** The first member, with 1 to 4 positions and room for them, ends with every pair at p. */
  lemma PrimaryPlaced(ms: seq<Member>, offsets: seq<seq<Pair>>, p: Pair)
    requires ms != [] && ms[0].count.Some? && 1 <= ms[0].count.value <= 4
    requires 2 * ms[0].count.value < |ms[0].attrs|
    ensures var n := ms[0].count.value;
      Step(ms, offsets, p, 0).error.None? &&
      PositionsOf(Moved(ms, offsets, p)[0], ms[0].count) == Ok(Some(seq(n, j requires 0 <= j < n => p)))
  {
    var m := ms[0];
    var n := m.count.value;
    var p2: Option<Pair> := if n >= 2 then Some(p) else None;
    var p3: Option<Pair> := if n >= 3 then Some(p) else None;
    var p4: Option<Pair> := if n >= 4 then Some(p) else None;
    assert PrimaryMove(m, p) == SetPositions(m.attrs, m.count, p, p2, p3, p4);
    SetThenGet(m.attrs, n, p, p2, p3, p4);
    var got := seq(n, j requires 0 <= j < n => Requested(j + 1, p, p2, p3, p4).value);
    assert got == seq(n, j requires 0 <= j < n => p);
  }

  // ----- adding members -----

  /** What add() may be given: an Object, a (possibly nested) list, or anything else. */
  datatype Item = One(obj: Object) | Many(items: seq<Item>) | Other

  /** The leaves add() visits, in order: an object, or something that is neither object nor list. */
  function Leaves(item: Item): (r: seq<Option<Object>>)
    decreases item, 1
  {
    match item
    case One(o) => [Some(o)]
    case Many(items) => LeavesOf(items)
    case Other => [None]
  }

  function LeavesOf(items: seq<Item>): (r: seq<Option<Object>>)
    decreases items, 0
  {
    if items == [] then [] else LeavesOf(items[..|items| - 1]) + Leaves(items[|items| - 1])
  }

  function LeafObjects(ls: seq<Option<Object>>): (r: set<Object>) {
    set l | l in ls && l.Some? :: l.value
  }

  /** For each leaf, what computing its offsets gives: None for a leaf that is not an object. */
  function Outcomes(ls: seq<Option<Object>>, primary: Pair): (r: seq<Option<Result<seq<Pair>>>>)
    reads LeafObjects(ls)
    ensures |r| == |ls| &&
      forall k :: 0 <= k < |ls| ==> r[k] == if ls[k].Some? then Some(OffsetsOf(Snap(ls[k].value), primary)) else None
  {
    seq(|ls|, k reads LeafObjects(ls) requires 0 <= k < |ls| =>
      if ls[k].Some? then Some(OffsetsOf(Snap(ls[k].value), primary)) else None)
  }

  /** after is before followed by the objects of the leaves ls, one for each, in order. */
  predicate Appended(before: seq<Object>, after: seq<Object>, ls: seq<Option<Object>>) {
    |after| == |before| + |ls| && after[..|before|] == before &&
    forall i :: 0 <= i < |ls| ==> ls[i] == Some(after[|before| + i])
  }

  /** How far a run of add() calls got: leaves appended, the offsets, the exception raised. */
  datatype Grown = Grown(added: nat, offsets: seq<seq<Pair>>, error: Option<Error>)

  /**
   * Adding the leaves one by one, given each leaf's outcome: an object is
   * appended to objs and then its offsets are computed (so an object whose
   * offsets raise stays in objs without offsets); anything else raises
   * TypeError.
   */
  function Grow(offsets: seq<seq<Pair>>, rs: seq<Option<Result<seq<Pair>>>>): (g: Grown)
    ensures g.added <= |rs|
    decreases |rs|
  {
    if rs == [] then Grown(0, offsets, None)
    else if rs[0].None? then Grown(0, offsets, Some(TypeError))
    else match rs[0].value
      case Err(e) => Grown(1, offsets, Some(e))
      case Ok(off) =>
        var g := Grow(offsets + [off], rs[1..]);
        Grown(g.added + 1, g.offsets, g.error)
  }

  lemma {:induction false} GrowAppend(offsets: seq<seq<Pair>>, a: seq<Option<Result<seq<Pair>>>>, b: seq<Option<Result<seq<Pair>>>>)
    ensures var g1 := Grow(offsets, a);
      Grow(offsets, a + b) ==
        if g1.error.Some? then g1
        else var g2 := Grow(g1.offsets, b); Grown(g1.added + g2.added, g2.offsets, g2.error)
    decreases |a|
  {
    if a == [] {
      assert a + b == b;
    } else {
      assert (a + b)[0] == a[0] && (a + b)[1..] == a[1..] + b;
      if a[0].Some? && a[0].value.Ok? {
        GrowAppend(offsets + [a[0].value.value], a[1..], b);
      }
    }
  }

  /** Without an exception every leaf was an object and got its offsets, appended in order. */
  lemma {:induction false} GrowOk(offsets: seq<seq<Pair>>, rs: seq<Option<Result<seq<Pair>>>>)
    requires Grow(offsets, rs).error.None?
    ensures var g := Grow(offsets, rs);
      g.added == |rs| && |g.offsets| == |offsets| + |rs| && g.offsets[..|offsets|] == offsets &&
      forall k :: 0 <= k < |rs| ==> rs[k] == Some(Ok(g.offsets[|offsets| + k]))
    decreases |rs|
  {
    if rs != [] {
      var off := rs[0].value.value;
      GrowOk(offsets + [off], rs[1..]);
      var g := Grow(offsets, rs);
      assert g.offsets[..|offsets| + 1][..|offsets|] == g.offsets[..|offsets|];
      forall k | 1 <= k < |rs| ensures rs[k] == rs[1..][k - 1] {
      }
    }
  }

  /** A leaf that is neither an object nor a list makes the run raise TypeError, or an earlier exception. */
  lemma {:induction false} GrowOther(offsets: seq<seq<Pair>>, rs: seq<Option<Result<seq<Pair>>>>, k: nat)
    requires k < |rs| && rs[k].None?
    ensures Grow(offsets, rs).error.Some?
    decreases |rs|
  {
    if k > 0 && rs[0].Some? && rs[0].value.Ok? {
      GrowOther(offsets + [rs[0].value.value], rs[1..], k - 1);
    }
  }

  lemma {:induction false} LeavesOfAppend(a: seq<Item>, b: seq<Item>)
    ensures LeavesOf(a + b) == LeavesOf(a) + LeavesOf(b)
    decreases |b|
  {
    if b == [] {
      assert a + b == a;
    } else {
      var n := |b| - 1;
      assert (a + b)[..|a + b| - 1] == a + b[..n];
      LeavesOfAppend(a, b[..n]);
    }
  }

  lemma {:induction false} OffsetPairsFail(m: Member, primary: Pair, k: nat, n: nat)
    requires k < n && OffsetPairs(m, primary, k).Ok? && OffsetAt(m, primary, k).Err?
    ensures OffsetPairs(m, primary, n) == Err(OffsetAt(m, primary, k).error)
  {
    if n > k + 1 {
      OffsetPairsFail(m, primary, k, n - 1);
    }
  }

  lemma {:induction false} AllOffsetsFail(ms: seq<Member>, primary: Pair, k: nat)
    requires k < |ms| && AllOffsets(ms[..k], primary).Ok? && OffsetsOf(ms[k], primary).Err?
    ensures AllOffsets(ms, primary) == Err(OffsetsOf(ms[k], primary).error)
    decreases |ms|
  {
    var n := |ms| - 1;
    if k < n {
      assert ms[..n][..k] == ms[..k] && ms[..n][k] == ms[k];
      AllOffsetsFail(ms[..n], primary, k);
    } else {
      assert ms[..n] == ms[..k];
    }
  }

  /** No object appears twice. */
  predicate Distinct(os: seq<Object>) {
    forall i, j :: 0 <= i < j < |os| ==> os[i] != os[j]
  }

  /** Each of cs carries the modifiers, connections and id of the object at its place in os. */
  predicate CarriesRest(cs: seq<Object>, os: seq<Object>)
    reads cs, os
  {
    |cs| == |os| &&
    forall k :: 0 <= k < |cs| ==>
      cs[k].modifiers == os[k].modifiers && cs[k].connections == os[k].connections && cs[k].id == os[k].id
  }

  /** set_position stops at the first member whose step raises, or runs to the end. */
  lemma {:induction false} FailAtIs(ms: seq<Member>, offsets: seq<seq<Pair>>, p: Pair, from: nat, f: nat)
    requires from <= f <= |ms|
    requires forall j :: from <= j < f ==> Step(ms, offsets, p, j).error.None?
    requires f < |ms| ==> Step(ms, offsets, p, f).error.Some?
    ensures FailAt(ms, offsets, p, from) == f
    decreases f - from
  {
    if from < f {
      FailAtIs(ms, offsets, p, from + 1, f);
    }
  }

  /**
   * Where the walk of set_position stops at member f, the members up to f
   * carry their steps, the others are untouched, and the exception is f's.
   */
  lemma MoveStops(ms: seq<Member>, offsets: seq<seq<Pair>>, p: Pair, f: nat)
    requires f <= |ms| && ms != []
    requires forall j :: 0 <= j < f ==> Step(ms, offsets, p, j).error.None?
    requires f < |ms| ==> Step(ms, offsets, p, f).error.Some?
    ensures MoveError(ms, offsets, p) == if f < |ms| then Step(ms, offsets, p, f).error else None
    ensures forall k :: 0 <= k < |ms| ==>
      Moved(ms, offsets, p)[k] == if k <= f then Step(ms, offsets, p, k).attrs else ms[k].attrs
  {
    FailAtIs(ms, offsets, p, 0, f);
  }

  /** The members as seen through plain copies: nothing is a Rectangle. */
  function Unmarked(ms: seq<Member>): (r: seq<Member>)
    ensures |r| == |ms| && forall k :: 0 <= k < |ms| ==> r[k] == ms[k].(rect := false)
  {
    seq(|ms|, k requires 0 <= k < |ms| => ms[k].(rect := false))
  }

  /** A copy of o that, unlike Object.copy(), keeps o's class. */
  method SameKindCopy(o: Object) returns (c: Object)
    ensures fresh(c) && Snap(c) == Snap(o)
    ensures c.modifiers == o.modifiers && c.connections == o.connections && c.id == o.id
  {
    c := new Object(o.attributes, o.modifiers, o.connections, o.id, o.kind);
    c.numberOfPositions := o.numberOfPositions;
  }

  /**
   * A circle at (0, 0) followed by a Rectangle centred at (10, 10) with half
   * sizes 5 and 5: the group records the Rectangle's offset as (5, 5), but a
   * copy of the group records (10, 10), so duplicate((0, 0)) puts the
   * Rectangle's copy at (10, 10) where set_position((0, 0)) puts the
   * Rectangle itself at (5, 5).
   */
  lemma CopyMovesRectangles()
    ensures var ms := [Member([S("c"), I(0), I(0), I(5)], false, Some(1)),
                       Member([S("b"), I(10), I(10), I(5), I(5), I(0)], true, Some(1))];
      Created(ms) == Ok(((0, 0), [[(0, 0)], [(5, 5)]])) &&
      Created(Unmarked(ms)) == Ok(((0, 0), [[(0, 0)], [(10, 10)]])) &&
      PositionsOf(Moved(ms, [[(0, 0)], [(5, 5)]], (0, 0))[1], Some(1)) == Ok(Some([(5, 5)])) &&
      PositionsOf(Moved(Unmarked(ms), [[(0, 0)], [(10, 10)]], (0, 0))[1], Some(1)) == Ok(Some([(10, 10)]))
  {
    var ms := [Member([S("c"), I(0), I(0), I(5)], false, Some(1)),
               Member([S("b"), I(10), I(10), I(5), I(5), I(0)], true, Some(1))];
    var plain := Unmarked(ms);
    assert plain == [ms[0], Member([S("b"), I(10), I(10), I(5), I(5), I(0)], false, Some(1))];
    OneOffset(ms[0], 0, 0, 0, 0);
    OneOffset(ms[1], 10, 10, 5, 5);
    OneOffset(plain[1], 10, 10, 5, 5);
    CreatedTwo(ms, [(0, 0)], [(5, 5)]);
    CreatedTwo(plain, [(0, 0)], [(10, 10)]);
    Placed(ms, [[(0, 0)], [(5, 5)]]);
    Placed(plain, [[(0, 0)], [(10, 10)]]);
  }

  /** The one offset pair of a member with one position pair (x, y) and sizes (w, h), from (0, 0). */
  lemma OneOffset(m: Member, x: int, y: int, w: int, h: int)
    requires m.count == Some(1) && |m.attrs| >= 3 && m.attrs[1] == I(x) && m.attrs[2] == I(y)
    requires m.rect ==> |m.attrs| >= 5 && m.attrs[3] == I(w) && m.attrs[4] == I(h)
    ensures OffsetsOf(m, (0, 0)) == Ok([if m.rect then (x - w, y - h) else (x, y)])
  {
    assert IntAt(m.attrs, 1) == Ok(x) && IntAt(m.attrs, 2) == Ok(y);
    assert m.rect ==> IntAt(m.attrs, 3) == Ok(w) && IntAt(m.attrs, 4) == Ok(h);
    var v := if m.rect then (x - w, y - h) else (x, y);
    assert OffsetAt(m, (0, 0), 0) == Ok(v);
    var front := OffsetPairs(m, (0, 0), 0);
    assert front.Ok? && front.value == [];
    var last := OffsetAt(m, (0, 0), 0);
    assert !front.IsFailure() && !last.IsFailure();
    assert OffsetPairs(m, (0, 0), 1) == Ok(front.value + [last.value]);
    assert front.value + [v] == [v];
    assert OffsetsOf(m, (0, 0)) == OffsetPairs(m, (0, 0), 1);
  }

  /** A two-member group whose first pair is (0, 0) records each member's offsets from there. */
  lemma CreatedTwo(ms: seq<Member>, a: seq<Pair>, b: seq<Pair>)
    requires |ms| == 2 && |ms[0].attrs| >= 3 && ms[0].attrs[1] == I(0) && ms[0].attrs[2] == I(0)
    requires OffsetsOf(ms[0], (0, 0)) == Ok(a) && OffsetsOf(ms[1], (0, 0)) == Ok(b)
    ensures Created(ms) == Ok(((0, 0), [a, b]))
  {
    assert PrimaryOf(ms) == Ok((0, 0));
    var one := ms[..1];
    assert one[..0] == [] && one[0] == ms[0] && ms[..2 - 1] == one;
    assert AllOffsets(one[..0], (0, 0)) == Ok([]);
    assert AllOffsets(one, (0, 0)) == Ok([] + [a]);
    assert [] + [a] == [a] && [a] + [b] == [a, b];
    assert AllOffsets(ms, (0, 0)) == Ok([a] + [b]);
  }

  /** Moving a two-member group with one pair each to (0, 0) puts the second member at its offset. */
  lemma Placed(ms: seq<Member>, offsets: seq<seq<Pair>>)
    requires |ms| == 2 == |offsets| && |offsets[1]| == 1
    requires ms[0].count == Some(1) == ms[1].count && |ms[0].attrs| > 2 && |ms[1].attrs| > 2
    ensures PositionsOf(Moved(ms, offsets, (0, 0))[1], Some(1)) == Ok(Some([offsets[1][0]]))
  {
    PrimaryPlaced(ms, offsets, (0, 0));
    MemberPlaced(ms, offsets, (0, 0), 1);
    assert seq(1, j requires 0 <= j < 1 => Shifted((0, 0), offsets[1][j])) == [offsets[1][0]];
  }

  /**
   * add(item) without an exception keeps one offset list per member: every
   * leaf was an object and got its offsets.
   */
  lemma AddAligned(offsets: seq<seq<Pair>>, objs: seq<Object>, rs: seq<Option<Result<seq<Pair>>>>,
                   ls: seq<Option<Object>>, after: seq<Object>)
    requires |offsets| == |objs| && |rs| == |ls|
    requires Grow(offsets, rs).error.None? && Appended(objs, after, ls[..Grow(offsets, rs).added])
    ensures |Grow(offsets, rs).offsets| == |after| && |after| == |objs| + |ls|
  {
    GrowOk(offsets, rs);
  }

  /** ObjectGroup(objs): the new group over the members (it keeps the list), or the exception __init__ raises. */
  method NewGroup(objs: seq<Object>) returns (r: Result<ObjectGroup>)
    ensures var c := Created(Snaps(objs));
      (r.Ok? <==> c.Ok?) && (r.Err? ==> r.error == c.error) &&
      (r.Ok? ==> fresh(r.value) && r.value.objs == objs && r.value.primary == c.value.0 && r.value.offsets == c.value.1)
  {
    if objs == [] {
      return Err(IndexError);
    }
    var primary := PairAt(objs[0].attributes, 0);
    if primary.Err? {
      return Err(primary.error);
    }
    var g := new ObjectGroup.Empty(objs, primary.value);
    var error := g.FindPositionOffsets();
    if error.Some? {
      return Err(error.value);
    }
    r := Ok(g);
  }

  class ObjectGroup {
    var objs: seq<Object>
    const primary: Pair
    var offsets: seq<seq<Pair>>

    /** The state __init__ starts from, before the offsets are computed. */
    constructor Empty(objs: seq<Object>, primary: Pair)
      ensures this.objs == objs && this.primary == primary && offsets == []
    {
      this.objs := objs;
      this.primary := primary;
      offsets := [];
    }

    /** _find_position_offset(obj): obj's offsets are appended, unless computing them raises. */
    method FindPositionOffset(o: Object) returns (error: Option<Error>)
      modifies this`offsets
      ensures var r := OffsetsOf(Snap(o), primary);
        (r.Ok? ==> error.None? && offsets == old(offsets) + [r.value]) &&
        (r.Err? ==> error == Some(r.error) && offsets == old(offsets))
    {
      if o.numberOfPositions.None? {
        return Some(TypeError);
      }
      var n := o.numberOfPositions.value;
      var pos: seq<Pair> := [];
      var k := 0;
      while k < n
        invariant 0 <= k <= (if n > 0 then n else 0)
        invariant OffsetPairs(Snap(o), primary, k) == Ok(pos)
      {
        var r := OffsetAt(Snap(o), primary, k);
        if r.Err? {
          OffsetPairsFail(Snap(o), primary, k, n);
          return Some(r.error);
        }
        pos := pos + [r.value];
        k := k + 1;
      }
      offsets := offsets + [pos];
      error := None;
    }

    /** _find_position_offsets(): every member's offsets, in order; the first exception stops it. */
    method FindPositionOffsets() returns (error: Option<Error>)
      requires offsets == []
      modifies this`offsets
      ensures var r := AllOffsets(Snaps(objs), primary);
        (r.Ok? ==> error.None? && offsets == r.value) && (r.Err? ==> error == Some(r.error))
    {
      ghost var ms := Snaps(objs);
      var k := 0;
      assert ms[..0] == [];
      while k < |objs|
        invariant 0 <= k <= |objs| && ms == Snaps(objs)
        invariant AllOffsets(ms[..k], primary) == Ok(offsets)
      {
        var e := FindPositionOffset(objs[k]);
        if e.Some? {
          AllOffsetsFail(ms, primary, k);
          return e;
        }
        assert ms[..k + 1][..k] == ms[..k];
        k := k + 1;
      }
      assert ms[..k] == ms;
      error := None;
    }

    /**
     * add(obj): an Object is appended and its offsets recorded; a list is
     * added element by element; anything else raises TypeError. An object
     * whose offsets raise stays appended without offsets.
     */
    method Add(item: Item) returns (error: Option<Error>)
      modifies this`objs, this`offsets
      ensures var ls := Leaves(item);
        var g := Grow(old(offsets), Outcomes(ls, primary));
        Appended(old(objs), objs, ls[..g.added]) && offsets == g.offsets && error == g.error
      decreases item, 1
    {
      match item
      case One(o) =>
        objs := objs + [o];
        error := FindPositionOffset(o);
        assert Leaves(item)[..1] == [Some(o)];
      case Other =>
        error := Some(TypeError);
        assert Leaves(item)[..0] == [];
      case Many(items) =>
        error := AddAll(items);
    }

    /** _add_all(objs): add() on each element in turn; the first exception stops it. */
    method AddAll(items: seq<Item>) returns (error: Option<Error>)
      modifies this`objs, this`offsets
      ensures var ls := LeavesOf(items);
        var g := Grow(old(offsets), Outcomes(ls, primary));
        Appended(old(objs), objs, ls[..g.added]) && offsets == g.offsets && error == g.error
      decreases items, 0
    {
      ghost var ls := LeavesOf(items);
      ghost var s := Outcomes(ls, primary);
      ghost var cuts := LeavesCuts(items);
      var k := 0;
      ghost var p: nat := 0;
      error := None;
      while k < |items|
        invariant 0 <= k <= |items| && p == cuts[k] && p <= |ls|
        invariant Outcomes(ls, primary) == s
        invariant Grow(old(offsets), s[..p]) == Grown(p, offsets, None)
        invariant Appended(old(objs), objs, ls[..p]) && error.None?
      {
        ghost var q := cuts[k + 1];
        error := AddNext(items[k], ls, s, p, q, old(offsets), old(objs));
        if error.Some? {
          ghost var g := Grow(old(offsets), s);
          assert Appended(old(objs), objs, ls[..g.added]) && offsets == g.offsets && error == g.error;
          return;
        }
        k := k + 1;
        p := q;
      }
      assert ls[..p] == ls && s[..p] == s;
      ghost var g := Grow(old(offsets), s);
      assert Appended(old(objs), objs, ls[..g.added]) && offsets == g.offsets && error == g.error;
    }

    /** The match in set_position on the first member's count: 1 to 4 copies of p, nothing otherwise. */
    method MovePrimary(p: Pair) returns (error: Option<Error>)
      requires objs != []
      modifies (objs[0] as Object)`attributes
      ensures var w := PrimaryMove(old(Snap(objs[0])), p);
        objs[0].attributes == w.attrs && error == w.error
    {
      var o := objs[0];
      if o.numberOfPositions == Some(1) {
        WithinCount(o.attributes, 1, p, None, None, None);
        error := o.SetPosition(p, None, None, None);
      } else if o.numberOfPositions == Some(2) {
        WithinCount(o.attributes, 2, p, Some(p), None, None);
        error := o.SetPosition(p, Some(p), None, None);
      } else if o.numberOfPositions == Some(3) {
        WithinCount(o.attributes, 3, p, Some(p), Some(p), None);
        error := o.SetPosition(p, Some(p), Some(p), None);
      } else if o.numberOfPositions == Some(4) {
        WithinCount(o.attributes, 4, p, Some(p), Some(p), Some(p));
        error := o.SetPosition(p, Some(p), Some(p), Some(p));
      } else {
        error := None;
      }
    }

    /** One pass of the loop in set_position: member k is sent to p plus its recorded offsets. */
    method MoveMember(k: nat, p: Pair) returns (error: Option<Error>)
      requires 0 < k < |objs|
      modifies (objs[k] as Object)`attributes
      ensures var w := MemberMove(old(Snap(objs[k])), if k < |offsets| then Some(offsets[k]) else None, p);
        objs[k].attributes == w.attrs && error == w.error
    {
      var obj := objs[k];
      if k >= |offsets| {
        return Some(IndexError);
      }
      var offset := offsets[k];
      var count := obj.numberOfPositions;
      if count.None? {
        return Some(TypeError);
      }
      var num := count.value;
      if num <= 0 {
        return None;
      }
      var p2, p3, p4: Option<Pair> := None, None, None;
      if |offset| < 1 {
        return Some(IndexError);
      }
      var p1 := Shifted(p, offset[0]);
      if num >= 2 {
        if |offset| < 2 {
          return Some(IndexError);
        }
        p2 := Some(Shifted(p, offset[1]));
      }
      if num >= 3 {
        if |offset| < 3 {
          return Some(IndexError);
        }
        p3 := Some(Shifted(p, offset[2]));
      }
      if num >= 4 {
        if |offset| < 4 {
          return Some(IndexError);
        }
        p4 := Some(Shifted(p, offset[3]));
      }
      WithinCount(obj.attributes, num, p1, p2, p3, p4);
      error := obj.SetPosition(p1, p2, p3, p4);
    }

    /**
     * set_position(p): the first member's pairs all go to p, every later
     * member's pairs to p plus its offsets; the members are visited in order
     * and the first exception stops the walk, leaving the pairs already
     * written. The offsets never change.
     */
    method SetPosition(p: Pair) returns (error: Option<Error>)
      requires Distinct(objs)
      modifies objs`attributes
      ensures var ms := old(Snaps(objs));
        error == MoveError(ms, offsets, p) &&
        forall k :: 0 <= k < |objs| ==> objs[k].attributes == Moved(ms, offsets, p)[k]
    {
      ghost var ms := Snaps(objs);
      if objs == [] {
        return Some(IndexError);
      }
      error := MovePrimary(p);
      var k := 0;
      if error.None? {
        k := 1;
        while k < |objs|
          invariant 1 <= k <= |objs| && error.None?
          invariant forall j :: 0 <= j < k ==> Step(ms, offsets, p, j).error.None?
          invariant forall j :: 0 <= j < k ==> objs[j].attributes == Step(ms, offsets, p, j).attrs
          invariant forall j :: k <= j < |objs| ==> Snap(objs[j]) == ms[j]
        {
          ghost var before := objs[k];
          label Iter:
          error := MoveMember(k, p);
          forall j | 0 <= j < |objs| && j != k
            ensures objs[j].attributes == old@Iter(objs[j].attributes)
          {
            assert objs[j] != before;
          }
          if error.Some? {
            break;
          }
          k := k + 1;
        }
      }
      MoveStops(ms, offsets, p, k);
    }

    /**
     * copy(): a group built afresh over copies of the members. Object.copy()
     * gives plain Objects, so no copy is a Rectangle any more.
     */
    method Copy() returns (r: Result<ObjectGroup>)
      ensures var ms := Unmarked(Snaps(objs));
        var c := Created(ms);
        (r.Ok? <==> c.Ok?) && (r.Err? ==> r.error == c.error) &&
        (r.Ok? ==> (fresh(r.value) && |r.value.objs| == |objs| && Distinct(r.value.objs) &&
          (forall k :: 0 <= k < |objs| ==> fresh(r.value.objs[k])) &&
          Snaps(r.value.objs) == ms && CarriesRest(r.value.objs, objs) &&
          r.value.primary == c.value.0 && r.value.offsets == c.value.1))
    {
      var copies: seq<Object> := [];
      var k := 0;
      while k < |objs|
        invariant 0 <= k <= |objs| && |copies| == k && Distinct(copies)
        invariant forall j :: 0 <= j < k ==> fresh(copies[j]) && Snap(copies[j]) == Snap(objs[j]).(rect := false)
        invariant CarriesRest(copies, objs[..k])
      {
        var c := objs[k].Copy();
        copies := copies + [c];
        k := k + 1;
      }
      assert Snaps(copies) == Unmarked(Snaps(objs));
      r := NewGroup(copies);
    }

    /** duplicate(p): copy(), then set_position(p) on the copy; the original group is not changed. */
    method Duplicate(p: Pair) returns (r: Result<ObjectGroup>)
      ensures var ms := Unmarked(Snaps(objs));
        var c := Created(ms);
        (c.Err? ==> r == Err(c.error)) &&
        (c.Ok? && MoveError(ms, c.value.1, p).Some? ==> r == Err(MoveError(ms, c.value.1, p).value)) &&
        (c.Ok? && MoveError(ms, c.value.1, p).None? ==> (
          r.Ok? && fresh(r.value) && Distinct(r.value.objs) && CarriesRest(r.value.objs, objs) &&
          (forall k :: 0 <= k < |objs| ==> fresh(r.value.objs[k])) &&
          (forall k :: 0 <= k < |objs| ==> r.value.objs[k].numberOfPositions == objs[k].numberOfPositions) &&
          r.value.primary == c.value.0 && r.value.offsets == c.value.1 &&
          forall k :: 0 <= k < |objs| ==> r.value.objs[k].attributes == Moved(ms, c.value.1, p)[k]))
    {
      r := Copy();
      if r.Err? {
        return;
      }
      var error := r.value.SetPosition(p);
      if error.Some? {
        r := Err(error.value);
      }
    }

    /** copy() as evidently intended: every copy keeps its original's class. */
    method CopyKeepingKinds() returns (r: Result<ObjectGroup>)
      ensures var ms := Snaps(objs);
        var c := Created(ms);
        (r.Ok? <==> c.Ok?) && (r.Err? ==> r.error == c.error) &&
        (r.Ok? ==> (fresh(r.value) && |r.value.objs| == |objs| && Distinct(r.value.objs) &&
          (forall k :: 0 <= k < |objs| ==> fresh(r.value.objs[k])) &&
          Snaps(r.value.objs) == ms && CarriesRest(r.value.objs, objs) &&
          r.value.primary == c.value.0 && r.value.offsets == c.value.1))
    {
      var copies: seq<Object> := [];
      var k := 0;
      while k < |objs|
        invariant 0 <= k <= |objs| && |copies| == k && Distinct(copies)
        invariant forall j :: 0 <= j < k ==> fresh(copies[j]) && Snap(copies[j]) == Snap(objs[j])
        invariant CarriesRest(copies, objs[..k])
      {
        var c := SameKindCopy(objs[k]);
        copies := copies + [c];
        k := k + 1;
      }
      assert Snaps(copies) == Snaps(objs);
      r := NewGroup(copies);
    }

    /**
     * duplicate(p) over CopyKeepingKinds: the copies land where set_position(p)
     * would put the originals, Rectangles included.
     */
    method DuplicateKeepingKinds(p: Pair) returns (r: Result<ObjectGroup>)
      ensures var ms := Snaps(objs);
        var c := Created(ms);
        (c.Err? ==> r == Err(c.error)) &&
        (c.Ok? && MoveError(ms, c.value.1, p).Some? ==> r == Err(MoveError(ms, c.value.1, p).value)) &&
        (c.Ok? && MoveError(ms, c.value.1, p).None? ==> (
          r.Ok? && fresh(r.value) && Distinct(r.value.objs) && CarriesRest(r.value.objs, objs) &&
          (forall k :: 0 <= k < |objs| ==> fresh(r.value.objs[k])) &&
          (forall k :: 0 <= k < |objs| ==> r.value.objs[k].numberOfPositions == objs[k].numberOfPositions) &&
          r.value.primary == c.value.0 && r.value.offsets == c.value.1 &&
          forall k :: 0 <= k < |objs| ==> r.value.objs[k].attributes == Moved(ms, c.value.1, p)[k]))
    {
      r := CopyKeepingKinds();
      if r.Err? {
        return;
      }
      var error := r.value.SetPosition(p);
      if error.Some? {
        r := Err(error.value);
      }
    }

    /** One pass of the loop in _add_all: add(item) once the leaves before it, ls[..p], were all added. */
    method AddNext(item: Item, ghost ls: seq<Option<Object>>, ghost s: seq<Option<Result<seq<Pair>>>>, ghost p: nat, ghost q: nat,
                   ghost start: seq<seq<Pair>>, ghost before: seq<Object>) returns (error: Option<Error>)
      requires p <= q <= |ls| && s == Outcomes(ls, primary) && Leaves(item) == ls[p..q]
      requires Grow(start, s[..p]) == Grown(p, offsets, None) && Appended(before, objs, ls[..p])
      modifies this`objs, this`offsets
      ensures Outcomes(ls, primary) == s
      ensures var g := Grow(start, s[..q]);
        offsets == g.offsets && error == g.error && Appended(before, objs, ls[..g.added]) &&
        (error.None? ==> g.added == q) && (error.Some? ==> Grow(start, s) == g)
      decreases item, 2
    {
      ghost var next := Leaves(item);
      ghost var objs0 := objs;
      ghost var mid := offsets;
      error := Add(item);
      assert Outcomes(ls, primary) == s;
      assert Outcomes(next, primary) == s[p..q] by {
        OutcomesSlice(ls, primary, p, q);
      }
      AddStepFacts(start, s, p, q, mid, ls, next, before, objs0, objs, offsets, error);
    }
  }

  /** Where the leaves of each element start and end among the leaves of a list. */
  lemma {:induction false} LeavesCuts(items: seq<Item>) returns (cuts: seq<nat>)
    ensures |cuts| == |items| + 1 && cuts[0] == 0 && cuts[|items|] == |LeavesOf(items)|
    ensures forall k :: 0 <= k <= |items| ==> cuts[k] <= |LeavesOf(items)|
    ensures forall k :: 0 <= k < |items| ==>
      cuts[k] <= cuts[k + 1] && Leaves(items[k]) == LeavesOf(items)[cuts[k]..cuts[k + 1]]
    decreases |items|
  {
    if items == [] {
      cuts := [0];
    } else {
      var n := |items| - 1;
      var front := LeavesCuts(items[..n]);
      var ls := LeavesOf(items);
      assert ls == LeavesOf(items[..n]) + Leaves(items[n]);
      cuts := front + [|ls|];
      var m := |LeavesOf(items[..n])|;
      forall k | 0 <= k < |items|
        ensures cuts[k] <= cuts[k + 1] && Leaves(items[k]) == ls[cuts[k]..cuts[k + 1]]
      {
        assert cuts[k] == front[k];
        if k < n {
          assert cuts[k + 1] == front[k + 1] <= m;
          assert items[..n][k] == items[k];
          assert ls[cuts[k]..cuts[k + 1]] == LeavesOf(items[..n])[cuts[k]..cuts[k + 1]];
        } else {
          assert cuts[k] == m && cuts[k + 1] == |ls|;
          assert ls[m..] == Leaves(items[n]);
        }
      }
    }
  }

  lemma OutcomesSlice(ls: seq<Option<Object>>, primary: Pair, i: nat, j: nat)
    requires i <= j <= |ls|
    ensures Outcomes(ls[i..j], primary) == Outcomes(ls, primary)[i..j]
  {
  }

  /**
   * One add() call in the loop of _add_all: if the leaves so far were all
   * added, the run goes on with the next item's leaves; if that call raised,
   * the whole run raised there.
   */
  lemma GrowStep(offsets: seq<seq<Pair>>, s: seq<Option<Result<seq<Pair>>>>, p: nat, q: nat, mid: seq<seq<Pair>>)
    requires p <= q <= |s|
    requires Grow(offsets, s[..p]) == Grown(p, mid, None)
    ensures var g2 := Grow(mid, s[p..q]);
      var g := Grown(p + g2.added, g2.offsets, g2.error);
      Grow(offsets, s[..q]) == g &&
      (g2.error.None? ==> g2.added == q - p) &&
      (g2.error.Some? ==> Grow(offsets, s) == g)
  {
    assert s[..q] == s[..p] + s[p..q];
    GrowAppend(offsets, s[..p], s[p..q]);
    var g2 := Grow(mid, s[p..q]);
    if g2.error.None? {
      GrowOk(mid, s[p..q]);
    } else {
      assert s == s[..q] + s[q..];
      GrowAppend(offsets, s[..q], s[q..]);
    }
  }

  /** What one add() call in the loop of _add_all leaves behind, in terms of the whole run so far. */
  lemma AddStepFacts(start: seq<seq<Pair>>, s: seq<Option<Result<seq<Pair>>>>, p: nat, q: nat, mid: seq<seq<Pair>>,
                     ls: seq<Option<Object>>, next: seq<Option<Object>>, before: seq<Object>,
                     objs0: seq<Object>, objs: seq<Object>, offsets: seq<seq<Pair>>, error: Option<Error>)
    requires p <= q <= |s| == |ls| && next == ls[p..q]
    requires Grow(start, s[..p]) == Grown(p, mid, None) && Appended(before, objs0, ls[..p])
    requires var g2 := Grow(mid, s[p..q]);
      Appended(objs0, objs, next[..g2.added]) && offsets == g2.offsets && error == g2.error
    ensures var g := Grow(start, s[..q]);
      offsets == g.offsets && error == g.error && Appended(before, objs, ls[..g.added]) &&
      (error.None? ==> g.added == q) && (error.Some? ==> Grow(start, s) == g)
  {
    var g2 := Grow(mid, s[p..q]);
    var g := Grow(start, s[..q]);
    assert g == Grown(p + g2.added, g2.offsets, g2.error) && (g2.error.None? ==> g2.added == q - p) &&
      (g2.error.Some? ==> Grow(start, s) == g) by {
      GrowStep(start, s, p, q, mid);
    }
    assert Appended(before, objs, ls[..p + g2.added]) by {
      assert g2.added <= |next| && next[..g2.added] == ls[p..p + g2.added];
      PresentStep(ls, p, g2.added, next, before, objs0, objs);
    }
  }

  /** The objects appended by that add() call follow those appended before it. */
  lemma PresentStep(ls: seq<Option<Object>>, p: nat, a: nat, next: seq<Option<Object>>,
                    start: seq<Object>, before: seq<Object>, after: seq<Object>)
    requires p + a <= |ls| && a <= |next| && next[..a] == ls[p..p + a]
    requires Appended(start, before, ls[..p]) && Appended(before, after, next[..a])
    ensures Appended(start, after, ls[..p + a])
  {
    assert after[..|start|] == before[..|start|];
    forall i | 0 <= i < p + a
      ensures ls[i] == Some(after[|start| + i])
    {
      if i < p {
        assert ls[..p][i] == ls[i];
        assert after[|start| + i] == before[|start| + i];
      } else {
        assert next[..a][i - p] == ls[i];
      }
    }
  }
}
