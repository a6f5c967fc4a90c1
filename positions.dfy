module Positions {
  import opened Wrappers
  import opened LevelObject

  /** The coordinate set_position puts at attribute index i, if it writes one there. */
  function Target(i: int, p1: Pair, p2: Option<Pair>, p3: Option<Pair>, p4: Option<Pair>): (r: Option<int>) {
    if 1 <= i <= 8 && Requested((i + 1) / 2, p1, p2, p3, p4).Some? then
      var p := Requested((i + 1) / 2, p1, p2, p3, p4).value;
      Some(if i % 2 == 1 then p.0 else p.1)
    else None
  }

  /** One optional write keeps the length, and changes only the two slots of pair k, to p. */
  lemma WriteOptionalFrame(w: Written, n: int, k: nat, p: Option<Pair>)
    requires k >= 2
    ensures var v := WriteOptional(w, n, k, p);
      |v.attrs| == |w.attrs| &&
      forall i :: 0 <= i < |w.attrs| && v.attrs[i] != w.attrs[i] ==>
        p.Some? && ((i == 2 * k - 1 && v.attrs[i] == I(p.value.0)) || (i == 2 * k && v.attrs[i] == I(p.value.1)))
  {
  }

  /** Writing pair k keeps the length, and changes only the two slots of pair k, to p. */
  lemma WritePairFrame(a: seq<Attr>, k: nat, p: Pair)
    requires k >= 1
    ensures var v := WritePair(a, k, p);
      |v.attrs| == |a| &&
      forall i :: 0 <= i < |a| && v.attrs[i] != a[i] ==>
        (i == 2 * k - 1 && v.attrs[i] == I(p.0)) || (i == 2 * k && v.attrs[i] == I(p.1))
  {
  }

  /** One optional write succeeds when nothing failed before and pair k is within the count and the list. */
  lemma WriteOptionalSucceeds(w: Written, n: int, k: nat, p: Option<Pair>)
    requires k >= 2
    ensures WriteOptional(w, n, k, p).error.None? <==>
      w.error.None? && (p.Some? ==> k <= n && 2 * k < |w.attrs|)
  {
  }

  /** set_position keeps the length and changes an attribute only to the coordinate aimed at it. */
  lemma SetPositionsFrame(attrs: seq<Attr>, count: Option<int>, p1: Pair, p2: Option<Pair>, p3: Option<Pair>, p4: Option<Pair>)
    ensures var w := SetPositions(attrs, count, p1, p2, p3, p4);
      |w.attrs| == |attrs| &&
      forall i :: 0 <= i < |attrs| && w.attrs[i] != attrs[i] ==>
        Target(i, p1, p2, p3, p4).Some? && w.attrs[i] == I(Target(i, p1, p2, p3, p4).value)
  {
    if count.Some? && count.value != 0 {
      var n := count.value;
      var w1 := WritePair(attrs, 1, p1);
      var w2 := WriteOptional(w1, n, 2, p2);
      var w3 := WriteOptional(w2, n, 3, p3);
      var w4 := WriteOptional(w3, n, 4, p4);
      WritePairFrame(attrs, 1, p1);
      WriteOptionalFrame(w1, n, 2, p2);
      WriteOptionalFrame(w2, n, 3, p3);
      WriteOptionalFrame(w3, n, 4, p4);
      forall i | 0 <= i < |attrs| && w4.attrs[i] != attrs[i]
        ensures Target(i, p1, p2, p3, p4).Some? && w4.attrs[i] == I(Target(i, p1, p2, p3, p4).value)
      {
        if i == 1 || i == 2 {
          assert (i + 1) / 2 == 1;
          assert w4.attrs[i] == w1.attrs[i];
        } else if i == 3 || i == 4 {
          assert (i + 1) / 2 == 2;
          assert w4.attrs[i] == w2.attrs[i];
        } else if i == 5 || i == 6 {
          assert (i + 1) / 2 == 3;
          assert w4.attrs[i] == w3.attrs[i];
        } else if i == 7 || i == 8 {
          assert (i + 1) / 2 == 4;
          assert w3.attrs[i] == attrs[i];
        } else {
          assert false;
        }
      }
    }
  }

  /**
   * set_position raises nothing exactly when the count is set and non-zero,
   * every given pair after the first is within the count, and the list is
   * long enough for every given pair.
   */
  lemma SetPositionsSucceeds(attrs: seq<Attr>, count: Option<int>, p1: Pair, p2: Option<Pair>, p3: Option<Pair>, p4: Option<Pair>)
    ensures SetPositions(attrs, count, p1, p2, p3, p4).error.None? <==>
      count.Some? && count.value != 0 &&
      forall k :: 1 <= k <= 4 && Requested(k, p1, p2, p3, p4).Some? ==>
        (k == 1 || k <= count.value) && 2 * k < |attrs|
  {
    if count.Some? && count.value != 0 {
      var n := count.value;
      var w1 := WritePair(attrs, 1, p1);
      var w2 := WriteOptional(w1, n, 2, p2);
      var w3 := WriteOptional(w2, n, 3, p3);
      WriteOptionalFrame(w1, n, 2, p2);
      WriteOptionalFrame(w2, n, 3, p3);
      WriteOptionalSucceeds(w1, n, 2, p2);
      WriteOptionalSucceeds(w2, n, 3, p3);
      WriteOptionalSucceeds(w3, n, 4, p4);
      assert Requested(1, p1, p2, p3, p4) == Some(p1);
      assert Requested(2, p1, p2, p3, p4) == p2;
      assert Requested(3, p1, p2, p3, p4) == p3;
      assert Requested(4, p1, p2, p3, p4) == p4;
    }
  }

  /**
   * Without a count set (or with count 0) set_position writes nothing and
   * raises its own exception, which becomes TypeError when the object's
   * connections cannot be written into the message.
   */
  lemma SetPositionsWithoutCount(attrs: seq<Attr>, count: Option<int>, p1: Pair, p2: Option<Pair>, p3: Option<Pair>, p4: Option<Pair>,
                                 writable: bool)
    requires count.None? || count.value == 0
    ensures SetPositions(attrs, count, p1, p2, p3, p4) == Written(attrs, Some(PositionError))
    ensures Reported(SetPositions(attrs, count, p1, p2, p3, p4).error, writable) ==
      Some(if writable then PositionError else TypeError)
  {
  }

  /** b already holds, in the slots of pair k, what a holds there. */
  predicate SameSlots(a: seq<Attr>, b: seq<Attr>, k: nat) {
    |a| == |b| && (0 <= 2 * k - 1 < |a| ==> a[2 * k - 1] == b[2 * k - 1]) && (0 <= 2 * k < |a| ==> a[2 * k] == b[2 * k])
  }

  /** Rewriting pair k of a list that already holds what the write leaves there changes nothing. */
  lemma WritePairAgain(a: seq<Attr>, b: seq<Attr>, k: nat, p: Pair)
    requires k >= 1 && SameSlots(WritePair(a, k, p).attrs, b, k)
    ensures WritePair(b, k, p) == Written(b, WritePair(a, k, p).error)
  {
    var i := 2 * k - 1;
    if i < |b| {
      assert b[i := I(p.0)] == b;
      if i + 1 < |b| {
        assert b[i := I(p.0)][i + 1 := I(p.1)] == b;
      }
    }
  }

  /** The same for one optional step, given the state the first run was in before it. */
  lemma WriteOptionalAgain(w: Written, b: seq<Attr>, n: int, k: nat, p: Option<Pair>)
    requires k >= 2 && SameSlots(WriteOptional(w, n, k, p).attrs, b, k)
    ensures WriteOptional(Written(b, w.error), n, k, p) == Written(b, WriteOptional(w, n, k, p).error)
  {
    if w.error.None? && p.Some? && n >= k {
      WritePairAgain(w.attrs, b, k, p.value);
    }
  }

  /** Calling set_position twice with the same arguments leaves what one call leaves. */
  lemma SetPositionsIdempotent(attrs: seq<Attr>, count: Option<int>, p1: Pair, p2: Option<Pair>, p3: Option<Pair>, p4: Option<Pair>)
    ensures var w := SetPositions(attrs, count, p1, p2, p3, p4);
      SetPositions(w.attrs, count, p1, p2, p3, p4) == w
  {
    if count.Some? && count.value != 0 {
      var n := count.value;
      var w1 := WritePair(attrs, 1, p1);
      var w2 := WriteOptional(w1, n, 2, p2);
      var w3 := WriteOptional(w2, n, 3, p3);
      var w4 := WriteOptional(w3, n, 4, p4);
      var b := w4.attrs;
      WriteOptionalFrame(w1, n, 2, p2);
      WriteOptionalFrame(w2, n, 3, p3);
      WriteOptionalFrame(w3, n, 4, p4);
      assert SameSlots(w1.attrs, b, 1);
      assert SameSlots(w2.attrs, b, 2);
      assert SameSlots(w3.attrs, b, 3);
      WritePairAgain(attrs, b, 1, p1);
      WriteOptionalAgain(w1, b, n, 2, p2);
      WriteOptionalAgain(w2, b, n, 3, p3);
      WriteOptionalAgain(w3, b, n, 4, p4);
    }
  }

  /** Reading n pairs succeeds with ps when each of the first n pairs reads as ps says. */
  lemma {:induction false} ReadPairsAll(attrs: seq<Attr>, n: nat, ps: seq<Pair>)
    requires n <= |ps|
    requires forall k :: 0 <= k < n ==> PairAt(attrs, k) == Ok(ps[k])
    ensures ReadPairs(attrs, n) == Ok(ps[..n])
  {
    if n > 0 {
      ReadPairsAll(attrs, n - 1, ps);
      assert ps[..n] == ps[..n - 1] + [ps[n - 1]];
    }
  }

  /**
   * get_position after a successful set_position that was given all n pairs
   * returns exactly those pairs.
   */
  lemma SetThenGet(attrs: seq<Attr>, n: nat, p1: Pair, p2: Option<Pair>, p3: Option<Pair>, p4: Option<Pair>)
    requires 1 <= n <= 4 && 2 * n < |attrs|
    requires forall k :: 1 <= k <= 4 ==> (Requested(k, p1, p2, p3, p4).Some? <==> k <= n)
    ensures var w := SetPositions(attrs, Some(n), p1, p2, p3, p4);
      w.error.None? &&
      PositionsOf(w.attrs, Some(n)) ==
        Ok(Some(seq(n, k requires 0 <= k < n => Requested(k + 1, p1, p2, p3, p4).value)))
  {
    var w := SetPositions(attrs, Some(n), p1, p2, p3, p4);
    var ps := seq(n, k requires 0 <= k < n => Requested(k + 1, p1, p2, p3, p4).value);
    SetPositionsSucceeds(attrs, Some(n), p1, p2, p3, p4);
    forall k | 0 <= k < n ensures PairAt(w.attrs, k) == Ok(ps[k]) {
      assert w.attrs[2 * k + 1] == I(ps[k].0) && w.attrs[2 * k + 2] == I(ps[k].1);
    }
    ReadPairsAll(w.attrs, n, ps);
    assert ps[..n] == ps;
  }
}
