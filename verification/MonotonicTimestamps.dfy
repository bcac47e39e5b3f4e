/** The resource algebra behind every timestamp that only grows: the right to advance
    it, whole or in two halves, and lower bounds that anyone may keep. */
module MonotonicTimestamps {
  import opened Timestamps

  datatype Right = LowerBound(ts: Timestamp) | FullRight(ts: Timestamp) | HalfRight(ts: Timestamp) | Invalid

  const UNIT := LowerBound(DEFAULT)

  predicate Valid(a: Right) {
    !a.Invalid?
  }

  function Op(a: Right, b: Right): Right {
    match (a, b)
    case (LowerBound(x), LowerBound(y)) => LowerBound(if Lt(y, x) then x else y)
    case (LowerBound(x), FullRight(v)) => if Le(x, v) then b else Invalid
    case (FullRight(v), LowerBound(x)) => if Le(x, v) then a else Invalid
    case (LowerBound(x), HalfRight(v)) => if Le(x, v) then b else Invalid
    case (HalfRight(v), LowerBound(x)) => if Le(x, v) then a else Invalid
    case (HalfRight(v), HalfRight(w)) => if v == w then FullRight(v) else Invalid
    case _ => Invalid
  }

  lemma OpIsACommutativeMonoid(a: Right, b: Right, c: Right)
    ensures Op(a, b) == Op(b, a)
    ensures Op(Op(a, b), c) == Op(a, Op(b, c))
    ensures Op(UNIT, a) == a && Valid(UNIT)
    ensures Valid(Op(a, b)) ==> Valid(a)
  {
  }

  // -------------------------------------------------- everything outstanding

  /** The composition of all pieces of one timestamp. */
  function Total(pieces: seq<Right>): Right {
    if pieces == [] then UNIT else Op(Total(pieces[..|pieces| - 1]), pieces[|pieces| - 1])
  }

  function Weight(a: Right): nat {
    match a
    case FullRight(_) => 2
    case HalfRight(_) => 1
    case _ => 0
  }

  function Rights(pieces: seq<Right>): nat {
    if pieces == [] then 0 else Rights(pieces[..|pieces| - 1]) + Weight(pieces[|pieces| - 1])
  }

  /** The piece agrees with the timestamp being `v`. */
  predicate Fits(a: Right, v: Timestamp) {
    match a
    case LowerBound(x) => Le(x, v)
    case FullRight(w) => w == v
    case HalfRight(w) => w == v
    case Invalid => false
  }

  ghost predicate AllFit(pieces: seq<Right>, v: Timestamp) {
    forall i :: 0 <= i < |pieces| ==> Fits(pieces[i], v)
  }

  /** A whole right is left exactly when both halves of it, or it itself, are there and
      every piece agrees with it; half a right likewise. */
  lemma {:induction false} TotalMeans(pieces: seq<Right>, v: Timestamp)
    ensures Total(pieces) == FullRight(v) <==> Rights(pieces) == 2 && AllFit(pieces, v)
    ensures Total(pieces) == HalfRight(v) <==> Rights(pieces) == 1 && AllFit(pieces, v)
    ensures Total(pieces).LowerBound? ==> Rights(pieces) == 0 && (Le(Total(pieces).ts, v) <==> AllFit(pieces, v))
    ensures Rights(pieces) == 0 && AllFit(pieces, v) ==> Total(pieces).LowerBound?
  {
    if pieces != [] {
      var before, last := pieces[..|pieces| - 1], pieces[|pieces| - 1];
      TotalMeans(before, v);
      assert AllFit(pieces, v) <==> AllFit(before, v) && Fits(last, v);
      if last.FullRight? || last.HalfRight? {
        TotalMeans(before, last.ts);
      }
      if Total(before).FullRight? || Total(before).HalfRight? {
        TotalMeans(before, Total(before).ts);
        assert AllFit(before, v) && Rights(before) > 0 ==> v == Total(before).ts by {
          if AllFit(before, v) && Rights(before) > 0 { RightsFix(before, v, Total(before).ts); }
        }
      }
    }
  }

  /** Whoever holds a right fixes the timestamp. */
  lemma {:induction false} RightsFix(pieces: seq<Right>, v: Timestamp, w: Timestamp)
    requires AllFit(pieces, v) && AllFit(pieces, w) && Rights(pieces) > 0
    ensures v == w
  {
    if pieces != [] && Weight(pieces[|pieces| - 1]) == 0 {
      RightsFix(pieces[..|pieces| - 1], v, w);
    }
  }

  // ------------------------------------------------------- what holders do

  datatype Step =
    | Split(i: nat)
    | Join(i: nat, j: nat)
    | Advance(i: nat, ts: Timestamp)
    | AdvanceHalves(i: nat, j: nat, ts: Timestamp)
    | Extract(i: nat)
    | Weaken(i: nat, ts: Timestamp)

  /** The pieces without the `i`-th. */
  function Without(pieces: seq<Right>, i: nat): seq<Right>
    requires i < |pieces|
  {
    pieces[..i] + pieces[i + 1..]
  }

  predicate CanTake(pieces: seq<Right>, s: Step) {
    match s
    case Split(i) => i < |pieces| && pieces[i].FullRight?
    case Join(i, j) => i < j < |pieces| && Valid(pieces[i]) && Valid(pieces[j]) && pieces[i].ts == pieces[j].ts
    case Advance(i, ts) => i < |pieces| && pieces[i].FullRight? && Lt(pieces[i].ts, ts)
    case AdvanceHalves(i, j, ts) => i < j < |pieces| && pieces[i].HalfRight? && pieces[j].HalfRight?
        && Lt(pieces[i].ts, ts)
    case Extract(i) => i < |pieces| && Valid(pieces[i])
    case Weaken(i, ts) => i < |pieces| && pieces[i].LowerBound? && Le(ts, pieces[i].ts)
  }

  function Taken(pieces: seq<Right>, s: Step): seq<Right>
    requires CanTake(pieces, s)
  {
    match s
    case Split(i) => pieces[i := HalfRight(pieces[i].ts)] + [HalfRight(pieces[i].ts)]
    case Join(i, j) => Without(pieces[i := Op(pieces[i], pieces[j])], j)
    case Advance(i, ts) => pieces[i := FullRight(ts)]
    case AdvanceHalves(i, j, ts) => pieces[i := HalfRight(ts)][j := HalfRight(ts)]
    case Extract(i) => pieces + [LowerBound(pieces[i].ts)]
    case Weaken(i, ts) => pieces + [LowerBound(ts)]
  }

  /** All pieces but those in two places are as before. */
  ghost predicate SameBut(pieces: seq<Right>, p1: seq<Right>, i: nat, j: nat) {
    |pieces| <= |p1| && forall k :: 0 <= k < |pieces| && k != i && k != j ==> p1[k] == pieces[k]
  }

  /** What each step leaves in the holders' hands: a split makes two halves of a whole at
      its timestamp, a join makes one piece of two, an advance moves every part of a whole
      right, and what is extracted is a bound at the very timestamp. */
  ghost predicate TakenIs(pieces: seq<Right>, s: Step, p1: seq<Right>)
    requires CanTake(pieces, s)
  {
    var n := |pieces|;
    match s
    case Split(i) =>
      && |p1| == n + 1 && SameBut(pieces, p1, i, i)
      && p1[i] == p1[n] && p1[n].HalfRight? && p1[n].ts == pieces[i].ts && Op(p1[i], p1[n]) == pieces[i]
    case Join(i, j) =>
      && |p1| == n - 1 && p1[i] == Op(pieces[i], pieces[j])
      && (pieces[i].HalfRight? && pieces[j].HalfRight? ==> p1[i].FullRight?)
      && (forall k :: 0 <= k < j && k != i ==> p1[k] == pieces[k])
      && (forall k :: j <= k < n - 1 ==> p1[k] == pieces[k + 1])
    case Advance(i, ts) => |p1| == n && SameBut(pieces, p1, i, i) && p1[i].FullRight? && p1[i].ts == ts
    case AdvanceHalves(i, j, ts) =>
      && |p1| == n && SameBut(pieces, p1, i, j)
      && p1[i] == p1[j] && p1[i].HalfRight? && p1[i].ts == ts
    case Extract(i) =>
      |p1| == n + 1 && SameBut(pieces, p1, n, n) && p1[n].LowerBound? && p1[n].ts == pieces[i].ts
    case Weaken(i, ts) => |p1| == n + 1 && SameBut(pieces, p1, n, n) && p1[n].LowerBound? && p1[n].ts == ts
  }

  lemma TakenMeans(pieces: seq<Right>, s: Step)
    requires CanTake(pieces, s)
    ensures TakenIs(pieces, s, Taken(pieces, s))
  {
  }

  lemma {:induction false} RightsAdd(pieces: seq<Right>, more: seq<Right>)
    ensures Rights(pieces + more) == Rights(pieces) + Rights(more)
  {
    if more == [] {
      assert pieces + more == pieces;
    } else {
      RightsAdd(pieces, more[..|more| - 1]);
      assert (pieces + more)[..|pieces + more| - 1] == pieces + more[..|more| - 1];
    }
  }

  lemma RightsOne(a: Right)
    ensures Rights([a]) == Weight(a)
  {
    assert [a][..0] == [];
  }

  lemma RightsUpdate(pieces: seq<Right>, i: nat, a: Right)
    requires i < |pieces|
    ensures Rights(pieces[i := a]) + Weight(pieces[i]) == Rights(pieces) + Weight(a)
    ensures Rights(Without(pieces, i)) + Weight(pieces[i]) == Rights(pieces)
  {
    var l, r := pieces[..i], pieces[i + 1..];
    assert pieces == l + ([pieces[i]] + r) && pieces[i := a] == l + ([a] + r);
    RightsAdd(l, [pieces[i]] + r);
    RightsAdd(l, [a] + r);
    RightsAdd([pieces[i]], r);
    RightsAdd([a], r);
    RightsAdd(l, r);
    RightsOne(a);
    RightsOne(pieces[i]);
  }

  /** Two halves cannot disagree: with a third piece of a right there would be too many. */
  lemma PairWeight(pieces: seq<Right>, i: nat, j: nat)
    requires i < j < |pieces|
    ensures Weight(pieces[i]) + Weight(pieces[j]) <= Rights(pieces)
  {
    RightsUpdate(pieces, j, UNIT);
    RightsUpdate(Without(pieces, j), i, UNIT);
  }

  ghost predicate Whole(pieces: seq<Right>, v: Timestamp) {
    Rights(pieces) == 2 && AllFit(pieces, v)
  }

  lemma OneMoreWeight(pieces: seq<Right>, i: nat, j: nat, k: nat)
    requires i < |pieces| && j < |pieces| && k < |pieces| && i < j && k != i && k != j
    ensures Weight(pieces[i]) + Weight(pieces[j]) + Weight(pieces[k]) <= Rights(pieces)
  {
    var p1 := pieces[k := UNIT];
    RightsUpdate(pieces, k, UNIT);
    PairWeight(p1, i, j);
  }

  lemma JoinKeepsWhole(pieces: seq<Right>, i: nat, j: nat, v: Timestamp)
    requires Whole(pieces, v) && CanTake(pieces, Join(i, j))
    ensures Whole(Taken(pieces, Join(i, j)), v)
  {
    var p1 := pieces[i := Op(pieces[i], pieces[j])];
    PairWeight(pieces, i, j);
    RightsUpdate(pieces, i, Op(pieces[i], pieces[j]));
    RightsUpdate(p1, j, UNIT);
    assert Fits(pieces[i], v) && Fits(pieces[j], v);
    assert AllFit(p1, v);
  }

  lemma AdvanceKeepsWhole(pieces: seq<Right>, i: nat, ts: Timestamp, v: Timestamp)
    requires Whole(pieces, v) && CanTake(pieces, Advance(i, ts))
    ensures Whole(Taken(pieces, Advance(i, ts)), ts) && Lt(v, ts)
  {
    RightsUpdate(pieces, i, FullRight(ts));
    assert Fits(pieces[i], v);
    forall k | 0 <= k < |pieces| && k != i ensures Fits(pieces[k], ts) {
      PairWeight(pieces, if i < k then i else k, if i < k then k else i);
      assert Fits(pieces[k], v);
    }
  }

  lemma AdvanceHalvesKeepsWhole(pieces: seq<Right>, i: nat, j: nat, ts: Timestamp, v: Timestamp)
    requires Whole(pieces, v) && CanTake(pieces, AdvanceHalves(i, j, ts))
    ensures Whole(Taken(pieces, AdvanceHalves(i, j, ts)), ts) && Lt(v, ts)
  {
    RightsUpdate(pieces, i, HalfRight(ts));
    RightsUpdate(pieces[i := HalfRight(ts)], j, HalfRight(ts));
    assert Fits(pieces[i], v);
    forall k | 0 <= k < |pieces| && k != i && k != j ensures Fits(pieces[k], ts) {
      OneMoreWeight(pieces, i, j, k);
      assert Fits(pieces[k], v);
    }
  }

  lemma AddedKeepsWhole(pieces: seq<Right>, a: Right, v: Timestamp)
    requires AllFit(pieces, v) && Fits(a, v) && Rights(pieces) + Weight(a) == 2
    ensures Whole(pieces + [a], v)
  {
    RightsAdd(pieces, [a]);
    RightsOne(a);
  }

  /** Every step keeps the right whole; the timestamp moves only by an advance, and then up. */
  lemma StepKeepsWhole(pieces: seq<Right>, s: Step, v: Timestamp)
    requires Whole(pieces, v) && CanTake(pieces, s)
    ensures Whole(Taken(pieces, s), if s.Advance? || s.AdvanceHalves? then s.ts else v)
    ensures s.Advance? || s.AdvanceHalves? ==> Lt(v, s.ts)
  {
    assert s.i < |pieces| ==> Fits(pieces[s.i], v);
    match s
    case Split(i) =>
      RightsUpdate(pieces, i, HalfRight(v));
      AddedKeepsWhole(pieces[i := HalfRight(v)], HalfRight(v), v);
    case Join(i, j) => JoinKeepsWhole(pieces, i, j, v);
    case Advance(i, ts) => AdvanceKeepsWhole(pieces, i, ts, v);
    case AdvanceHalves(i, j, ts) => AdvanceHalvesKeepsWhole(pieces, i, j, ts, v);
    case Extract(i) => AddedKeepsWhole(pieces, LowerBound(pieces[i].ts), v);
    case Weaken(i, ts) => AddedKeepsWhole(pieces, LowerBound(ts), v);
  }

  ghost predicate IsRun(states: seq<seq<Right>>, steps: seq<Step>) {
    && |states| == |steps| + 1
    && states[0] == [FullRight(DEFAULT)]
    && forall n :: 0 <= n < |steps| ==> CanTake(states[n], steps[n]) && states[n + 1] == Taken(states[n], steps[n])
  }

  /** After any sequence of splits, joins, advances, extractions and weakenings, the pieces
      make up one right: both halves are at the same timestamp and every lower bound
      handed out is below it. */
  lemma {:induction false} RunsStayWhole(states: seq<seq<Right>>, steps: seq<Step>, n: nat) returns (v: Timestamp)
    requires IsRun(states, steps) && n < |states|
    ensures Whole(states[n], v) && Total(states[n]) == FullRight(v)
  {
    if n == 0 {
      v := DEFAULT;
      RightsOne(FullRight(DEFAULT));
    } else {
      var v0 := RunsStayWhole(states, steps, n - 1);
      var s := steps[n - 1];
      StepKeepsWhole(states[n - 1], s, v0);
      v := if s.Advance? || s.AdvanceHalves? then s.ts else v0;
    }
    TotalMeans(states[n], v);
  }

  /** Somebody holds half a right if there is one. */
  lemma {:induction false} HalfHolder(pieces: seq<Right>) returns (i: nat)
    requires Rights(pieces) == 1
    ensures i < |pieces| && pieces[i].HalfRight?
  {
    i := |pieces| - 1;
    if Weight(pieces[i]) == 0 {
      i := HalfHolder(pieces[..i]);
    }
  }

  /** A whole right is never stuck: it is in one hand or in two, which can advance it to
      any later timestamp. */
  lemma {:induction false} WholeCanAdvance(pieces: seq<Right>, v: Timestamp, ts: Timestamp) returns (s: Step)
    requires Whole(pieces, v) && Lt(v, ts)
    ensures (s.Advance? || s.AdvanceHalves?) && s.ts == ts && CanTake(pieces, s)
  {
    var last := |pieces| - 1;
    assert Fits(pieces[last], v);
    if pieces[last].FullRight? {
      s := Advance(last, ts);
    } else if pieces[last].HalfRight? {
      var i := HalfHolder(pieces[..last]);
      assert Fits(pieces[i], v);
      s := AdvanceHalves(i, last, ts);
    } else {
      assert AllFit(pieces[..last], v);
      s := WholeCanAdvance(pieces[..last], v, ts);
    }
  }

  // -------------------------------------------------------------- in place

  /** A piece as its holder changes it. Nobody else's pieces are invalidated by it. */
  class MonotonicTimestampResource {
    var value: Right

    constructor ()
      ensures value == FullRight(DEFAULT)
    {
      value := FullRight(DEFAULT);
    }

    method AdvanceTo(ts: Timestamp)
      requires value.FullRight? && Lt(value.ts, ts)
      modifies this
      ensures value == FullRight(ts)
      ensures forall frame :: Valid(Op(old(value), frame)) ==> Valid(Op(value, frame))
    {
      AdvancePreservesFrames(value.ts, ts);
      value := FullRight(ts);
    }

    /** Needs both halves, which agree because their composition is valid. */
    method AdvanceHalvesTo(other: MonotonicTimestampResource, ts: Timestamp)
      requires other != this && value.HalfRight? && other.value.HalfRight? && Valid(Op(value, other.value))
          && Lt(value.ts, ts)
      modifies this, other
      ensures value == HalfRight(ts) && other.value == HalfRight(ts)
      ensures forall frame :: Valid(Op(Op(old(value), old(other.value)), frame)) ==>
          Valid(Op(Op(value, other.value), frame))
    {
      AdvancePreservesFrames(value.ts, ts);
      value := HalfRight(ts);
      other.value := HalfRight(ts);
    }
  }

  lemma AdvancePreservesFrames(v: Timestamp, ts: Timestamp)
    requires Lt(v, ts)
    ensures forall frame :: Valid(Op(FullRight(v), frame)) ==> Valid(Op(FullRight(ts), frame))
  {
  }

  /** Half a right must not be advanced alone: the other half forbids it. */
  lemma HalfCannotAdvance(v: Timestamp, ts: Timestamp)
    requires Lt(v, ts)
    ensures Valid(Op(HalfRight(v), HalfRight(v))) && !Valid(Op(HalfRight(ts), HalfRight(v)))
  {
  }
}
