/** Majority quorums over a snapshot of the servers' timestamps. */
module Quorums {
  import opened Timestamps

  type ServerId = nat

  /** What is known of each server's timestamp: a snapshot, or a lower bound. */
  type View = map<ServerId, Timestamp>

  type Quorum = set<ServerId>

  ghost predicate ValidQuorum(view: View, q: Quorum) {
    q != {} && q <= view.Keys && 2 * |q| > |view|
  }

  ghost predicate Unanimous(view: View, q: Quorum, t: Timestamp)
    requires q <= view.Keys
  {
    forall s :: s in q ==> Le(t, view[s])
  }

  /** Pointwise order of two views of the same servers. */
  ghost predicate Leq(v: View, w: View) {
    v.Keys == w.Keys && forall s :: s in v ==> Le(v[s], w[s])
  }

  lemma {:induction false} GreatestExists(view: View, q: Quorum) returns (m: ServerId)
    requires q != {} && q <= view.Keys
    ensures m in q && forall s :: s in q ==> Le(view[s], view[m])
  {
    var x :| x in q;
    var rest := q - {x};
    assert q == {x} + rest;
    if rest == {} {
      m := x;
    } else {
      var r := GreatestExists(view, rest);
      m := if Lt(view[r], view[x]) then x else r;
    }
  }

  /** The largest timestamp held in the quorum. */
  ghost function QuorumTimestamp(view: View, q: Quorum): (t: Timestamp)
    requires q != {} && q <= view.Keys
    ensures forall s :: s in q ==> Le(view[s], t)
    ensures exists s :: s in q && view[s] == t
  {
    assert exists m :: m in q && forall s :: s in q ==> Le(view[s], view[m]) by {
      var w := GreatestExists(view, q);
    }
    var m :| m in q && forall s :: s in q ==> Le(view[s], view[m]);
    view[m]
  }

  /** Every majority contains a server at or beyond `t`. */
  ghost predicate QuorumsReach(view: View, t: Timestamp) {
    forall q :: ValidQuorum(view, q) ==> Le(t, QuorumTimestamp(view, q))
  }

  /** The number of replies the clients wait for. */
  function QuorumSize(n: nat): nat {
    n / 2 + 1
  }

  lemma QuorumSizeIsMajority(view: View, q: Quorum)
    requires q <= view.Keys
    ensures |q| >= QuorumSize(|view|) <==> 2 * |q| > |view|
    ensures |q| >= QuorumSize(|view|) ==> ValidQuorum(view, q)
  {
    if |q| >= QuorumSize(|view|) {
      assert |q| > 0;
    }
  }

  lemma {:induction false} SubsetSize(a: set<ServerId>, b: set<ServerId>)
    requires a <= b
    ensures |a| <= |b|
  {
    if a != {} {
      var x :| x in a;
      SubsetSize(a - {x}, b - {x});
    }
  }

  lemma Intersection(view: View, q1: Quorum, q2: Quorum) returns (s: ServerId)
    requires ValidQuorum(view, q1) && ValidQuorum(view, q2)
    ensures s in q1 && s in q2
  {
    if q1 !! q2 {
      assert |view.Keys| == |view| && |q1 + q2| == |q1| + |q2|;
      SubsetSize(q1 + q2, view.Keys);
      assert false;
    }
    s :| s in q1 && s in q2;
  }

  /** A majority that is unanimously at `t` drags every majority to `t`. */
  lemma UnanimityReachesAll(view: View, q: Quorum, t: Timestamp)
    requires ValidQuorum(view, q) && Unanimous(view, q, t)
    ensures QuorumsReach(view, t)
  {
    forall q2 | ValidQuorum(view, q2) ensures Le(t, QuorumTimestamp(view, q2)) {
      var s := Intersection(view, q, q2);
      assert Le(view[s], QuorumTimestamp(view, q2));
    }
  }

  /** Servers only progress, so what every majority reached stays reached. */
  lemma ReachIsMonotone(v: View, w: View, t: Timestamp)
    requires Leq(v, w) && QuorumsReach(v, t)
    ensures QuorumsReach(w, t)
  {
    assert |v| == |v.Keys| && |w| == |w.Keys|;
    forall q | ValidQuorum(w, q) ensures Le(t, QuorumTimestamp(w, q)) {
      assert ValidQuorum(v, q);
      var s :| s in q && v[s] == QuorumTimestamp(v, q);
      assert Le(w[s], QuorumTimestamp(w, q));
    }
  }

  lemma QuorumTimestampIsMonotone(v: View, w: View, q: Quorum)
    requires Leq(v, w) && ValidQuorum(v, q)
    ensures ValidQuorum(w, q) && Le(QuorumTimestamp(v, q), QuorumTimestamp(w, q))
  {
    assert |v| == |v.Keys| && |w| == |w.Keys|;
    var s :| s in q && v[s] == QuorumTimestamp(v, q);
    assert Le(w[s], QuorumTimestamp(w, q));
  }

  lemma ReachWitness(view: View, q: Quorum, t: Timestamp) returns (s: ServerId)
    requires ValidQuorum(view, q) && QuorumsReach(view, t)
    ensures s in q && Le(t, view[s])
  {
    s :| s in q && view[s] == QuorumTimestamp(view, q);
  }

  lemma LeqTransitive(u: View, v: View, w: View)
    requires Leq(u, v) && Leq(v, w)
    ensures Leq(u, w)
  {
    forall s | s in u ensures Le(u[s], w[s]) {
      assert Le(v[s], w[s]);
    }
  }
}
