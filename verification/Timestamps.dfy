/** Register values and the three-field timestamps that order writes.

    The order is the full lexicographic order on (seqno, clientId, clientCtr).
    Counters are unbounded naturals. */
module Timestamps {

  datatype Option<+T> = None | Some(value: T)

  /** Contents of the register: nothing written yet, or a number. */
  type Value = Option<nat>

  datatype Timestamp = Timestamp(seqno: nat, clientId: nat, clientCtr: nat)

  /** Timestamp of the initial, never written, value. */
  const DEFAULT := Timestamp(0, 0, 0)

  predicate Lt(a: Timestamp, b: Timestamp) {
    || a.seqno < b.seqno
    || (a.seqno == b.seqno && a.clientId < b.clientId)
    || (a.seqno == b.seqno && a.clientId == b.clientId && a.clientCtr < b.clientCtr)
  }

  predicate Le(a: Timestamp, b: Timestamp) {
    Lt(a, b) || a == b
  }

  /** A strict total order: sequence numbers decide, then clients, then counters. */
  lemma LtIsATotalOrder(a: Timestamp, b: Timestamp, c: Timestamp)
    ensures Lt(a, b) && Lt(b, c) ==> Lt(a, c)
    ensures !(Lt(a, b) && Lt(b, a)) && !Lt(a, a)
    ensures Lt(a, b) || a == b || Lt(b, a)
    ensures a.seqno < b.seqno ==> Lt(a, b)
    ensures a.seqno == b.seqno && a.clientId < b.clientId ==> Lt(a, b)
    ensures a.seqno == b.seqno && a.clientId == b.clientId ==> (Lt(a, b) <==> a.clientCtr < b.clientCtr)
    ensures Le(DEFAULT, a)
  {
  }

  function Max(a: Timestamp, b: Timestamp): (m: Timestamp)
    ensures Le(a, m) && Le(b, m) && (m == a || m == b)
  {
    if Lt(a, b) then b else a
  }

  /** A non-empty finite set of timestamps has exactly one least element. */
  lemma {:induction false} LeastExists(s: set<Timestamp>) returns (m: Timestamp)
    requires s != {}
    ensures m in s && forall t :: t in s ==> Le(m, t)
  {
    var x :| x in s;
    var rest := s - {x};
    assert s == {x} + rest;
    if rest == {} {
      m := x;
    } else {
      var r := LeastExists(rest);
      m := if Lt(x, r) then x else r;
    }
  }

  ghost function Least(s: set<Timestamp>): (m: Timestamp)
    requires s != {}
    ensures m in s && forall t :: t in s ==> Le(m, t)
  {
    assert exists m :: m in s && forall t :: t in s ==> Le(m, t) by {
      var w := LeastExists(s);
    }
    var m :| m in s && forall t :: t in s ==> Le(m, t);
    m
  }
}
