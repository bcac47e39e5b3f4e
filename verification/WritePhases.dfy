/** The two accumulators of a write: the largest timestamp over a majority, then the
    acknowledgements of the chosen one. */
module WritePhases {
  import opened Timestamps
  import opened Quorums

  datatype QueryAcc = QueryAcc(
    maxResp: Option<Timestamp>,
    agreeWithMax: set<ServerId>,
    replies: set<ServerId>,
    servers: View)

  function NewQueryAcc(snapshot: View): QueryAcc {
    QueryAcc(None, {}, {}, snapshot)
  }

  /** Counts a timestamp reply; a server's second reply is ignored. */
  function InsertTimestamp(a: QueryAcc, s: ServerId, ts: Timestamp): QueryAcc {
    if s in a.replies then a
    else
      var a1 := a.(replies := a.replies + {s}, servers := a.servers[s := ts]);
      if a.maxResp.None? || Lt(a.maxResp.value, ts) then a1.(maxResp := Some(ts), agreeWithMax := {s})
      else if a.maxResp.value == ts then a1.(agreeWithMax := a.agreeWithMax + {s})
      else a1
  }

  /** The timestamp a client gives its write, above everything the quorum reported. */
  function NextTimestamp(max: Timestamp, clientId: nat, clientCtr: nat): (ts: Timestamp)
    ensures Lt(max, ts)
  {
    Timestamp(max.seqno + 1, clientId, clientCtr)
  }

  /** What the query knows of server `s`, given the snapshot sent with the request. */
  ghost predicate QueryKnows(a: QueryAcc, snapshot: View, s: ServerId) {
    && (s in a.servers <==> s in snapshot)
    && (s in a.replies ==> s in snapshot)
    && (s in snapshot ==> Le(snapshot[s], a.servers[s]))
    && (s in snapshot && s !in a.replies ==> a.servers[s] == snapshot[s])
    && (s in a.agreeWithMax ==> s in a.replies)
    && (s in a.replies ==>
          && a.maxResp.Some?
          && Le(a.servers[s], a.maxResp.value)
          && (s in a.agreeWithMax <==> a.servers[s] == a.maxResp.value))
  }

  ghost predicate QueryAccInv(a: QueryAcc, snapshot: View) {
    && (forall s :: QueryKnows(a, snapshot, s))
    && (a.maxResp.Some? <==> a.replies != {})
    && (a.maxResp.Some? <==> a.agreeWithMax != {})
  }

  lemma NewQueryAccInv(snapshot: View)
    ensures QueryAccInv(NewQueryAcc(snapshot), snapshot)
  {
    forall s ensures QueryKnows(NewQueryAcc(snapshot), snapshot, s) {}
  }

  lemma InsertTimestampKeeps(a: QueryAcc, snapshot: View, s: ServerId, ts: Timestamp)
    requires QueryAccInv(a, snapshot) && s in snapshot && Le(snapshot[s], ts)
    ensures QueryAccInv(InsertTimestamp(a, s, ts), snapshot)
    ensures Leq(a.servers, InsertTimestamp(a, s, ts).servers)
  {
    var a1 := InsertTimestamp(a, s, ts);
    assert QueryKnows(a, snapshot, s);
    forall t ensures QueryKnows(a1, snapshot, t) { assert QueryKnows(a, snapshot, t); }
    if s !in a.replies {
      assert s in a1.replies;
      assert a1.agreeWithMax != {} by {
        if a.maxResp.Some? && Lt(ts, a.maxResp.value) {
          assert a1.agreeWithMax == a.agreeWithMax;
        } else {
          assert s in a1.agreeWithMax;
        }
      }
    }
  }

  /** A majority's largest reply is its quorum timestamp in the client's view, and
      lies at or above everything every majority had reached at the start. */
  lemma MaxIsQuorumTimestamp(a: QueryAcc, snapshot: View)
    requires QueryAccInv(a, snapshot) && |a.replies| >= QuorumSize(|snapshot|)
    ensures a.maxResp.Some? && ValidQuorum(a.servers, a.replies)
    ensures QuorumTimestamp(a.servers, a.replies) == a.maxResp.value
    ensures forall minTs :: QuorumsReach(snapshot, minTs) ==> Le(minTs, a.maxResp.value)
  {
    forall s ensures (s in a.servers.Keys <==> s in snapshot.Keys) && (s in a.replies ==> s in snapshot) {
      assert QueryKnows(a, snapshot, s);
    }
    assert a.servers.Keys == snapshot.Keys;
    assert |a.servers| == |a.servers.Keys| && |snapshot| == |snapshot.Keys|;
    QuorumSizeIsMajority(a.servers, a.replies);
    var top := QuorumTimestamp(a.servers, a.replies);
    var s :| s in a.replies && a.servers[s] == top;
    var w :| w in a.agreeWithMax;
    assert QueryKnows(a, snapshot, s) && QueryKnows(a, snapshot, w);
    assert Leq(snapshot, a.servers) by {
      forall t | t in snapshot ensures Le(snapshot[t], a.servers[t]) { assert QueryKnows(a, snapshot, t); }
    }
    forall minTs | QuorumsReach(snapshot, minTs) ensures Le(minTs, a.maxResp.value) {
      ReachIsMonotone(snapshot, a.servers, minTs);
    }
  }

  datatype AckAcc = AckAcc(replies: set<ServerId>, servers: View)

  function NewAckAcc(snapshot: View): AckAcc {
    AckAcc({}, snapshot)
  }

  /** Counts an acknowledgement; `lb` is what the server reports to have reached. */
  function InsertAck(a: AckAcc, s: ServerId, lb: Timestamp): AckAcc {
    if s in a.replies then a
    else a.(replies := a.replies + {s}, servers := if s in a.servers
        && Lt(a.servers[s], lb) then a.servers[s := lb] else a.servers)
  }

  ghost predicate AckKnows(a: AckAcc, snapshot: View, ts: Timestamp, s: ServerId) {
    && (s in a.servers <==> s in snapshot)
    && (s in a.replies ==> s in snapshot && Le(ts, a.servers[s]))
    && (s in snapshot ==> Le(snapshot[s], a.servers[s]))
    && (s in snapshot && s !in a.replies ==> a.servers[s] == snapshot[s])
  }

  ghost predicate AckAccInv(a: AckAcc, snapshot: View, ts: Timestamp) {
    forall s :: AckKnows(a, snapshot, ts, s)
  }

  lemma NewAckAccInv(snapshot: View, ts: Timestamp)
    ensures AckAccInv(NewAckAcc(snapshot), snapshot, ts)
  {
    forall s ensures AckKnows(NewAckAcc(snapshot), snapshot, ts, s) {}
  }

  lemma InsertAckKeeps(a: AckAcc, snapshot: View, ts: Timestamp, s: ServerId, lb: Timestamp)
    requires AckAccInv(a, snapshot, ts) && s in snapshot && Le(ts, lb)
    ensures AckAccInv(InsertAck(a, s, lb), snapshot, ts)
    ensures Leq(a.servers, InsertAck(a, s, lb).servers)
  {
    var a1 := InsertAck(a, s, lb);
    assert AckKnows(a, snapshot, ts, s);
    forall t ensures AckKnows(a1, snapshot, ts, t) { assert AckKnows(a, snapshot, ts, t); }
  }

  /** A majority of acknowledgements puts every majority at or beyond the timestamp. */
  lemma AcksReachAll(a: AckAcc, snapshot: View, ts: Timestamp, now: View)
    requires AckAccInv(a, snapshot, ts) && Leq(a.servers, now) && |a.replies| >= QuorumSize(|snapshot|)
    ensures QuorumsReach(now, ts)
  {
    forall s ensures s in a.servers.Keys <==> s in snapshot.Keys { assert AckKnows(a, snapshot, ts, s); }
    assert a.servers.Keys == snapshot.Keys;
    forall s | s in a.replies ensures s in now && Le(ts, now[s]) {
      assert AckKnows(a, snapshot, ts, s) && Le(a.servers[s], now[s]);
    }
    assert |now| == |now.Keys| && |snapshot| == |snapshot.Keys|;
    QuorumSizeIsMajority(now, a.replies);
    UnanimityReachesAll(now, a.replies, ts);
  }
}
