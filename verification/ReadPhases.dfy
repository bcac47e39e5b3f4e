/** The accumulator of a read: the first round collects readings and tracks the
    largest; the write-back round grows the set of servers known to have caught up. */
module ReadPhases {
  import opened Timestamps
  import opened Quorums

  /** A server's answer to a get request. */
  datatype Reading = Reading(value: Value, ts: Timestamp)

  datatype ReadAcc = ReadAcc(
    maxResp: Option<Reading>,
    agreeWithMax: set<ServerId>,
    getReplies: set<ServerId>,
    wbReplies: set<ServerId>,
    servers: View)

  function NewReadAcc(snapshot: View): ReadAcc {
    ReadAcc(None, {}, {}, {}, snapshot)
  }

  /** Counts a first-round reply; a server's second reply is ignored. */
  function InsertGet(a: ReadAcc, s: ServerId, r: Reading): ReadAcc {
    if s in a.getReplies then a
    else
      var a1 := a.(getReplies := a.getReplies + {s}, servers := a.servers[s := r.ts]);
      if a.maxResp.None? || Lt(a.maxResp.value.ts, r.ts) then a1.(maxResp := Some(r), agreeWithMax := {s})
      else if a.maxResp.value.ts == r.ts then a1.(agreeWithMax := a.agreeWithMax + {s})
      else a1
  }

  /** Counts an acknowledged write-back; `lb` is what the server reports to have reached. */
  function InsertWriteBack(a: ReadAcc, s: ServerId, lb: Timestamp): ReadAcc {
    if s in a.wbReplies then a
    else if s in a.agreeWithMax then a.(wbReplies := a.wbReplies + {s})
    else
      a.(wbReplies := a.wbReplies + {s}, agreeWithMax := a.agreeWithMax + {s},
         servers := if s in a.servers && Lt(a.servers[s], lb) then a.servers[s := lb] else a.servers)
  }

  // ------------------------------------------------------------- invariant

  /** What the accumulator knows of server `s`, given the snapshot sent with the request. */
  ghost predicate KnowsServer(a: ReadAcc, snapshot: View, s: ServerId) {
    && (s in a.servers <==> s in snapshot)
    && (s in a.getReplies || s in a.wbReplies ==> s in snapshot)
    && (s in snapshot ==> Le(snapshot[s], a.servers[s]))
    && (s in snapshot && s !in a.getReplies && s !in a.wbReplies ==> a.servers[s] == snapshot[s])
    && (s in a.agreeWithMax ==>
          (s in a.getReplies || s in a.wbReplies) && a.maxResp.Some? && Le(a.maxResp.value.ts, a.servers[s]))
    && (s in a.wbReplies ==> s in a.agreeWithMax)
    && (a.wbReplies == {} && s in a.getReplies ==>
          && a.maxResp.Some?
          && Le(a.servers[s], a.maxResp.value.ts)
          && (s in a.agreeWithMax <==> a.servers[s] == a.maxResp.value.ts))
  }

  ghost predicate ReadAccInv(a: ReadAcc, snapshot: View) {
    && (forall s :: KnowsServer(a, snapshot, s))
    && (a.maxResp.Some? <==> a.getReplies != {})
    && (a.maxResp.Some? <==> a.agreeWithMax != {})
  }

  lemma NewReadAccInv(snapshot: View)
    ensures ReadAccInv(NewReadAcc(snapshot), snapshot)
  {
    forall s ensures KnowsServer(NewReadAcc(snapshot), snapshot, s) {}
  }

  lemma InsertGetKeeps(a: ReadAcc, snapshot: View, s: ServerId, r: Reading)
    requires ReadAccInv(a, snapshot) && a.wbReplies == {}
    requires s in snapshot && Le(snapshot[s], r.ts)
    ensures ReadAccInv(InsertGet(a, s, r), snapshot)
    ensures Leq(a.servers, InsertGet(a, s, r).servers)
  {
    var a1 := InsertGet(a, s, r);
    assert KnowsServer(a, snapshot, s);
    forall t ensures KnowsServer(a1, snapshot, t) { assert KnowsServer(a, snapshot, t); }
    if s !in a.getReplies {
      assert s in a1.getReplies && s !in a.agreeWithMax;
      assert a1.agreeWithMax != {} by {
        if a.maxResp.Some? && Lt(r.ts, a.maxResp.value.ts) {
          assert a1.agreeWithMax == a.agreeWithMax;
        } else {
          assert s in a1.agreeWithMax;
        }
      }
    }
  }

  lemma InsertWriteBackKeeps(a: ReadAcc, snapshot: View, s: ServerId, lb: Timestamp)
    requires ReadAccInv(a, snapshot) && a.maxResp.Some?
    requires s in snapshot && Le(a.maxResp.value.ts, lb)
    ensures ReadAccInv(InsertWriteBack(a, s, lb), snapshot)
    ensures Leq(a.servers, InsertWriteBack(a, s, lb).servers)
  {
    var a1 := InsertWriteBack(a, s, lb);
    assert KnowsServer(a, snapshot, s);
    assert s in a1.wbReplies;
    forall t ensures KnowsServer(a1, snapshot, t) { assert KnowsServer(a, snapshot, t); }
    assert a1.agreeWithMax != {};
  }

  // ------------------------------------------- what a quorum of replies proves

  /** The largest reading is at least what every majority had reached when the
      request was sent. */
  lemma MaxIsAtLeastMin(a: ReadAcc, snapshot: View, minTs: Timestamp)
    requires ReadAccInv(a, snapshot) && a.wbReplies == {} && QuorumsReach(snapshot, minTs)
    requires |a.getReplies| >= QuorumSize(|snapshot|)
    ensures a.maxResp.Some? && Le(minTs, a.maxResp.value.ts)
  {
    forall s | s in a.getReplies ensures s in snapshot.Keys { assert KnowsServer(a, snapshot, s); }
    QuorumSizeIsMajority(snapshot, a.getReplies);
    var s := ReachWitness(snapshot, a.getReplies, minTs);
    assert KnowsServer(a, snapshot, s);
  }

  /** Once a majority agrees with the largest reading, every majority has reached it. */
  lemma AgreementReachesAll(a: ReadAcc, snapshot: View, now: View)
    requires ReadAccInv(a, snapshot) && Leq(a.servers, now)
    requires |a.agreeWithMax| >= QuorumSize(|snapshot|)
    ensures a.maxResp.Some? && QuorumsReach(now, a.maxResp.value.ts)
  {
    forall s ensures s in a.servers.Keys <==> s in snapshot.Keys { assert KnowsServer(a, snapshot, s); }
    assert a.servers.Keys == snapshot.Keys;
    forall s | s in a.agreeWithMax ensures s in now && Le(a.maxResp.value.ts, now[s]) {
      assert KnowsServer(a, snapshot, s) && Le(a.servers[s], now[s]);
    }
    assert |now| == |now.Keys| && |snapshot| == |snapshot.Keys|;
    QuorumSizeIsMajority(now, a.agreeWithMax);
    assert a.agreeWithMax != {};
    UnanimityReachesAll(now, a.agreeWithMax, a.maxResp.value.ts);
  }
}
