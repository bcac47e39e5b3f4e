/** The accumulators that a client feeds with replies, changed in place, and what they
    hold after any sequence of replies, in any order and with any duplicates. */
module Accumulators {
  import opened Timestamps
  import opened Quorums
  import opened ReadPhases
  import opened WritePhases

  // ------------------------------------------------------------- classes

  class ReadAccumulator {
    var maxResp: Option<Reading>
    var agreeWithMax: set<ServerId>
    var getReplies: set<ServerId>
    var wbReplies: set<ServerId>
    var servers: View

    function Contents(): ReadAcc
      reads this
    {
      ReadAcc(maxResp, agreeWithMax, getReplies, wbReplies, servers)
    }

    constructor (snapshot: View)
      ensures Contents() == NewReadAcc(snapshot)
    {
      maxResp, agreeWithMax, getReplies, wbReplies, servers := None, {}, {}, {}, snapshot;
    }

    /** A larger reading starts the agreeing set anew; an equal one joins it. */
    method UpdateMaxRespAndQuorum(id: ServerId, resp: Reading)
      requires id !in agreeWithMax && id !in getReplies
      modifies this`maxResp, this`agreeWithMax, this`getReplies
      ensures getReplies == old(getReplies) + {id}
      ensures maxResp.Some? && Le(resp.ts, maxResp.value.ts)
      ensures maxResp == old(maxResp) || maxResp == Some(resp)
      ensures maxResp == Some(resp) && maxResp != old(maxResp) <==>
          old(maxResp).None? || Lt(old(maxResp).value.ts, resp.ts)
      ensures agreeWithMax ==
        (if maxResp == old(maxResp) then old(agreeWithMax) else {}) + (if resp.ts == maxResp.value.ts then {id} else {})
    {
      var newVal: Option<Reading> := None;
      if maxResp.Some? {
        if Lt(maxResp.value.ts, resp.ts) {
          newVal := Some(resp);
        } else if resp.ts == maxResp.value.ts {
          agreeWithMax := agreeWithMax + {id};
        }
      } else {
        newVal := Some(resp);
      }
      if newVal.Some? {
        maxResp := newVal;
        agreeWithMax := {};
        agreeWithMax := agreeWithMax + {id};
      }
      getReplies := getReplies + {id};
    }

    method InsertGetReply(id: ServerId, resp: Reading, ghost snapshot: View)
      requires ReadAccInv(Contents(), snapshot) && wbReplies == {}
      requires id in snapshot && Le(snapshot[id], resp.ts)
      modifies this`maxResp, this`agreeWithMax, this`getReplies, this`servers
      ensures Contents() == InsertGet(old(Contents()), id, resp)
      ensures ReadAccInv(Contents(), snapshot) && Leq(old(servers), servers)
    {
      InsertGetKeeps(Contents(), snapshot, id, resp);
      if id in getReplies {
        return;
      }
      assert KnowsServer(Contents(), snapshot, id);
      servers := servers[id := resp.ts];
      UpdateMaxRespAndQuorum(id, resp);
    }

    method InsertWriteBackReply(id: ServerId, lb: Timestamp, ghost snapshot: View)
      requires ReadAccInv(Contents(), snapshot) && maxResp.Some?
      requires id in snapshot && Le(maxResp.value.ts, lb)
      modifies this`agreeWithMax, this`wbReplies, this`servers
      ensures Contents() == InsertWriteBack(old(Contents()), id, lb)
      ensures ReadAccInv(Contents(), snapshot) && Leq(old(servers), servers)
    {
      InsertWriteBackKeeps(Contents(), snapshot, id, lb);
      assert KnowsServer(Contents(), snapshot, id);
      if id in wbReplies {
        return;
      }
      if id in agreeWithMax {
        wbReplies := wbReplies + {id};
        return;
      }
      if Lt(servers[id], lb) {
        servers := servers[id := lb];
      }
      agreeWithMax := agreeWithMax + {id};
      wbReplies := wbReplies + {id};
    }
  }

  class GetTimestampAccumulator {
    var maxResp: Option<Timestamp>
    var agreeWithMax: set<ServerId>
    var replies: set<ServerId>
    var servers: View

    function Contents(): QueryAcc
      reads this
    {
      QueryAcc(maxResp, agreeWithMax, replies, servers)
    }

    constructor (snapshot: View)
      ensures Contents() == NewQueryAcc(snapshot)
    {
      maxResp, agreeWithMax, replies, servers := None, {}, {}, snapshot;
    }

    method Insert(id: ServerId, ts: Timestamp, ghost snapshot: View)
      requires QueryAccInv(Contents(), snapshot) && id in snapshot && Le(snapshot[id], ts)
      modifies this
      ensures Contents() == InsertTimestamp(old(Contents()), id, ts)
      ensures QueryAccInv(Contents(), snapshot) && Leq(old(servers), servers)
    {
      InsertTimestampKeeps(Contents(), snapshot, id, ts);
      if id in replies {
        return;
      }
      servers := servers[id := ts];
      var newVal: Option<Timestamp> := None;
      if maxResp.Some? {
        if Lt(maxResp.value, ts) {
          newVal := Some(ts);
        } else if ts == maxResp.value {
          agreeWithMax := agreeWithMax + {id};
        }
      } else {
        newVal := Some(ts);
      }
      if newVal.Some? {
        maxResp := newVal;
        agreeWithMax := {id};
      }
      replies := replies + {id};
    }
  }

  class WriteAccumulator {
    var replies: set<ServerId>
    var servers: View

    function Contents(): AckAcc
      reads this
    {
      AckAcc(replies, servers)
    }

    constructor (snapshot: View)
      ensures Contents() == NewAckAcc(snapshot)
    {
      replies, servers := {}, snapshot;
    }

    method Insert(id: ServerId, lb: Timestamp, ghost snapshot: View, ghost ts: Timestamp)
      requires AckAccInv(Contents(), snapshot, ts) && id in snapshot && Le(ts, lb)
      modifies this
      ensures Contents() == InsertAck(old(Contents()), id, lb)
      ensures AckAccInv(Contents(), snapshot, ts) && Leq(old(servers), servers)
    {
      InsertAckKeeps(Contents(), snapshot, ts, id, lb);
      assert AckKnows(Contents(), snapshot, ts, id);
      if id in replies {
        return;
      }
      if Lt(servers[id], lb) {
        servers := servers[id := lb];
      }
      replies := replies + {id};
    }
  }

  // ------------------------------------------------- any sequence of readings

  /** The first reply of a server: the only one that counts. */
  function First<R>(replies: seq<(ServerId, R)>, s: ServerId): Option<R> {
    if replies == [] then None
    else
      var before := First(replies[..|replies| - 1], s);
      if before.Some? then before
      else if replies[|replies| - 1].0 == s then Some(replies[|replies| - 1].1)
      else None
  }

  function FoldGets(snapshot: View, replies: seq<(ServerId, Reading)>): ReadAcc {
    if replies == [] then NewReadAcc(snapshot)
    else
      var (s, r) := replies[|replies| - 1];
      InsertGet(FoldGets(snapshot, replies[..|replies| - 1]), s, r)
  }

  /** What the accumulator holds of server `s`, in terms of the replies alone. */
  ghost predicate CountedAt(a: ReadAcc, snapshot: View, replies: seq<(ServerId, Reading)>, s: ServerId) {
    var f := First(replies, s);
    && (s in a.getReplies <==> f.Some?)
    && (f.Some? ==> s in a.servers && a.servers[s] == f.value.ts)
    && (f.None? ==> (s in a.servers <==> s in snapshot) && (s in snapshot ==> a.servers[s] == snapshot[s]))
    && (f.Some? ==> a.maxResp.Some? && Le(f.value.ts, a.maxResp.value.ts))
    && (s in a.agreeWithMax <==> f.Some? && a.maxResp.Some? && f.value.ts == a.maxResp.value.ts)
  }

  /** After any sequence of replies the accumulator holds a reply with the largest
      timestamp among those counted, and exactly the servers whose counted reply has it. */
  lemma {:induction false} GetsAreCounted(snapshot: View, replies: seq<(ServerId, Reading)>)
    ensures forall s :: CountedAt(FoldGets(snapshot, replies), snapshot, replies, s)
    ensures FoldGets(snapshot, replies).maxResp.Some? <==> replies != []
    ensures replies != [] ==> exists s :: First(replies, s) == FoldGets(snapshot, replies).maxResp
    ensures FoldGets(snapshot, replies).wbReplies == {}
  {
    var a1 := FoldGets(snapshot, replies);
    if replies == [] {
      forall s ensures CountedAt(a1, snapshot, replies, s) {}
    } else {
      var before := replies[..|replies| - 1];
      var (s, r) := replies[|replies| - 1];
      var a := FoldGets(snapshot, before);
      GetsAreCounted(snapshot, before);
      assert CountedAt(a, snapshot, before, s);
      forall t ensures CountedAt(a1, snapshot, replies, t) { assert CountedAt(a, snapshot, before, t); }
      if a1.maxResp == a.maxResp {
        var t :| First(before, t) == a.maxResp;
        assert First(replies, t) == a1.maxResp;
      } else {
        assert First(replies, s) == a1.maxResp;
      }
    }
  }

  lemma SameLargest(a: ReadAcc, b: ReadAcc, snapshot: View, p: seq<(ServerId, Reading)>, q: seq<(ServerId, Reading)>)
    requires forall s :: CountedAt(a, snapshot, p, s)
    requires forall s :: CountedAt(b, snapshot, q, s)
    requires forall s :: First(p, s) == First(q, s)
    requires forall s, t :: First(p, s).Some? && First(p, t).Some? && First(p, s).value.ts == First(p, t).value.ts ==>
               First(p, s) == First(p, t)
    requires a.maxResp.Some? ==> exists s :: First(p, s) == a.maxResp
    requires b.maxResp.Some? ==> exists s :: First(q, s) == b.maxResp
    ensures a.maxResp == b.maxResp
  {
    if a.maxResp.Some? {
      var s :| First(p, s) == a.maxResp;
      assert CountedAt(b, snapshot, q, s);
    }
    if b.maxResp.Some? {
      var t :| First(q, t) == b.maxResp;
      assert CountedAt(a, snapshot, p, t);
    }
  }

  /** The order in which servers' counted replies arrived does not matter, when equal
      timestamps carry equal values. */
  lemma GetsInAnyOrder(snapshot: View, p: seq<(ServerId, Reading)>, q: seq<(ServerId, Reading)>)
    requires forall s :: First(p, s) == First(q, s)
    requires forall s, t :: First(p, s).Some? && First(p, t).Some? && First(p, s).value.ts == First(p, t).value.ts ==>
               First(p, s) == First(p, t)
    ensures FoldGets(snapshot, p) == FoldGets(snapshot, q)
  {
    var a, b := FoldGets(snapshot, p), FoldGets(snapshot, q);
    GetsAreCounted(snapshot, p);
    GetsAreCounted(snapshot, q);
    SameLargest(a, b, snapshot, p, q);
    SameAgreement(a, b, snapshot, p, q);
  }

  lemma SameAgreement(a: ReadAcc, b: ReadAcc, snapshot: View, p: seq<(ServerId, Reading)>, q: seq<(ServerId, Reading)>)
    requires forall s :: CountedAt(a, snapshot, p, s)
    requires forall s :: CountedAt(b, snapshot, q, s)
    requires forall s :: First(p, s) == First(q, s)
    requires a.maxResp == b.maxResp && a.wbReplies == b.wbReplies
    ensures a == b
  {
    forall s ensures (s in a.getReplies <==> s in b.getReplies) && (s in a.agreeWithMax <==> s in b.agreeWithMax)
                  && (s in a.servers <==> s in b.servers) && (s in a.servers ==> a.servers[s] == b.servers[s]) {
      assert CountedAt(a, snapshot, p, s) && CountedAt(b, snapshot, q, s);
    }
    assert a.servers == b.servers;
  }

  // ----------------------------------------------- then any sequence of write-backs

  function FoldWriteBacks(a: ReadAcc, acks: seq<(ServerId, Timestamp)>): ReadAcc {
    if acks == [] then a
    else
      var (s, lb) := acks[|acks| - 1];
      InsertWriteBack(FoldWriteBacks(a, acks[..|acks| - 1]), s, lb)
  }

  /** Write-back replies never change the reading; they add to the agreeing set exactly
      the servers that answered, each of them known to have reached the timestamp. */
  lemma {:induction false} WriteBacksGrowAgreement(a: ReadAcc, snapshot: View, acks: seq<(ServerId, Timestamp)>)
    requires ReadAccInv(a, snapshot) && a.maxResp.Some?
    requires forall i :: 0 <= i < |acks| ==> acks[i].0 in snapshot && Le(a.maxResp.value.ts, acks[i].1)
    ensures
      var b := FoldWriteBacks(a, acks);
      && ReadAccInv(b, snapshot)
      && b.maxResp == a.maxResp && b.getReplies == a.getReplies
      && (forall s :: s in b.agreeWithMax <==> s in a.agreeWithMax || First(acks, s).Some? || s in a.wbReplies)
      && (forall s :: s in b.agreeWithMax ==> s in b.servers && Le(a.maxResp.value.ts, b.servers[s]))
      && Leq(a.servers, b.servers)
  {
    if acks == [] {
      forall s ensures s in a.agreeWithMax ==> s in a.servers && Le(a.maxResp.value.ts, a.servers[s]) {
        assert KnowsServer(a, snapshot, s);
      }
      forall s ensures s in a.wbReplies ==> s in a.agreeWithMax { assert KnowsServer(a, snapshot, s); }
    } else {
      var before := acks[..|acks| - 1];
      var (s, lb) := acks[|acks| - 1];
      assert forall i :: 0 <= i < |before| ==> before[i] == acks[i];
      WriteBacksGrowAgreement(a, snapshot, before);
      var b0 := FoldWriteBacks(a, before);
      var b := FoldWriteBacks(a, acks);
      assert acks[|acks| - 1].0 in snapshot;
      InsertWriteBackKeeps(b0, snapshot, s, lb);
      LeqTransitive(a.servers, b0.servers, b.servers);
      assert KnowsServer(b0, snapshot, s);
      forall t ensures (t in b.agreeWithMax <==> t in a.agreeWithMax || First(acks, t).Some? || t in a.wbReplies)
                    && (t in b.agreeWithMax ==> t in b.servers && Le(a.maxResp.value.ts, b.servers[t])) {
        assert KnowsServer(b, snapshot, t);
      }
    }
  }

  /** What the view says of `s` after acknowledgements: the first bound that the server
      reported, if it is better than what was known and the server was not known to agree. */
  lemma {:induction false} WriteBackViews(a: ReadAcc, snapshot: View, acks: seq<(ServerId, Timestamp)>, s: ServerId)
    requires ReadAccInv(a, snapshot) && a.maxResp.Some? && s in a.servers
    requires forall i :: 0 <= i < |acks| ==> acks[i].0 in snapshot && Le(a.maxResp.value.ts, acks[i].1)
    ensures
      var b, f := FoldWriteBacks(a, acks), First(acks, s);
      && s in b.servers
      && b.servers[s] == if s in a.agreeWithMax || f.None? then a.servers[s] else Max(a.servers[s], f.value)
  {
    if acks != [] {
      var before := acks[..|acks| - 1];
      assert forall i :: 0 <= i < |before| ==> before[i] == acks[i];
      WriteBackViews(a, snapshot, before, s);
      WriteBacksGrowAgreement(a, snapshot, before);
      assert KnowsServer(a, snapshot, s) && KnowsServer(FoldWriteBacks(a, before), snapshot, s);
    }
  }

  // ---------------------------------------------- any sequence of timestamps

  function FoldTimestamps(snapshot: View, replies: seq<(ServerId, Timestamp)>): QueryAcc {
    if replies == [] then NewQueryAcc(snapshot)
    else
      var (s, ts) := replies[|replies| - 1];
      InsertTimestamp(FoldTimestamps(snapshot, replies[..|replies| - 1]), s, ts)
  }

  /** The timestamp accumulator is the read accumulator without values. */
  function AsRead(a: QueryAcc): ReadAcc {
    var max := if a.maxResp.Some? then Some(Reading(None, a.maxResp.value)) else None;
    ReadAcc(max, a.agreeWithMax, a.replies, {}, a.servers)
  }

  function AsReadings(replies: seq<(ServerId, Timestamp)>): (r: seq<(ServerId, Reading)>)
    ensures |r| == |replies|
  {
    seq(|replies|, i requires 0 <= i < |replies| => (replies[i].0, Reading(None, replies[i].1)))
  }

  lemma {:induction false} TimestampsAsReadings(snapshot: View, replies: seq<(ServerId, Timestamp)>)
    ensures AsRead(FoldTimestamps(snapshot, replies)) == FoldGets(snapshot, AsReadings(replies))
  {
    if replies != [] {
      var before := replies[..|replies| - 1];
      TimestampsAsReadings(snapshot, before);
      assert AsReadings(replies)[..|replies| - 1] == AsReadings(before);
    }
  }

  lemma {:induction false} FirstAsReading(replies: seq<(ServerId, Timestamp)>, s: ServerId)
    ensures First(AsReadings(replies), s) ==
            if First(replies, s).Some? then Some(Reading(None, First(replies, s).value)) else None
  {
    if replies != [] {
      FirstAsReading(replies[..|replies| - 1], s);
      assert AsReadings(replies)[..|replies| - 1] == AsReadings(replies[..|replies| - 1]);
    }
  }

  /** Whatever replies arrive, in whatever order, the timestamp that the write takes is
      strictly above every counted one, and the largest is one of them. */
  lemma ChosenIsAboveEveryReply(snapshot: View, replies: seq<(ServerId, Timestamp)>, clientId: nat, ctr: nat)
    requires replies != []
    ensures
      var a := FoldTimestamps(snapshot, replies);
      && a.maxResp.Some?
      && (exists s :: First(replies, s) == a.maxResp)
      && (forall s :: s in a.replies <==> First(replies, s).Some?)
      && (forall s :: s in a.replies ==> Lt(First(replies, s).value, NextTimestamp(a.maxResp.value, clientId, ctr)))
      && NextTimestamp(a.maxResp.value, clientId, ctr) == Timestamp(a.maxResp.value.seqno + 1, clientId, ctr)
      && (forall s :: s in a.agreeWithMax <==> First(replies, s) == a.maxResp)
  {
    var a := FoldTimestamps(snapshot, replies);
    TimestampsAsReadings(snapshot, replies);
    GetsAreCounted(snapshot, AsReadings(replies));
    forall s
      ensures s in a.replies <==> First(replies, s).Some?
      ensures s in a.replies ==> Lt(First(replies, s).value, NextTimestamp(a.maxResp.value, clientId, ctr))
      ensures s in a.agreeWithMax <==> First(replies, s) == a.maxResp
    {
      assert CountedAt(AsRead(a), snapshot, AsReadings(replies), s);
      FirstAsReading(replies, s);
    }
    var t :| First(AsReadings(replies), t) == AsRead(a).maxResp;
    FirstAsReading(replies, t);
    assert First(replies, t) == a.maxResp;
  }

  // ------------------------------------------- any sequence of acknowledgements

  function FoldAcks(snapshot: View, acks: seq<(ServerId, Timestamp)>): AckAcc {
    if acks == [] then NewAckAcc(snapshot)
    else
      var (s, lb) := acks[|acks| - 1];
      InsertAck(FoldAcks(snapshot, acks[..|acks| - 1]), s, lb)
  }

  lemma {:induction false} AckViews(snapshot: View, acks: seq<(ServerId, Timestamp)>, s: ServerId)
    requires s in snapshot
    ensures
      var a, f := FoldAcks(snapshot, acks), First(acks, s);
      && (s in a.replies <==> f.Some?)
      && s in a.servers && a.servers[s] == if f.None? then snapshot[s] else Max(snapshot[s], f.value)
  {
    if acks != [] {
      AckViews(snapshot, acks[..|acks| - 1], s);
    }
  }

  /** Acknowledgements of `ts` in any order, with duplicates: the accumulator counts
      each server once, and once a majority has answered, every majority of any later
      view has reached `ts`. */
  lemma {:induction false} AcksAreCounted(snapshot: View, acks: seq<(ServerId, Timestamp)>, ts: Timestamp)
    requires forall i :: 0 <= i < |acks| ==> acks[i].0 in snapshot && Le(ts, acks[i].1)
    ensures
      var a := FoldAcks(snapshot, acks);
      && AckAccInv(a, snapshot, ts)
      && (forall s :: s in a.replies <==> First(acks, s).Some?)
      && Leq(snapshot, a.servers)
      && (forall now :: Leq(a.servers, now) && |a.replies| >= QuorumSize(|snapshot|) ==> QuorumsReach(now, ts))
  {
    var a := FoldAcks(snapshot, acks);
    if acks == [] {
      NewAckAccInv(snapshot, ts);
    } else {
      var before := acks[..|acks| - 1];
      assert forall i :: 0 <= i < |before| ==> before[i] == acks[i];
      AcksAreCounted(snapshot, before, ts);
      assert acks[|acks| - 1].0 in snapshot;
      InsertAckKeeps(FoldAcks(snapshot, before), snapshot, ts, acks[|acks| - 1].0, acks[|acks| - 1].1);
      LeqTransitive(snapshot, FoldAcks(snapshot, before).servers, a.servers);
    }
    forall now | Leq(a.servers, now) && |a.replies| >= QuorumSize(|snapshot|) ensures QuorumsReach(now, ts) {
      AcksReachAll(a, snapshot, ts, now);
    }
  }
}
