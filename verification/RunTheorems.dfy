/** What holds in every run: progress of the majorities, the order of timestamps
    between operations, and agreement of values. */
module RunTheorems {
  import opened Timestamps
  import opened Quorums
  import opened ReadPhases
  import opened WritePhases
  import opened Protocol
  import opened ProtocolInv
  import opened StepEffects
  import opened LinQueueSpec
  import opened LinQueueProof
  import opened LinQueueFrames
  import opened SharedState
  import opened SharedSteps
  import opened SharedRuns
  import opened Linearizability

  // ------------------------------------------------------ what steps do

  /** Every step of a run does what `StepEffects` says: whom a request goes to and what it
      asks, what a server answers, which timestamp is chosen, what an event records. */
  lemma StepsHaveTheirEffects(states: seq<Sys>, labels: seq<Label>, n: nat)
    requires IsRun(states, labels) && n < |labels|
    ensures SystemDoes(states[n], labels[n], states[n + 1])
    ensures ReadDoes(states[n], labels[n], states[n + 1])
    ensures WriteDoes(states[n], labels[n], states[n + 1])
  {
    var (s, l, s1) := (states[n], labels[n], states[n + 1]);
    assert Step(s, l, s1);
    if ReadStep(s, l, s1) {
      ReadEffect(s, l, s1);
    } else if WriteStep(s, l, s1) {
      RunKeeps(states, labels, n);
      if l.Chooses? { assert OpOk(s, l.op); }
      WriteEffect(s, l, s1);
    } else {
      SystemEffect(s, l, s1);
    }
  }

  /** A write-back reaches exactly the servers that did not report the largest reading:
      those that reported less and those that have not reported. */
  lemma WriteBacksReachThoseBehind(states: seq<Sys>, labels: seq<Label>, n: nat, k: ServerId)
    requires IsRun(states, labels) && n < |labels| && labels[n].SendsWriteBack? && k in states[n].servers
    ensures
      var (s, s1, i) := (states[n], states[n + 1], labels[n].op);
      && i < |s.ops| && i < |s1.ops| && s.ops[i].phase.ReadFirst? && s1.ops[i].phase.ReadWriteBack?
      && var (acc, id) := (s.ops[i].phase.reading, s1.ops[i].phase.id);
      && acc.maxResp.Some?
      && (k in acc.getReplies ==> k in acc.servers && Le(acc.servers[k], acc.maxResp.value.ts))
      && ((exists m :: m in s1.net && m.ToServer? && m.server == k && m.client == s.ops[i].client && m.id == id) <==>
          !(k in acc.getReplies && acc.servers[k] == acc.maxResp.value.ts))
  {
    var (s, s1, i) := (states[n], states[n + 1], labels[n].op);
    StepsHaveTheirEffects(states, labels, n);
    RunKeeps(states, labels, n);
    var (acc, id) := (s.ops[i].phase.reading, s1.ops[i].phase.id);
    assert OpOk(s, i) && KnowsServer(acc, s.ops[i].phase.snapshot, k);
    assert IssuedOk(s, (s.ops[i].client, id));
    if m :| m in s1.net && m.ToServer? && m.server == k && m.client == s.ops[i].client && m.id == id {
      assert MessageOk(s, m);
    }
  }

  // ------------------------------------------------ progress of the servers

  ghost predicate ProgressAt(states: seq<Sys>, n: nat) {
    n + 1 < |states| ==> Leq(Times(states[n].servers), Times(states[n + 1].servers))
  }

  lemma StepProgresses(states: seq<Sys>, labels: seq<Label>, n: nat)
    requires IsRun(states, labels)
    ensures ProgressAt(states, n)
  {
    if n < |labels| {
      RunKeeps(states, labels, n);
      RunStepKeeps(states, labels, n);
    }
  }

  lemma {:induction false} ProgressAdds(states: seq<Sys>, m: nat, n: nat)
    requires (forall k :: ProgressAt(states, k)) && m <= n < |states|
    ensures Leq(Times(states[m].servers), Times(states[n].servers))
    decreases n - m
  {
    if m < n {
      ProgressAdds(states, m, n - 1);
      assert ProgressAt(states, n - 1);
      LeqTransitive(Times(states[m].servers), Times(states[n - 1].servers), Times(states[n].servers));
    }
  }

  /** A server's timestamp never decreases. */
  lemma ServersProgress(states: seq<Sys>, labels: seq<Label>, m: nat, n: nat)
    requires IsRun(states, labels) && m <= n < |states|
    ensures Leq(Times(states[m].servers), Times(states[n].servers))
  {
    forall k: nat ensures ProgressAt(states, k) { StepProgresses(states, labels, k); }
    ProgressAdds(states, m, n);
  }

  /** Once some majority is at `t` or beyond, every majority reaches `t` in every later state. */
  lemma MajorityIsForever(states: seq<Sys>, labels: seq<Label>, m: nat, n: nat, q: Quorum, t: Timestamp)
    requires IsRun(states, labels) && m <= n < |states|
    requires ValidQuorum(Times(states[m].servers), q) && Unanimous(Times(states[m].servers), q, t)
    ensures QuorumsReach(Times(states[n].servers), t)
    ensures ValidQuorum(Times(states[n].servers), q) && Unanimous(Times(states[n].servers), q, t)
  {
    var v, w := Times(states[m].servers), Times(states[n].servers);
    ServersProgress(states, labels, m, n);
    UnanimityReachesAll(v, q, t);
    ReachIsMonotone(v, w, t);
    QuorumTimestampIsMonotone(v, w, q);
    forall s | s in q ensures Le(t, w[s]) { assert Le(v[s], w[s]); }
  }

  /** Operation `i` is still there, and as it was if it had ended. */
  ghost predicate OpStands(s: Sys, s1: Sys, i: OpId) {
    i < |s.ops| ==>
      && i < |s1.ops|
      && s1.ops[i] == s.ops[i].(phase := s1.ops[i].phase)
      && (Ended(s.ops[i].phase) ==> s1.ops[i] == s.ops[i])
  }

  ghost predicate OpStandsAt(states: seq<Sys>, i: OpId, n: nat) {
    n + 1 < |states| ==> OpStands(states[n], states[n + 1], i)
  }

  lemma StepStands(states: seq<Sys>, labels: seq<Label>, i: OpId, n: nat)
    requires IsRun(states, labels)
    ensures OpStandsAt(states, i, n)
  {
    if n < |labels| {
      RunStepShape(states, labels, n);
      assert i < |states[n].ops| ==> PhaseMoves(states[n].ops[i].phase, states[n + 1].ops[i].phase);
    }
  }

  lemma {:induction false} StandingAdds(states: seq<Sys>, i: OpId, m: nat, n: nat)
    requires (forall k :: OpStandsAt(states, i, k)) && m <= n < |states|
    ensures OpStands(states[m], states[n], i)
    decreases n - m
  {
    if m < n {
      StandingAdds(states, i, m, n - 1);
      assert OpStandsAt(states, i, n - 1);
    }
  }

  /** Operations are never forgotten; only their phases change, and not once they ended. */
  lemma OpsAreForever(states: seq<Sys>, labels: seq<Label>, i: OpId, m: nat, n: nat)
    requires IsRun(states, labels) && m <= n < |states|
    ensures OpStands(states[m], states[n], i)
  {
    forall k: nat ensures OpStandsAt(states, i, k) { StepStands(states, labels, i, k); }
    StandingAdds(states, i, m, n);
  }

  // ------------------------------------------------------------- replies

  /** The reply is of the kind asked for, from a server of the snapshot, between the
      snapshot and the server; an acknowledgement covers the timestamp written. */
  ghost predicate Fits(s: Sys, p: Phase, server: ServerId, body: Response) {
    && server in s.servers
    && (p.ReadFirst? ==>
          && body.GetResponse? && server in p.snapshot
          && Le(p.snapshot[server], body.reading.ts) && Le(body.reading.ts, s.servers[server].ts))
    && (p.ReadWriteBack? ==>
          && body.WriteResponse? && server in p.snapshot && p.reading.maxResp.Some?
          && Le(p.reading.maxResp.value.ts, body.lb) && Le(body.lb, s.servers[server].ts))
    && (p.WriteQuery? ==>
          && body.TimestampResponse? && server in p.snapshot
          && Le(p.snapshot[server], body.ts) && Le(body.ts, s.servers[server].ts))
    && (p.WriteSent? ==>
          && body.WriteResponse? && server in p.snapshot
          && Le(p.ts, body.lb) && Le(body.lb, s.servers[server].ts))
  }

  predicate AwaitsId(p: Phase, id: RequestId) {
    (p.ReadFirst? || p.ReadWriteBack? || p.WriteQuery? || p.WriteSent?) && p.id == id
  }

  lemma ReplyFits(s: Sys, i: OpId, m: Message)
    requires OpOk(s, i) && MessageOk(s, m) && i < |s.ops| && m in s.net && m.ToClient? && m.client == s.ops[i].client
    requires AwaitsId(s.ops[i].phase, m.id)
    ensures Fits(s, s.ops[i].phase, m.server, m.response)
  {
  }

  /** At every moment of a run, a reply delivered to an operation under the id it waits
      for answers the request it has out. No reply to an earlier phase can be counted. */
  lemma RepliesAnswerTheRequest(states: seq<Sys>, labels: seq<Label>, n: nat, i: OpId, m: Message)
    requires IsRun(states, labels) && n < |states|
    requires i < |states[n].ops| && AwaitsId(states[n].ops[i].phase, m.id)
    requires m in states[n].net && m.ToClient? && m.client == states[n].ops[i].client
    ensures Fits(states[n], states[n].ops[i].phase, m.server, m.response)
  {
    RunKeeps(states, labels, n);
    ReplyFits(states[n], i, m);
  }

  lemma ViewLiesBetween(s: Sys, i: OpId)
    requires OpOk(s, i) && i < |s.ops|
    ensures
      var p, now := s.ops[i].phase, Times(s.servers);
      && (p.ReadFirst? || p.ReadWriteBack? ==> Leq(p.snapshot, p.reading.servers) && Leq(p.reading.servers, now))
      && (p.WriteQuery? ==> Leq(p.snapshot, p.query.servers) && Leq(p.query.servers, now))
      && (p.WriteSent? ==> Leq(p.snapshot, p.acks.servers) && Leq(p.acks.servers, now))
  {
    var p := s.ops[i].phase;
    if p.ReadFirst? || p.ReadWriteBack? {
      forall k
        ensures (k in p.reading.servers <==> k in p.snapshot)
             && (k in p.snapshot ==> Le(p.snapshot[k], p.reading.servers[k]))
      {
        assert KnowsServer(p.reading, p.snapshot, k);
      }
    } else if p.WriteQuery? {
      forall k
        ensures (k in p.query.servers <==> k in p.snapshot)
            && (k in p.snapshot ==> Le(p.snapshot[k], p.query.servers[k]))
      {
        assert QueryKnows(p.query, p.snapshot, k);
      }
    } else if p.WriteSent? {
      forall k
        ensures (k in p.acks.servers <==> k in p.snapshot) && (k in p.snapshot ==> Le(p.snapshot[k], p.acks.servers[k]))
      {
        assert AckKnows(p.acks, p.snapshot, p.ts, k);
      }
    }
  }

  /** At every moment of a run, and ever after while it stands, what a client believes of
      the servers lies between the snapshot of its request and the truth. */
  lemma ViewsAreLowerBounds(states: seq<Sys>, labels: seq<Label>, n: nat, m: nat, i: OpId)
    requires IsRun(states, labels) && n <= m < |states| && i < |states[n].ops|
    ensures
      var p, now := states[n].ops[i].phase, Times(states[m].servers);
      && (p.ReadFirst? || p.ReadWriteBack? ==> Leq(p.snapshot, p.reading.servers) && Leq(p.reading.servers, now))
      && (p.WriteQuery? ==> Leq(p.snapshot, p.query.servers) && Leq(p.query.servers, now))
      && (p.WriteSent? ==> Leq(p.snapshot, p.acks.servers) && Leq(p.acks.servers, now))
  {
    var p, past, now := states[n].ops[i].phase, Times(states[n].servers), Times(states[m].servers);
    RunKeeps(states, labels, n);
    assert OpOk(states[n], i);
    ViewLiesBetween(states[n], i);
    ServersProgress(states, labels, n, m);
    if p.ReadFirst? || p.ReadWriteBack? {
      LeqTransitive(p.reading.servers, past, now);
    } else if p.WriteQuery? {
      LeqTransitive(p.query.servers, past, now);
    } else if p.WriteSent? {
      LeqTransitive(p.acks.servers, past, now);
    }
  }

  // ---------------------------------------------------------- timestamps

  /** The timestamp a write has chosen, even if it failed afterwards. */
  function ChosenTimestamp(op: Op): Option<Timestamp> {
    match op.phase
    case WriteChosen(ts) => Some(ts)
    case WriteReady(ts, _) => Some(ts)
    case WriteSent(ts, _, _, _) => Some(ts)
    case WriteDone(ts) => Some(ts)
    case WriteFailed(ts) => ts
    case _ => None
  }

  lemma ChosenIsSigned(s: Sys, i: OpId)
    requires OpOk(s, i) && i < |s.ops| && ChosenTimestamp(s.ops[i]).Some?
    ensures s.ops[i].kind.WriteOp? && Signed(s.ops[i], ChosenTimestamp(s.ops[i]).value)
  {
  }

  /** No two writes of a run ever choose the same timestamp, one at one moment and the
      other at any other, even when a client retries after a failed write. */
  lemma TimestampsAreChosenOnce(states: seq<Sys>, labels: seq<Label>, m: nat, n: nat, i: OpId, j: OpId)
    requires IsRun(states, labels) && m <= n < |states| && i < |states[m].ops| && j < |states[n].ops|
    requires ChosenTimestamp(states[m].ops[i]).Some?
    requires ChosenTimestamp(states[m].ops[i]) == ChosenTimestamp(states[n].ops[j])
    ensures i == j
  {
    RunKeeps(states, labels, m);
    RunKeeps(states, labels, n);
    OpsAreForever(states, labels, i, m, n);
    assert OpOk(states[m], i) && OpOk(states[n], j);
    ChosenIsSigned(states[m], i);
    ChosenIsSigned(states[n], j);
    assert CountersUnique(states[n]);
  }

  /** A pair of timestamp and value held by a replica, in a write request, or in a reply. */
  ghost predicate Held(s: Sys, ts: Timestamp, value: Value) {
    || (exists k :: k in s.servers && s.servers[k] == Replica(value, ts))
    || (exists m :: m in s.net && m.ToServer? && m.request.Write? && m.request.ts == ts && m.request.value == value)
    || (exists m :: m in s.net && m.ToClient? && m.response == GetResponse(Reading(value, ts)))
  }

  lemma HeldIsPersisted(o: Oracle, s: Sys, a: Shared, ts: Timestamp, value: Value)
    requires Linked(o, s, a) && Held(s, ts, value)
    ensures Persisted(a.lin.queue, ts, value)
  {
    if k :| k in s.servers && s.servers[k] == Replica(value, ts) {
      assert ReplicaAt(s, a, k);
    } else if m :| m in s.net && m.ToServer? && m.request.Write? && m.request.ts == ts && m.request.value == value {
      assert MessageAt(s, a, m);
    } else {
      var m :| m in s.net && m.ToClient? && m.response == GetResponse(Reading(value, ts));
      assert MessageAt(s, a, m);
    }
  }

  /** Any two replicas, requests or replies that carry the same timestamp carry the same value. */
  lemma TimestampsDetermineValues(states: seq<Sys>, labels: seq<Label>, ts: Timestamp, v: Value, w: Value)
    requires IsRun(states, labels) && Held(states[|labels|], ts, v) && Held(states[|labels|], ts, w)
    ensures v == w
  {
    var o, a, marks := Accompany(states, labels);
    HeldIsPersisted(o, states[|labels|], a, ts, v);
    HeldIsPersisted(o, states[|labels|], a, ts, w);
  }

  // ------------------------------------------------------- the global invariant

  /** The state of the protocol at the end of a run, with the shared state behind it. */
  lemma Accompany(states: seq<Sys>, labels: seq<Label>) returns (o: Oracle, a: Shared, marks: seq<Mark>)
    requires IsRun(states, labels)
    ensures GlobalInv(o, states[|labels|], a) && MarksInv(states[|labels|], a, marks)
  {
    var n := |labels|;
    o := OracleOf(states[n]);
    OracleForetells(states[n]);
    var shared, marks0 := RunAccompanied(o, states, labels, n);
    assert SharedInvAt(o, states, shared, n);
    a, marks := shared[n], marks0;
  }

  /** What the clauses of the global invariant come to: the register holds the value at
      the watermark and the last one logged, the queue's timestamps are the allocated
      ones, no majority is behind the watermark, and every replica's pair is allocated. */
  ghost predicate Concordant(s: Sys, a: Shared) {
    var q := a.lin.queue;
    && q.watermark in q.committedTo && a.lin.register.value == q.committedTo[q.watermark]
    && a.lin.register.value == ValueAfter(a.lin.register.log)
    && KnownTimestamps(q) == a.allocations.Keys
    && (forall m :: ValidQuorum(Times(s.servers), m) ==> Le(q.watermark, QuorumTimestamp(Times(s.servers), m)))
    && (forall k :: k in s.servers ==>
          s.servers[k].ts in a.allocations && a.allocations[s.servers[k].ts] == s.servers[k].value)
  }

  lemma GlobalInvSays(o: Oracle, s: Sys, a: Shared)
    requires GlobalInv(o, s, a)
    ensures Concordant(s, a)
  {
    var q := a.lin.queue;
    forall t ensures t in KnownTimestamps(q) <==> t in a.allocations.Keys { assert AllocatedAt(s, a, t); }
    forall k | k in s.servers
      ensures s.servers[k].ts in a.allocations && a.allocations[s.servers[k].ts] == s.servers[k].value
    {
      assert ReplicaAt(s, a, k) && AllocatedAt(s, a, s.servers[k].ts);
    }
  }

  ghost predicate ConcordantAt(states: seq<Sys>, shared: seq<Shared>, n: nat) {
    n < |states| && n < |shared| ==> Concordant(states[n], shared[n])
  }

  /** Every run of the protocol has a run of the shared state beside it, in which each
      client does to the queue what the code does; at every moment register, queue,
      allocations and servers agree. */
  lemma EveryRunIsAccompanied(states: seq<Sys>, labels: seq<Label>) returns (o: Oracle, shared: seq<Shared>)
    requires IsRun(states, labels)
    ensures |shared| == |states| && IsSharedRun(o, states, labels, shared)
    ensures forall n :: ConcordantAt(states, shared, n)
    ensures IsLinearization(states[|labels|].history, shared[|labels|].lin.register.log)
  {
    o := OracleOf(states[|labels|]);
    OracleForetells(states[|labels|]);
    var marks;
    shared, marks := RunAccompanied(o, states, labels, |labels|);
    forall n: nat ensures ConcordantAt(states, shared, n) {
      assert SharedInvAt(o, states, shared, n);
      if n < |states| {
        GlobalInvSays(o, states[n], shared[n]);
      }
    }
    assert SharedInvAt(o, states, shared, |labels|);
    MarkedIsLinearization(states[|labels|], shared[|labels|], marks);
  }

  // ---------------------------------------------- completions are taken away

  /** Of an operation that returned, or failed and was given back what it had put in, the
      queue holds no token: nothing is left to be handed out a second time. */
  ghost predicate NothingLeft(s: Sys, a: Shared, i: OpId) {
    && i < |s.ops|
    && (s.ops[i].phase.ReadDone? || s.ops[i].phase.WriteDone? || s.ops[i].phase.ReadFailed?
        || s.ops[i].phase == WriteFailed(None)) ==>
      NoTokens(a.lin.queue, i)
  }

  ghost predicate NothingLeftAt(states: seq<Sys>, shared: seq<Shared>, n: nat, i: OpId) {
    n < |states| && n < |shared| ==> NothingLeft(states[n], shared[n], i)
  }

  lemma EndedHasLeft(o: Oracle, s: Sys, a: Shared, i: OpId)
    requires GlobalInv(o, s, a)
    ensures NothingLeft(s, a, i)
  {
    assert OpAt(o, s, a, i) && OpOk(s, i);
  }

  /** At every moment of an accompanied run the operations that ended have taken with them
      what the queue held for them, so each completion is handed out once. */
  lemma CompletionsLeaveTheQueue(states: seq<Sys>, labels: seq<Label>) returns (o: Oracle, shared: seq<Shared>)
    requires IsRun(states, labels)
    ensures |shared| == |states| && IsSharedRun(o, states, labels, shared)
    ensures forall n, i :: NothingLeftAt(states, shared, n, i)
  {
    o, shared := EveryRunIsAccompanied(states, labels);
    forall n: nat, i: OpId ensures NothingLeftAt(states, shared, n, i) {
      if n < |states| {
        assert SharedInvAt(o, states, shared, n);
        EndedHasLeft(o, states[n], shared[n], i);
      }
    }
  }

  // -------------------------------------------------- failed operations

  /** An operation gives up and is given its linearizer back, or the news that it took
      effect. A write that fails after it chose is given neither. */
  predicate GivesUp(l: Label) {
    l.FailsFirst? || l.FailsWriteBack? || l.FailsQuery?
  }

  lemma GivingUpFails(states: seq<Sys>, labels: seq<Label>, n: nat)
    requires IsRun(states, labels) && n < |labels| && GivesUp(labels[n])
    ensures labels[n].op < |states[n + 1].ops|
    ensures
      var p := states[n + 1].ops[labels[n].op].phase;
      p.ReadFailed? || p == WriteFailed(None)
  {
    assert Step(states[n], labels[n], states[n + 1]);
  }

  ghost predicate GivenGrow(shared: seq<Shared>, m: nat, n: nat)
    requires m < |shared| && n < |shared|
  {
    forall j :: j in shared[m].given ==> j in shared[n].given && shared[n].given[j] == shared[m].given[j]
  }

  lemma {:induction false} GivenForever(o: Oracle, states: seq<Sys>, labels: seq<Label>, shared: seq<Shared>, m: nat,
                                        n: nat)
    requires IsSharedRun(o, states, labels, shared) && m <= n < |shared|
    ensures GivenGrow(shared, m, n)
    decreases n - m
  {
    if m < n {
      GivenForever(o, states, labels, shared, m, n - 1);
      assert SharedMoveAt(o, states, labels, shared, n - 1);
      assert Moves(shared[n - 1], shared[n]);
    }
  }

  lemma FailedIsToldTrue(o: Oracle, s: Sys, a: Shared, i: OpId)
    requires GlobalInv(o, s, a) && i < |s.ops| && (s.ops[i].phase.ReadFailed? || s.ops[i].phase == WriteFailed(None))
    ensures ToldTrue(a, i)
  {
    assert OpAt(o, s, a, i) && OpOk(s, i);
  }

  /** What an operation that gave up at step `n` was given, against the log at moment `m`. */
  ghost predicate ToldTheTruth(labels: seq<Label>, shared: seq<Shared>, n: nat, m: nat) {
    n < |labels| && GivesUp(labels[n]) && n < m < |shared| ==>
      var i := labels[n].op;
      && i in shared[n + 1].given
      && shared[n + 1].given[i] == if Unlogged(shared[m].lin.register.log, i) then Linearizer(i) else Completion(i)
  }

  /** An operation that gives up and gets its linearizer back is in no log ever after; one
      that is told it took effect is in every log ever after, the linearization of the
      whole run included. */
  lemma FailuresAreToldTheTruth(states: seq<Sys>, labels: seq<Label>) returns (o: Oracle, shared: seq<Shared>)
    requires IsRun(states, labels)
    ensures |shared| == |states| && IsSharedRun(o, states, labels, shared)
    ensures IsLinearization(states[|labels|].history, shared[|labels|].lin.register.log)
    ensures forall n, m :: ToldTheTruth(labels, shared, n, m)
  {
    o, shared := EveryRunIsAccompanied(states, labels);
    forall n: nat, m: nat ensures ToldTheTruth(labels, shared, n, m) {
      if n < |labels| && GivesUp(labels[n]) && n < m < |shared| {
        ToldTheTruthAt(o, states, labels, shared, n, m);
      }
    }
  }

  lemma ToldTheTruthAt(o: Oracle, states: seq<Sys>, labels: seq<Label>, shared: seq<Shared>, n: nat, m: nat)
    requires IsRun(states, labels) && |shared| == |states| && IsSharedRun(o, states, labels, shared)
    requires n < |labels| && GivesUp(labels[n]) && n < m < |shared|
    ensures ToldTheTruth(labels, shared, n, m)
  {
    var i := labels[n].op;
    GivingUpFails(states, labels, n);
    OpsAreForever(states, labels, i, n + 1, m);
    assert Ended(states[n + 1].ops[i].phase);
    GivenForever(o, states, labels, shared, n + 1, m);
    assert SharedInvAt(o, states, shared, n + 1) && SharedInvAt(o, states, shared, m);
    FailedIsToldTrue(o, states[n + 1], shared[n + 1], i);
    FailedIsToldTrue(o, states[m], shared[m], i);
  }

  // --------------------------------------------- the order between operations

  /** The timestamp with which an operation returned. */
  function ReturnTimestamp(s: Sys, op: OpId, result: Result): Timestamp
    requires op < |s.ops| && (result.WriteResult? ==> s.ops[op].phase.WriteDone?)
  {
    match result
    case ReadResult(_, ts) => ts
    case WriteResult => s.ops[op].phase.ts
  }

  /** An operation that begins after another returned with timestamp `t` reads at or
      above `t`, and writes above it, even if it fails or has yet to return. */
  lemma LaterOperationsAreNewer(states: seq<Sys>, labels: seq<Label>, m: nat, n: nat)
    requires IsRun(states, labels)
    requires
      var h := states[|labels|].history;
      m < n < |h| && h[m].Return? && h[n].Invoke?
    ensures
      var s := states[|labels|];
      var (x, y) := (s.history[m].op, s.history[n].op);
      && x < |s.ops| && y < |s.ops|
      && (s.history[m].result.WriteResult? ==> s.ops[x].phase.WriteDone?)
      && var t := ReturnTimestamp(s, x, s.history[m].result);
      && (s.ops[y].phase.ReadDone? ==> Le(t, s.ops[y].phase.ts))
      && (ChosenTimestamp(s.ops[y]).Some? ==> Lt(t, ChosenTimestamp(s.ops[y]).value))
  {
    var s := states[|labels|];
    var o, a, marks := Accompany(states, labels);
    assert MarkAt(s, a, s.history[m], marks[m]) && MarkAt(s, a, s.history[n], marks[n]);
    NewerThanMinTs(o, s, a, s.history[n].op);
  }

  lemma NewerThanMinTs(o: Oracle, s: Sys, a: Shared, i: OpId)
    requires GlobalInv(o, s, a) && i < |s.ops|
    ensures i < |a.minTs|
    ensures s.ops[i].phase.ReadDone? ==> Le(a.minTs[i], s.ops[i].phase.ts)
    ensures ChosenTimestamp(s.ops[i]).Some? ==> Lt(a.minTs[i], ChosenTimestamp(s.ops[i]).value)
  {
    assert OpAt(o, s, a, i) && OpOk(s, i);
  }

  // ------------------------------------------------------------ histories

  ghost predicate EventAt(s: Sys, n: nat) {
    n < |s.history| ==>
      && s.history[n].op < |s.ops|
      && (s.history[n].Invoke? || Ended(s.ops[s.history[n].op].phase))
  }

  ghost predicate HistoryInv(s: Sys) {
    && WellFormed(s.history)
    && (forall n :: EventAt(s, n))
    && (forall i :: WasInvoked(s, i))
  }

  lemma StepHistory(s: Sys, s1: Sys)
    requires HistoryInv(s) && Shape(s, s1)
    ensures HistoryInv(s1)
  {
    var h, h1, n := s.history, s1.history, |s.history|;
    assert h1[..n] == h;
    forall m: nat ensures EventAt(s1, m) {
      assert EventAt(s, m);
      if m < n {
        assert h1[m] == h[m] && PhaseMoves(s.ops[h[m].op].phase, s1.ops[h[m].op].phase);
      }
    }
    forall i: OpId ensures WasInvoked(s1, i) {
      assert WasInvoked(s, i);
      InvokedStays(s, s1, i);
    }
    if |h1| > n {
      EventExtends(s, s1);
    }
  }

  lemma EventExtends(s: Sys, s1: Sys)
    requires HistoryInv(s) && |s1.history| == |s.history| + 1 && s1.history[..|s.history|] == s.history
    requires EventFits(s, s1, s1.history[|s.history|])
    ensures WellFormed(s1.history)
  {
    var h, h1, n := s.history, s1.history, |s.history|;
    var e := h1[n];
    forall k | 0 <= k < n ensures h1[k] == h[k] && (h[k].op == e.op ==> h[k].Invoke? && !e.Invoke?) {
      assert h1[k] == h1[..n][k];
      assert EventAt(s, k);
    }
    if !e.Invoke? {
      assert WasInvoked(s, e.op);
      var k :| InvokedAt(h, e.op, s.ops[e.op].kind, k);
      assert h1[k].Invoke? && h1[k].op == e.op;
    }
    forall k | 0 <= k < |h1| && !h1[k].Invoke? ensures exists m :: 0 <= m < k && h1[m].Invoke? && h1[m].op == h1[k].op {
      if k < n {
        var m :| 0 <= m < k && h[m].Invoke? && h[m].op == h[k].op;
        assert h1[m] == h[m];
      }
    }
  }

  /** The history of a run alternates for every operation: one invocation, then at
      most one return or failure. */
  lemma {:induction false} HistoriesAreWellFormed(states: seq<Sys>, labels: seq<Label>, n: nat)
    requires IsRun(states, labels) && n < |states|
    ensures HistoryInv(states[n])
  {
    if n > 0 {
      HistoriesAreWellFormed(states, labels, n - 1);
      RunStepShape(states, labels, n - 1);
      StepHistory(states[n - 1], states[n]);
    }
  }
}
