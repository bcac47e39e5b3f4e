/** The state that all clients share behind the protocol: the linearization queue,
    the register it linearizes operations on, and the timestamps allocated to writes.

    A client that begins an operation prophesies where it will take effect: a read the
    value it will return, a write the sequence number it will choose. */
module SharedState {
  import opened Timestamps
  import opened Quorums
  import opened ReadPhases
  import opened Protocol
  import opened ProtocolInv
  import opened LinQueueSpec
  import opened LinQueueProof
  import opened LinQueueFrames

  /** What each operation prophesies when it begins. */
  datatype Oracle = Oracle(seqno: OpId -> nat, value: OpId -> Value)

  /** `minTs` and `readKeys` record, for each operation, the watermark when it began
      and, for a read, its place in the queue; `given` records what an operation that
      failed was given back. */
  datatype Shared = Shared(
    lin: LinState,
    allocations: map<Timestamp, Value>,
    minTs: seq<Timestamp>,
    readKeys: seq<ReadKey>,
    given: map<OpId, Removed>)

  const INITIAL_SHARED := Shared(INITIAL, map[DEFAULT := None], [], [], map[])

  /** The timestamp that write `i` prophesies. */
  function Prophesied(o: Oracle, i: OpId, op: Op): Timestamp {
    Timestamp(o.seqno(i), op.client, op.ctr)
  }

  // ------------------------------------------------------------ transitions

  function ReadBegins(o: Oracle, a: Shared, i: OpId): Shared
    requires a.lin.queue.watermark in a.lin.queue.committedTo
  {
    Shared(InsertRead(a.lin, i, o.value(i)), a.allocations, a.minTs + [a.lin.queue.watermark],
           a.readKeys + [(o.value(i), a.lin.queue.nextReadOp)], a.given)
  }

  /** A write that prophesies a timestamp the register has passed is not inserted. */
  function WriteBegins(a: Shared, i: OpId, value: Value, ts: Timestamp): Shared {
    var a1 := a.(minTs := a.minTs + [a.lin.queue.watermark], readKeys := a.readKeys + [(None, 0)]);
    match InsertWrite(a.lin.queue, i, value, ts)
    case None => a1
    case Some(q) => a1.(lin := LinState(q, a.lin.register), allocations := a.allocations[ts := value])
  }

  ghost function ReadFinishes(a: Shared, key: ReadKey, ts: Timestamp): Shared {
    var l := ApplyUpTo(a.lin, ts);
    a.(lin := LinState(ExtractRead(l.queue, key), l.register))
  }

  ghost predicate CanRemoveRead(a: Shared, key: ReadKey) {
    var q := a.lin.queue;
    && key in q.readTokens
    && if HadOpportunity(q, key) then key in q.completedReads else key in q.pendingReads
  }

  function ReadFails(a: Shared, i: OpId, key: ReadKey): Shared
    requires CanRemoveRead(a, key)
  {
    var r := RemoveRead(a.lin.queue, key);
    a.(lin := LinState(r.queue, a.lin.register), given := a.given[i := r.what])
  }

  function WriteCommits(a: Shared, ts: Timestamp): Shared
    requires ts in a.lin.queue.writeTokens && (Le(ts, a.lin.queue.watermark) || ts in a.lin.queue.pendingWrites)
  {
    a.(lin := LinState(CommitValue(a.lin.queue, ts), a.lin.register))
  }

  ghost function WriteFinishes(a: Shared, ts: Timestamp): Shared {
    var l := ApplyUpTo(a.lin, ts);
    a.(lin := LinState(ExtractWrite(l.queue, ts), l.register))
  }

  predicate CanRemoveWrite(a: Shared, ts: Timestamp) {
    var q := a.lin.queue;
    if Le(ts, q.watermark) then ts in q.completedWrites else ts in q.pendingWrites
  }

  /** A write that fails before it chose leaves the queue, if it was in it. */
  function WriteFails(a: Shared, i: OpId, ts: Timestamp): Shared
    requires CanRemoveWrite(a, ts)
  {
    var r := RemoveWrite(a.lin.queue, ts);
    a.(lin := LinState(r.queue, a.lin.register),
       allocations := if r.freesAllocation then a.allocations - {ts} else a.allocations,
       given := a.given[i := r.what])
  }

  /** A write that was not inserted still has its linearizer. */
  function RejectedFails(a: Shared, i: OpId): Shared {
    a.(given := a.given[i := Linearizer(i)])
  }

  // ------------------------------------------------------------- invariant

  ghost predicate SawIn(log: seq<LinEvent>, i: Lin, v: Value) {
    exists t :: Saw(i, v, t) in log
  }

  /** Allocated timestamps are exactly those the queue knows, with their values, and
      carry a counter their client has used. */
  ghost predicate AllocatedAt(s: Sys, a: Shared, t: Timestamp) {
    && ValueAt(a.lin.queue, t) == (if t in a.allocations then Some(a.allocations[t]) else None)
    && (t in a.allocations ==> t.clientId in s.writeCtr && t.clientCtr < s.writeCtr[t.clientId])
  }

  ghost predicate ReplicaAt(s: Sys, a: Shared, k: ServerId) {
    k in s.servers ==> Persisted(a.lin.queue, s.servers[k].ts, s.servers[k].value)
  }

  ghost predicate MessageAt(s: Sys, a: Shared, m: Message) {
    m in s.net ==>
      && (m.ToServer? && m.request.Write? ==> Persisted(a.lin.queue, m.request.ts, m.request.value))
      && (m.ToClient? && m.response.GetResponse? ==>
          Persisted(a.lin.queue, m.response.reading.ts, m.response.reading.value))
  }

  ghost predicate HoldsRead(o: Oracle, a: Shared, i: OpId) {
    && i < |a.readKeys| && i < |a.minTs|
    && a.readKeys[i] in a.lin.queue.readTokens
    && a.lin.queue.readTokens[a.readKeys[i]] == ReadToken(i, a.minTs[i])
    && a.readKeys[i].0 == o.value(i)
  }

  ghost predicate HoldsWrite(a: Shared, i: OpId, ts: Timestamp, value: Value, committed: bool) {
    ts in a.lin.queue.writeTokens && a.lin.queue.writeTokens[ts] == WriteToken(i, value, committed)
  }

  /** The queue holds nothing of the operation. */
  ghost predicate NoTokens(q: Queue, i: OpId) {
    && (forall t :: !OwnsWrite(q, i, t))
    && (forall k :: k in q.readTokens ==> q.readTokens[k].lin != i)
  }

  /** What a failed operation was given back is still true: its own linearizer, which is
      not in the log, or the news that it took effect, which the log confirms. */
  ghost predicate ToldTrue(a: Shared, i: OpId) {
    && i in a.given
    && NoTokens(a.lin.queue, i)
    && a.given[i] == if Unlogged(a.lin.register.log, i) then Linearizer(i) else Completion(i)
  }

  ghost predicate GivenAt(s: Sys, a: Shared, i: OpId) {
    i in a.given ==> i < |s.ops| && (s.ops[i].phase.ReadFailed? || s.ops[i].phase.WriteFailed?)
  }

  /** A write that has chosen chose what it prophesied, and was not rejected. */
  ghost predicate HoldsChosen(o: Oracle, a: Shared, i: OpId, op: Op, ts: Timestamp)
    requires op.kind.WriteOp? && i < |a.minTs|
  {
    && ts == Prophesied(o, i, op)
    && Lt(a.minTs[i], ts)
    && HoldsWrite(a, i, ts, op.kind.value, true)
  }

  ghost predicate MaxPersisted(q: Queue, acc: ReadAcc) {
    acc.maxResp.Some? ==> Persisted(q, acc.maxResp.value.ts, acc.maxResp.value.value)
  }

  ghost predicate ReadAtPhase(o: Oracle, a: Shared, i: OpId, p: Phase)
    requires i < |a.minTs|
  {
    match p
    case ReadBegun(snapshot) => HoldsRead(o, a, i) && QuorumsReach(snapshot, a.minTs[i])
    case ReadFirst(snapshot, _, acc) =>
      HoldsRead(o, a, i) && QuorumsReach(snapshot, a.minTs[i]) && MaxPersisted(a.lin.queue, acc)
    case ReadWriteBack(_, _, acc) =>
      && HoldsRead(o, a, i) && acc.maxResp.Some? && MaxPersisted(a.lin.queue, acc)
      && acc.maxResp.value.value == o.value(i) && Le(a.minTs[i], acc.maxResp.value.ts)
    case ReadDone(v, ts) =>
      && SawIn(a.lin.register.log, i, v) && Le(a.minTs[i], ts) && Le(ts, a.lin.queue.watermark)
      && NoTokens(a.lin.queue, i)
    case ReadFailed(_) => ToldTrue(a, i)
    case _ => true
  }

  ghost predicate WriteAtPhase(o: Oracle, a: Shared, i: OpId, op: Op)
    requires i < |a.minTs| && op.kind.WriteOp?
  {
    var p := op.phase;
    if p.WriteBegun? || p.WriteQuery? then
      && QuorumsReach(p.snapshot, a.minTs[i])
      && (if Lt(a.minTs[i], Prophesied(o, i, op)) then HoldsWrite(a, i, Prophesied(o, i, op), op.kind.value, false)
          else NoTokens(a.lin.queue, i) && Unlogged(a.lin.register.log, i))
    else if p.WriteChosen? || p.WriteReady? || p.WriteSent? then HoldsChosen(o, a, i, op, p.ts)
    else if p.WriteFailed? then if p.chosen.Some? then HoldsChosen(o, a, i, op, p.chosen.value) else ToldTrue(a, i)
    else if p.WriteDone? then
      && Wrote(i, op.kind.value, p.ts) in a.lin.register.log && Lt(a.minTs[i], p.ts) && Le(p.ts, a.lin.queue.watermark)
      && NoTokens(a.lin.queue, i)
    else true
  }

  ghost predicate OpAt(o: Oracle, s: Sys, a: Shared, i: OpId) {
    i < |s.ops| ==>
      && i < |a.minTs|
      && Le(a.minTs[i], a.lin.queue.watermark)
      && (s.ops[i].kind.ReadOp? ==> ReadAtPhase(o, a, i, s.ops[i].phase))
      && (s.ops[i].kind.WriteOp? ==> WriteAtPhase(o, a, i, s.ops[i]))
  }

  ghost predicate WriteTokenAt(s: Sys, q: Queue, t: Timestamp) {
    t in q.writeTokens ==>
      q.writeTokens[t].lin < |s.ops| && s.ops[q.writeTokens[t].lin].kind == WriteOp(q.writeTokens[t].value)
  }

  ghost predicate ReadTokenAt(s: Sys, q: Queue, k: ReadKey) {
    k in q.readTokens ==> q.readTokens[k].lin < |s.ops| && s.ops[q.readTokens[k].lin].kind == ReadOp
  }

  /** A log entry belongs to an operation of its kind. */
  ghost predicate EntryAt(s: Sys, e: LinEvent) {
    e.lin < |s.ops| && s.ops[e.lin].kind == if e.Wrote? then WriteOp(e.value) else ReadOp
  }

  ghost predicate Entries(s: Sys, log: seq<LinEvent>) {
    forall e :: e in log ==> EntryAt(s, e)
  }

  /** Everything about the shared state but the queue's own invariant. */
  ghost predicate Linked(o: Oracle, s: Sys, a: Shared) {
    && |a.minTs| == |s.ops|
    && |a.readKeys| == |s.ops|
    && QuorumsReach(Times(s.servers), a.lin.queue.watermark)
    && (forall t :: AllocatedAt(s, a, t))
    && (forall k :: ReplicaAt(s, a, k))
    && (forall m :: MessageAt(s, a, m))
    && (forall i :: OpAt(o, s, a, i))
    && (forall t :: WriteTokenAt(s, a.lin.queue, t))
    && (forall k :: ReadTokenAt(s, a.lin.queue, k))
    && (forall i :: GivenAt(s, a, i))
    && Entries(s, a.lin.register.log)
  }

  /** The global invariant: the register holds the value at the watermark, the queue's
      timestamps are the allocated ones, and every majority has reached the watermark. */
  ghost predicate GlobalInv(o: Oracle, s: Sys, a: Shared) {
    SysInv(s) && Inv(a.lin) && Linked(o, s, a)
  }

  // ------------------------------------------------ what a step leaves alone

  /** Operations are only added, or change phase. */
  ghost predicate OpsGrow(s: Sys, s1: Sys) {
    && |s.ops| <= |s1.ops|
    && (forall j :: 0 <= j < |s.ops| ==> s1.ops[j] == s.ops[j].(phase := s1.ops[j].phase))
  }

  ghost predicate RecordsGrow(a: Shared, a1: Shared) {
    && a.minTs <= a1.minTs && a.readKeys <= a1.readKeys
    && (forall j :: j in a.given ==> j in a1.given && a1.given[j] == a.given[j])
  }

  /** An operation of which the queue holds nothing is not put in the log for another. */
  lemma GoneStays(a: Shared, a1: Shared, i: Lin, j: OpId)
    requires Frame(a.lin, a1.lin, i) && i != j && NoTokens(a.lin.queue, j)
    ensures NoTokens(a1.lin.queue, j)
    ensures Unlogged(a1.lin.register.log, j) <==> Unlogged(a.lin.register.log, j)
  {
    var log, log1 := a.lin.register.log, a1.lin.register.log;
    forall t ensures !OwnsWrite(a1.lin.queue, j, t) {
      assert WriteKept(a.lin.queue, a1.lin.queue, i, t) && !OwnsWrite(a.lin.queue, j, t);
    }
    forall k | k in a1.lin.queue.readTokens ensures a1.lin.queue.readTokens[k].lin != j {
      assert ReadKept(a.lin.queue, a1.lin.queue, i, k);
    }
    forall n | |log| <= n < |log1| ensures log1[n].lin != j {
      assert TokenFor(a.lin.queue, log1[n]) || TokenFor(a1.lin.queue, log1[n]);
      assert !OwnsWrite(a.lin.queue, j, log1[n].ts) && !OwnsWrite(a1.lin.queue, j, log1[n].ts);
    }
    if e :| e in log && e.lin == j {
      InPrefix(log, log1, e);
    }
    if e :| e in log1 && e.lin == j {
      var n :| 0 <= n < |log1| && log1[n] == e;
      assert log[n] == e;
    }
  }

  lemma HoldsReadStays(o: Oracle, a: Shared, a1: Shared, i: Lin, j: OpId)
    requires RecordsGrow(a, a1) && (forall k :: ReadKept(a.lin.queue, a1.lin.queue, i, k))
    requires HoldsRead(o, a, j) && i != j
    ensures HoldsRead(o, a1, j)
  {
    assert ReadKept(a.lin.queue, a1.lin.queue, i, a.readKeys[j]);
  }

  lemma HoldsWriteStays(a: Shared, a1: Shared, i: Lin, j: OpId, ts: Timestamp, value: Value, committed: bool)
    requires (forall t :: WriteKept(a.lin.queue, a1.lin.queue, i, t))
    requires HoldsWrite(a, j, ts, value, committed) && i != j
    ensures HoldsWrite(a1, j, ts, value, committed)
  {
    assert WriteKept(a.lin.queue, a1.lin.queue, i, ts);
  }

  lemma MaxStays(a: Shared, a1: Shared, i: Lin, acc: ReadAcc)
    requires (forall t :: WriteKept(a.lin.queue, a1.lin.queue, i, t)) && MaxPersisted(a.lin.queue, acc)
    ensures MaxPersisted(a1.lin.queue, acc)
  {
    if acc.maxResp.Some? {
      assert WriteKept(a.lin.queue, a1.lin.queue, i, acc.maxResp.value.ts);
    }
  }

  lemma ReadStays(o: Oracle, a: Shared, a1: Shared, i: Lin, j: OpId, p: Phase)
    requires RecordsGrow(a, a1) && Frame(a.lin, a1.lin, i) && i != j
    requires j < |a.minTs| && ReadAtPhase(o, a, j, p)
    ensures ReadAtPhase(o, a1, j, p)
  {
    if p.ReadBegun? || p.ReadFirst? || p.ReadWriteBack? {
      HoldsReadStays(o, a, a1, i, j);
    }
    if p.ReadFirst? || p.ReadWriteBack? {
      MaxStays(a, a1, i, p.reading);
    }
    if p.ReadFailed? {
      GoneStays(a, a1, i, j);
    }
    if p.ReadDone? {
      GoneStays(a, a1, i, j);
      var t :| Saw(j, p.value, t) in a.lin.register.log;
      InPrefix(a.lin.register.log, a1.lin.register.log, Saw(j, p.value, t));
    }
  }

  lemma WriteStays(o: Oracle, a: Shared, a1: Shared, i: Lin, j: OpId, op: Op)
    requires RecordsGrow(a, a1) && Frame(a.lin, a1.lin, i) && i != j
    requires j < |a.minTs| && op.kind.WriteOp? && WriteAtPhase(o, a, j, op)
    ensures WriteAtPhase(o, a1, j, op)
  {
    var p := op.phase;
    if p.WriteBegun? || p.WriteQuery? {
      if Lt(a.minTs[j], Prophesied(o, j, op)) {
        HoldsWriteStays(a, a1, i, j, Prophesied(o, j, op), op.kind.value, false);
      } else {
        GoneStays(a, a1, i, j);
      }
    } else if p.WriteDone? {
      GoneStays(a, a1, i, j);
      InPrefix(a.lin.register.log, a1.lin.register.log, Wrote(j, op.kind.value, p.ts));
    } else if p.WriteFailed? && p.chosen.None? {
      GoneStays(a, a1, i, j);
    } else {
      if p.WriteChosen? || p.WriteReady? || p.WriteSent? || p.WriteFailed? {
        HoldsWriteStays(a, a1, i, j, if p.WriteFailed? then p.chosen.value else p.ts, op.kind.value, true);
      }
    }
  }

  lemma OpStays(o: Oracle, s: Sys, a: Shared, s1: Sys, a1: Shared, i: Lin, j: OpId)
    requires RecordsGrow(a, a1) && Frame(a.lin, a1.lin, i) && i != j
    requires OpAt(o, s, a, j) && j < |s.ops| && j < |s1.ops| && s1.ops[j] == s.ops[j]
    ensures OpAt(o, s1, a1, j)
  {
    if s.ops[j].kind.ReadOp? {
      ReadStays(o, a, a1, i, j, s.ops[j].phase);
    } else {
      WriteStays(o, a, a1, i, j, s.ops[j]);
    }
  }

  lemma ReplicaStays(s: Sys, a: Shared, s1: Sys, a1: Shared, i: Lin, k: ServerId)
    requires forall t :: WriteKept(a.lin.queue, a1.lin.queue, i, t)
    requires ReplicaAt(s, a, k) && k in s.servers && k in s1.servers && s1.servers[k] == s.servers[k]
    ensures ReplicaAt(s1, a1, k)
  {
    assert WriteKept(a.lin.queue, a1.lin.queue, i, s.servers[k].ts);
  }

  lemma MessageStaysAt(s: Sys, a: Shared, s1: Sys, a1: Shared, i: Lin, m: Message)
    requires forall t :: WriteKept(a.lin.queue, a1.lin.queue, i, t)
    requires MessageAt(s, a, m) && m in s.net
    ensures MessageAt(s1, a1, m)
  {
    if m.ToServer? && m.request.Write? {
      assert WriteKept(a.lin.queue, a1.lin.queue, i, m.request.ts);
    }
    if m.ToClient? && m.response.GetResponse? {
      assert WriteKept(a.lin.queue, a1.lin.queue, i, m.response.reading.ts);
    }
  }

  lemma EntriesStay(s: Sys, a: Shared, s1: Sys, a1: Shared, i: Lin)
    requires OpsGrow(s, s1) && Frame(a.lin, a1.lin, i) && Entries(s, a.lin.register.log)
    requires forall t :: WriteTokenAt(s, a.lin.queue, t)
    requires forall k :: ReadTokenAt(s, a.lin.queue, k)
    requires forall t :: WriteTokenAt(s1, a1.lin.queue, t)
    requires forall k :: ReadTokenAt(s1, a1.lin.queue, k)
    ensures Entries(s1, a1.lin.register.log)
  {
    var log, log1 := a.lin.register.log, a1.lin.register.log;
    forall e | e in log1 ensures EntryAt(s1, e) {
      var n :| 0 <= n < |log1| && log1[n] == e;
      if n < |log| {
        assert log[n] == e;
        assert EntryAt(s, e);
      } else {
        var (s0, q) := if NewEntriesFrom(a.lin.queue, log, log1) then (s, a.lin.queue) else (s1, a1.lin.queue);
        assert TokenFor(q, e);
        if e.Wrote? {
          assert WriteTokenAt(s0, q, e.ts);
        } else {
          var k :| k in q.readTokens && k.0 == e.value && q.readTokens[k].lin == e.lin;
          assert ReadTokenAt(s0, q, k);
        }
      }
    }
  }

  lemma TokensStay(s: Sys, a: Shared, s1: Sys, a1: Shared, i: Lin)
    requires OpsGrow(s, s1) && Frame(a.lin, a1.lin, i)
    requires forall t :: WriteTokenAt(s, a.lin.queue, t)
    requires forall k :: ReadTokenAt(s, a.lin.queue, k)
    requires forall t :: OwnsWrite(a1.lin.queue, i, t) ==> WriteTokenAt(s1, a1.lin.queue, t)
    requires forall k :: k in a1.lin.queue.readTokens && a1.lin.queue.readTokens[k].lin == i ==>
        ReadTokenAt(s1, a1.lin.queue, k)
    ensures forall t :: WriteTokenAt(s1, a1.lin.queue, t)
    ensures forall k :: ReadTokenAt(s1, a1.lin.queue, k)
  {
    forall t ensures WriteTokenAt(s1, a1.lin.queue, t) {
      assert WriteKept(a.lin.queue, a1.lin.queue, i, t) && WriteTokenAt(s, a.lin.queue, t);
      if OwnsWrite(a1.lin.queue, i, t) {}
    }
    forall k ensures ReadTokenAt(s1, a1.lin.queue, k) {
      assert ReadKept(a.lin.queue, a1.lin.queue, i, k) && ReadTokenAt(s, a.lin.queue, k);
    }
  }

  /** What is new after a step that served operation `i`, to be checked for each kind of step. */
  ghost predicate NewLinked(o: Oracle, s: Sys, a: Shared, s1: Sys, a1: Shared, i: Lin) {
    && |a1.minTs| == |s1.ops| && |a1.readKeys| == |s1.ops|
    && QuorumsReach(Times(s1.servers), a1.lin.queue.watermark)
    && (forall t :: AllocatedAt(s1, a1, t))
    && (forall k :: k in s1.servers && !(k in s.servers && s1.servers[k] == s.servers[k]) ==> ReplicaAt(s1, a1, k))
    && (forall m :: m in s1.net && m !in s.net ==> MessageAt(s1, a1, m))
    && (forall j :: 0 <= j < |s1.ops| && !(j != i && j < |s.ops| && s1.ops[j] == s.ops[j]) ==> OpAt(o, s1, a1, j))
    && (forall t :: OwnsWrite(a1.lin.queue, i, t) ==> WriteTokenAt(s1, a1.lin.queue, t))
    && (forall k :: k in a1.lin.queue.readTokens && a1.lin.queue.readTokens[k].lin == i ==>
        ReadTokenAt(s1, a1.lin.queue, k))
    && (forall j :: GivenAt(s1, a1, j))
  }

  lemma KeepLinked(o: Oracle, s: Sys, a: Shared, s1: Sys, a1: Shared, i: Lin)
    requires Linked(o, s, a) && OpsGrow(s, s1) && RecordsGrow(a, a1) && Frame(a.lin, a1.lin, i)
    requires NewLinked(o, s, a, s1, a1, i)
    ensures Linked(o, s1, a1)
  {
    TokensStay(s, a, s1, a1, i);
    EntriesStay(s, a, s1, a1, i);
    forall k ensures ReplicaAt(s1, a1, k) {
      if k in s.servers && k in s1.servers && s1.servers[k] == s.servers[k] {
        assert ReplicaAt(s, a, k);
        ReplicaStays(s, a, s1, a1, i, k);
      }
    }
    forall m ensures MessageAt(s1, a1, m) {
      if m in s.net {
        assert MessageAt(s, a, m);
        MessageStaysAt(s, a, s1, a1, i, m);
      }
    }
    forall j: OpId ensures OpAt(o, s1, a1, j) {
      if j != i && j < |s.ops| && j < |s1.ops| && s1.ops[j] == s.ops[j] {
        assert OpAt(o, s, a, j);
        OpStays(o, s, a, s1, a1, i, j);
      }
    }
  }

  lemma InitialLinked(o: Oracle, s: Sys)
    requires Init(s)
    ensures GlobalInv(o, s, INITIAL_SHARED)
  {
    InitKeeps(s);
    InitialInv();
    var a := INITIAL_SHARED;
    forall t ensures AllocatedAt(s, a, t) {}
    forall k ensures ReplicaAt(s, a, k) {}
    forall m ensures MessageAt(s, a, m) {}
    forall i ensures GivenAt(s, a, i) {}
    forall q | ValidQuorum(Times(s.servers), q) ensures Le(DEFAULT, QuorumTimestamp(Times(s.servers), q)) {
    }
  }
}
