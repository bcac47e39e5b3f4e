/** Every step of the protocol keeps the global invariant, whatever was prophesied,
    as long as what an operation resolves to is what it prophesied. */
module SharedSteps {
  import opened Timestamps
  import opened Quorums
  import opened ReadPhases
  import opened WritePhases
  import opened Protocol
  import opened ProtocolInv
  import opened LinQueueSpec
  import opened LinQueueProof
  import opened LinQueueTheorems
  import opened LinQueueFrames
  import opened SharedState
  import opened StepEffects

  /** The watermark, the log and the records only grow. */
  ghost predicate Moves(a: Shared, a1: Shared) {
    && RecordsGrow(a, a1)
    && Le(a.lin.queue.watermark, a1.lin.queue.watermark)
    && a.lin.register.log <= a1.lin.register.log
  }

  // ------------------------------------------- steps that serve no operation

  lemma AllocationsStay(s: Sys, a: Shared, s1: Sys)
    requires forall t :: AllocatedAt(s, a, t)
    requires forall c :: c in s.writeCtr ==> c in s1.writeCtr && s.writeCtr[c] <= s1.writeCtr[c]
    ensures forall t :: AllocatedAt(s1, a, t)
  {
    forall t ensures AllocatedAt(s1, a, t) { assert AllocatedAt(s, a, t); }
  }

  predicate Failed(p: Phase) {
    p.ReadFailed? || p.WriteFailed?
  }

  /** Operations that were given something back have failed, and stay failed. */
  lemma GivenStays(s: Sys, a: Shared, s1: Sys, a1: Shared, i: OpId)
    requires (forall j :: GivenAt(s, a, j)) && GivenAt(s1, a1, i)
    requires forall j :: j in a1.given && j != i ==> j in a.given
    requires forall j :: 0 <= j < |s.ops| && j != i ==> j < |s1.ops| && s1.ops[j] == s.ops[j]
    ensures forall j :: GivenAt(s1, a1, j)
  {
    forall j: OpId ensures GivenAt(s1, a1, j) { assert GivenAt(s, a, j); }
  }

  /** Operation `i` moved on by itself; the shared state did not change. */
  lemma QuietLinked(o: Oracle, s: Sys, a: Shared, s1: Sys, i: OpId)
    requires Linked(o, s, a) && i < |s.ops|
    requires s1.servers == s.servers && s1.writeCtr == s.writeCtr
    requires OpsGrow(s, s1) && |s1.ops| == |s.ops|
    requires forall j :: 0 <= j < |s.ops| && j != i ==> s1.ops[j] == s.ops[j]
    requires forall m :: m in s1.net && m !in s.net ==> MessageAt(s1, a, m)
    requires OpAt(o, s1, a, i) && !Failed(s.ops[i].phase)
    ensures Linked(o, s1, a)
  {
    AllocationsStay(s, a, s1);
    assert GivenAt(s, a, i);
    GivenStays(s, a, s1, a, i);
    FrameRefl(a.lin, i);
    forall t | OwnsWrite(a.lin.queue, i, t)
        ensures WriteTokenAt(s1, a.lin.queue, t) { assert WriteTokenAt(s, a.lin.queue, t); }
    forall k | k in a.lin.queue.readTokens && a.lin.queue.readTokens[k].lin == i
        ensures ReadTokenAt(s1, a.lin.queue, k) {
      assert ReadTokenAt(s, a.lin.queue, k);
    }
    KeepLinked(o, s, a, s1, a, i);
  }

  /** Operation `i` moved on and was served by the queue, which heard of nothing new. */
  lemma ServedLinked(o: Oracle, s: Sys, a: Shared, s1: Sys, a1: Shared, i: OpId)
    requires Linked(o, s, a) && i < |s.ops| && i < |s1.ops|
    requires s1 == SetPhase(s, i, s1.ops[i].phase).(history := s1.history)
    requires a1 == a.(lin := a1.lin, given := a1.given) && !Failed(s.ops[i].phase)
    requires a1.given == a.given || (Failed(s1.ops[i].phase) && i in a1.given && a1.given == a.given[i := a1.given[i]])
    requires Frame(a.lin, a1.lin, i) && NoNewTokens(a.lin.queue, a1.lin.queue, i)
    requires forall t :: ValueAt(a1.lin.queue, t) == ValueAt(a.lin.queue, t)
    requires QuorumsReach(Times(s.servers), a1.lin.queue.watermark)
    requires OpAt(o, s1, a1, i)
    ensures Linked(o, s1, a1) && Moves(a, a1)
  {
    forall t ensures AllocatedAt(s1, a1, t) { assert AllocatedAt(s, a, t); }
    assert GivenAt(s, a, i);
    GivenStays(s, a, s1, a1, i);
    forall t | OwnsWrite(a1.lin.queue, i, t) ensures WriteTokenAt(s1, a1.lin.queue, t) {
      assert WriteTokenAt(s, a.lin.queue, t);
    }
    forall k | k in a1.lin.queue.readTokens && a1.lin.queue.readTokens[k].lin == i
        ensures ReadTokenAt(s1, a1.lin.queue, k) {
      assert ReadTokenAt(s, a.lin.queue, k);
    }
    KeepLinked(o, s, a, s1, a1, i);
  }

  lemma LoginLinked(o: Oracle, s: Sys, a: Shared, s1: Sys, c: ClientId)
    requires GlobalInv(o, s, a) && Login(s, s1, c)
    ensures Linked(o, s1, a)
  {
    AllocationsStay(s, a, s1);
    forall k ensures ReplicaAt(s1, a, k) { assert ReplicaAt(s, a, k); }
    forall m ensures MessageAt(s1, a, m) { assert MessageAt(s, a, m); }
    forall i: OpId ensures OpAt(o, s1, a, i) { assert OpAt(o, s, a, i); }
    forall i: OpId ensures GivenAt(s1, a, i) { assert GivenAt(s, a, i); }
    forall t ensures WriteTokenAt(s1, a.lin.queue, t) { assert WriteTokenAt(s, a.lin.queue, t); }
    forall k ensures ReadTokenAt(s1, a.lin.queue, k) { assert ReadTokenAt(s, a.lin.queue, k); }
    forall e | e in a.lin.register.log ensures EntryAt(s1, e) { assert EntryAt(s, e); }
  }

  lemma ServeLinked(o: Oracle, s: Sys, a: Shared, s1: Sys, m: Message)
    requires GlobalInv(o, s, a) && Serve(s, s1, m) && Leq(Times(s.servers), Times(s1.servers))
    ensures Linked(o, s1, a)
  {
    ReachIsMonotone(Times(s.servers), Times(s1.servers), a.lin.queue.watermark);
    AllocationsStay(s, a, s1);
    assert ReplicaAt(s, a, m.server) && MessageAt(s, a, m);
    forall k ensures ReplicaAt(s1, a, k) { assert ReplicaAt(s, a, k); }
    forall n ensures MessageAt(s1, a, n) { assert MessageAt(s, a, n); }
    forall i: OpId ensures OpAt(o, s1, a, i) { assert OpAt(o, s, a, i); }
    forall i: OpId ensures GivenAt(s1, a, i) { assert GivenAt(s, a, i); }
    forall t ensures WriteTokenAt(s1, a.lin.queue, t) { assert WriteTokenAt(s, a.lin.queue, t); }
    forall k ensures ReadTokenAt(s1, a.lin.queue, k) { assert ReadTokenAt(s, a.lin.queue, k); }
    forall e | e in a.lin.register.log ensures EntryAt(s1, e) { assert EntryAt(s, e); }
  }

  // ------------------------------------------------------------- reads

  lemma SendGetLinked(o: Oracle, s: Sys, a: Shared, s1: Sys, i: OpId)
    requires GlobalInv(o, s, a) && SendGet(s, s1, i)
    ensures Linked(o, s1, a)
  {
    assert OpAt(o, s, a, i);
    QuietLinked(o, s, a, s1, i);
  }

  lemma TakeReadingLinked(o: Oracle, s: Sys, a: Shared, s1: Sys, i: OpId, m: Message)
    requires GlobalInv(o, s, a) && TakeReading(s, s1, i, m)
    ensures Linked(o, s1, a)
  {
    assert OpAt(o, s, a, i) && MessageAt(s, a, m);
    QuietLinked(o, s, a, s1, i);
  }

  /** The largest reading of a majority is at least what every majority had reached
      when the read began. */
  lemma ReadingsReach(o: Oracle, s: Sys, a: Shared, i: OpId)
    requires OpOk(s, i) && OpAt(o, s, a, i) && HasReadings(s, i)
    ensures Le(a.minTs[i], s.ops[i].phase.reading.maxResp.value.ts)
  {
    var p := s.ops[i].phase;
    assert Times(s.servers).Keys == s.servers.Keys && |p.snapshot| == |p.snapshot.Keys|;
    MaxIsAtLeastMin(p.reading, p.snapshot, a.minTs[i]);
  }

  lemma WriteBackStaysLinked(o: Oracle, s: Sys, a: Shared, s1: Sys, i: OpId)
    requires GlobalInv(o, s, a) && SendWriteBack(s, s1, i)
    requires s.ops[i].phase.reading.maxResp.value.value == o.value(i)
    ensures Linked(o, s1, a)
  {
    assert OpOk(s, i);
    assert OpAt(o, s, a, i);
    ReadingsReach(o, s, a, i);
    QuietLinked(o, s, a, s1, i);
  }

  lemma SendWriteBackLinked(o: Oracle, s: Sys, a: Shared, s1: Sys, i: OpId)
    requires GlobalInv(o, s, a) && SendWriteBack(s, s1, i)
    requires s.ops[i].phase.reading.maxResp.value.value == o.value(i)
    ensures Linked(o, s1, a) && SendWriteBackDoes(s, s1, i)
    ensures
      var r := s.ops[i].phase.reading.maxResp.value;
      i < |a.minTs| && Le(a.minTs[i], r.ts) && Persisted(a.lin.queue, r.ts, r.value)
  {
    assert OpOk(s, i);
    assert OpAt(o, s, a, i);
    SendWriteBackEffect(s, s1, i);
    ReadingsReach(o, s, a, i);
    WriteBackStaysLinked(o, s, a, s1, i);
  }

  lemma TakeWriteBackLinked(o: Oracle, s: Sys, a: Shared, s1: Sys, i: OpId, m: Message)
    requires GlobalInv(o, s, a) && TakeWriteBack(s, s1, i, m)
    ensures Linked(o, s1, a)
  {
    assert OpAt(o, s, a, i);
    QuietLinked(o, s, a, s1, i);
  }

  /** A completion is handed out with the token, so nothing of the operation is left. */
  lemma ReadLeavesNothing(a: Shared, i: OpId, key: ReadKey, ts: Timestamp)
    requires Inv(a.lin) && key in a.lin.queue.readTokens && a.lin.queue.readTokens[key].lin == i
    requires ts in KnownTimestamps(a.lin.queue)
    ensures NoTokens(ReadFinishes(a, key, ts).lin.queue, i)
  {
    ApplyUpToFrame(a.lin, ts, i);
    assert LinearizersDistinct(a.lin.queue);
  }

  lemma WriteLeavesNothing(a: Shared, i: OpId, ts: Timestamp)
    requires Inv(a.lin) && OwnsWrite(a.lin.queue, i, ts) && ts in KnownTimestamps(a.lin.queue)
    ensures NoTokens(WriteFinishes(a, ts).lin.queue, i)
  {
    ApplyUpToFrame(a.lin, ts, i);
    assert LinearizersDistinct(a.lin.queue);
  }

  /** The client that finishes a read first linearizes every write up to its timestamp. */
  lemma ReadFinishesLinked(o: Oracle, s: Sys, a: Shared, s1: Sys, i: OpId, r: Reading)
    requires Linked(o, s, a) && Inv(a.lin) && i < |s.ops| && HoldsRead(o, a, i)
    requires s.ops[i].kind.ReadOp? && !Failed(s.ops[i].phase)
    requires Persisted(a.lin.queue, r.ts, r.value) && r.value == o.value(i) && Le(a.minTs[i], r.ts)
    requires QuorumsReach(Times(s.servers), r.ts)
    requires s1 == End(s, i, ReadDone(r.value, r.ts), Return(i, ReadResult(r.value, r.ts)))
    ensures Linked(o, s1, ReadFinishes(a, a.readKeys[i], r.ts))
    ensures Inv(ReadFinishes(a, a.readKeys[i], r.ts).lin) && Moves(a, ReadFinishes(a, a.readKeys[i], r.ts))
  {
    var key := a.readKeys[i];
    var a1 := ReadFinishes(a, key, r.ts);
    ExtractReadFrame(a.lin, i, key, r.ts);
    ExtractReadSucceeds(a.lin, key, r.ts);
    ReadLeavesNothing(a, i, key, r.ts);
    assert OpAt(o, s, a, i) && OpAt(o, s1, a1, i);
    ServedLinked(o, s, a, s1, a1, i);
  }

  /** A read that is taken out is told the truth, and leaves nothing behind. */
  lemma ReadToldTrue(a: Shared, i: OpId, key: ReadKey)
    requires Inv(a.lin) && key in a.lin.queue.readTokens && a.lin.queue.readTokens[key].lin == i
    ensures CanRemoveRead(a, key) && ToldTrue(ReadFails(a, i, key), i)
  {
    RemoveReadKeeps(a.lin, key);
    assert LinearizersDistinct(a.lin.queue);
  }

  lemma WriteToldTrue(a: Shared, i: OpId, ts: Timestamp)
    requires Inv(a.lin) && OwnsWrite(a.lin.queue, i, ts)
    ensures CanRemoveWrite(a, ts) && ToldTrue(WriteFails(a, i, ts), i)
  {
    RemoveWriteKeeps(a.lin, ts);
    assert LinearizersDistinct(a.lin.queue);
  }

  lemma ReadFailsLinked(o: Oracle, s: Sys, a: Shared, s1: Sys, i: OpId)
    requires Linked(o, s, a) && Inv(a.lin) && i < |s.ops| && HoldsRead(o, a, i)
    requires s.ops[i].kind.ReadOp? && !Failed(s.ops[i].phase)
    requires exists v, e :: s1 == End(s, i, ReadFailed(v), e)
    ensures CanRemoveRead(a, a.readKeys[i])
    ensures Linked(o, s1, ReadFails(a, i, a.readKeys[i])) && Inv(ReadFails(a, i, a.readKeys[i]).lin)
    ensures Moves(a, ReadFails(a, i, a.readKeys[i]))
  {
    var key := a.readKeys[i];
    RemoveReadFrame(a.lin, i, key);
    ReadToldTrue(a, i, key);
    var a1 := ReadFails(a, i, key);
    assert OpAt(o, s, a, i) && OpAt(o, s1, a1, i);
    ServedLinked(o, s, a, s1, a1, i);
  }

  lemma FreshOp(s: Sys, a: Shared)
    requires Entries(s, a.lin.register.log)
    requires forall t :: WriteTokenAt(s, a.lin.queue, t)
    requires forall k :: ReadTokenAt(s, a.lin.queue, k)
    ensures Fresh(a.lin, |s.ops|)
  {
    var q, i := a.lin.queue, |s.ops|;
    forall e | e in a.lin.register.log ensures e.lin != i { assert EntryAt(s, e); }
    forall t | t in q.writeTokens ensures q.writeTokens[t].lin != i { assert WriteTokenAt(s, q, t); }
    forall k | k in q.readTokens ensures q.readTokens[k].lin != i { assert ReadTokenAt(s, q, k); }
  }

  /** A new operation, with what the queue did for it. */
  lemma BegunLinked(o: Oracle, s: Sys, a: Shared, s1: Sys, a1: Shared, op: Op)
    requires Linked(o, s, a) && s1 == Begin(s.(writeCtr := s1.writeCtr), op)
    requires RecordsGrow(a, a1) && |a1.minTs| == |a.minTs| + 1 && |a1.readKeys| == |a.readKeys| + 1
    requires Frame(a.lin, a1.lin, |s.ops|) && a1.lin.queue.watermark == a.lin.queue.watermark
    requires forall t :: AllocatedAt(s1, a1, t)
    requires forall t :: OwnsWrite(a1.lin.queue, |s.ops|, t) ==> WriteTokenAt(s1, a1.lin.queue, t)
    requires forall k :: k in a1.lin.queue.readTokens && a1.lin.queue.readTokens[k].lin == |s.ops| ==>
        ReadTokenAt(s1, a1.lin.queue, k)
    requires OpAt(o, s1, a1, |s.ops|) && a1.given == a.given
    ensures Linked(o, s1, a1) && Moves(a, a1)
  {
    forall j: OpId ensures GivenAt(s1, a1, j) { assert GivenAt(s, a, j); }
    KeepLinked(o, s, a, s1, a1, |s.ops|);
  }

  lemma BeginReadLinked(o: Oracle, s: Sys, a: Shared, s1: Sys, c: ClientId)
    requires GlobalInv(o, s, a) && BeginRead(s, s1, c)
    ensures a.lin.queue.watermark in a.lin.queue.committedTo
    ensures Linked(o, s1, ReadBegins(o, a, |s.ops|)) && Inv(ReadBegins(o, a, |s.ops|).lin)
    ensures Moves(a, ReadBegins(o, a, |s.ops|))
        && ReadBegins(o, a, |s.ops|).lin.queue.watermark == a.lin.queue.watermark
  {
    var i, q := |s.ops|, a.lin.queue;
    var a1 := ReadBegins(o, a, i);
    var key := (o.value(i), q.nextReadOp);
    FreshOp(s, a);
    InsertReadKeeps(a.lin, i, o.value(i));
    assert ReadAt(q, key, false);
    InsertReadFrame(a.lin, i, o.value(i));
    forall t ensures AllocatedAt(s1, a1, t) { assert AllocatedAt(s, a, t); }
    forall t ensures !OwnsWrite(a1.lin.queue, i, t) {}
    assert a1.readKeys[i] == key && a1.minTs[i] == q.watermark;
    BegunLinked(o, s, a, s1, a1, Op(c, ReadOp, 0, ReadBegun(Times(s.servers))));
  }

  /** The counter of a write is new, so no client has allocated its timestamp. */
  lemma PropheciesAreNew(s: Sys, a: Shared, ts: Timestamp)
    requires AllocatedAt(s, a, ts) && ts.clientId in s.writeCtr && ts.clientCtr == s.writeCtr[ts.clientId]
    ensures ts !in a.allocations && ts !in KnownTimestamps(a.lin.queue)
  {
  }

  lemma WriteBeginsAllocated(o: Oracle, s: Sys, a: Shared, s1: Sys, c: ClientId, value: Value)
    requires (forall t :: AllocatedAt(s, a, t)) && BeginWrite(s, s1, c, value)
    requires WriteAt(a.lin.queue, Timestamp(o.seqno(|s.ops|), c, s.writeCtr[c]))
    ensures
      var a1 := WriteBegins(a, |s.ops|, value, Timestamp(o.seqno(|s.ops|), c, s.writeCtr[c]));
      Frame(a.lin, a1.lin, |s.ops|) && (forall t :: AllocatedAt(s1, a1, t))
  {
    var i, ts := |s.ops|, Timestamp(o.seqno(|s.ops|), c, s.writeCtr[c]);
    var a1 := WriteBegins(a, i, value, ts);
    assert AllocatedAt(s, a, ts);
    PropheciesAreNew(s, a, ts);
    if Lt(a.lin.queue.watermark, ts) {
      InsertWriteFrame(a.lin, a1.lin, i, value, ts);
    } else {
      FrameRefl(a.lin, i);
    }
    forall t ensures AllocatedAt(s1, a1, t) { assert AllocatedAt(s, a, t); }
  }

  lemma BeginWriteLinked(o: Oracle, s: Sys, a: Shared, s1: Sys, c: ClientId, value: Value)
    requires GlobalInv(o, s, a) && BeginWrite(s, s1, c, value)
    ensures
      var ts := Timestamp(o.seqno(|s.ops|), c, s.writeCtr[c]);
      && Linked(o, s1, WriteBegins(a, |s.ops|, value, ts)) && Inv(WriteBegins(a, |s.ops|, value, ts).lin)
      && Moves(a, WriteBegins(a, |s.ops|, value, ts))
      && ts !in a.allocations
  {
    var i, q := |s.ops|, a.lin.queue;
    var ts := Timestamp(o.seqno(i), c, s.writeCtr[c]);
    var a1 := WriteBegins(a, i, value, ts);
    assert AllocatedAt(s, a, ts);
    PropheciesAreNew(s, a, ts);
    FreshOp(s, a);
    assert WriteAt(q, ts);
    if Lt(q.watermark, ts) {
      InsertWriteKeeps(a.lin, a1.lin, i, value, ts);
    }
    WriteBeginsAllocated(o, s, a, s1, c, value);
    WriteBegunLinked(o, s, a, s1, a1, c, value);
  }

  lemma WriteBegunLinked(o: Oracle, s: Sys, a: Shared, s1: Sys, a1: Shared, c: ClientId, value: Value)
    requires Linked(o, s, a) && BeginWrite(s, s1, c, value)
    requires
      var i, q, q1 := |s.ops|, a.lin.queue, a1.lin.queue;
      var ts := Timestamp(o.seqno(i), c, s.writeCtr[c]);
      && a1.minTs == a.minTs + [q.watermark] && a1.readKeys == a.readKeys + [(None, 0)] && a1.given == a.given
      && (Le(ts, q.watermark) ==> a1.lin == a.lin)
      && q1.watermark == q.watermark && q1.readTokens == q.readTokens
      && q1.writeTokens == (if Lt(q.watermark, ts) then q.writeTokens[ts := WriteToken(i, value, false)]
          else q.writeTokens)
      && Frame(a.lin, a1.lin, i)
      && Fresh(a.lin, i)
      && (forall t :: AllocatedAt(s1, a1, t))
    ensures Linked(o, s1, a1) && Moves(a, a1)
  {
    var i := |s.ops|;
    var op := Op(c, WriteOp(value), s.writeCtr[c], WriteBegun(Times(s.servers)));
    assert a1.minTs[i] == a.lin.queue.watermark;
    forall t | OwnsWrite(a1.lin.queue, i, t) ensures WriteTokenAt(s1, a1.lin.queue, t) {}
    BegunLinked(o, s, a, s1, a1, op);
  }

  // ------------------------------------------------------------ writes

  lemma SendQueryLinked(o: Oracle, s: Sys, a: Shared, s1: Sys, i: OpId)
    requires GlobalInv(o, s, a) && SendQuery(s, s1, i)
    ensures Linked(o, s1, a)
  {
    assert OpOk(s, i);
    assert OpAt(o, s, a, i);
    QuietLinked(o, s, a, s1, i);
  }

  lemma TakeTimestampLinked(o: Oracle, s: Sys, a: Shared, s1: Sys, i: OpId, m: Message)
    requires GlobalInv(o, s, a) && TakeTimestamp(s, s1, i, m)
    ensures Linked(o, s1, a)
  {
    assert OpOk(s, i);
    assert OpAt(o, s, a, i);
    QuietLinked(o, s, a, s1, i);
  }

  /** A write that chooses what it prophesied was never rejected: the majority it read
      had already reached the watermark at its start, and it chose above them all. */
  lemma ResolvedWasInserted(o: Oracle, s: Sys, a: Shared, i: OpId)
    requires OpOk(s, i) && OpAt(o, s, a, i) && i < |s.ops| && s.ops[i].phase.WriteQuery?
    requires s.ops[i].phase.query.maxResp.Some? && |s.ops[i].phase.query.replies| >= Majority(s)
    requires s.ops[i].phase.query.maxResp.value.seqno + 1 == o.seqno(i)
    ensures
      var ts := NextTimestamp(s.ops[i].phase.query.maxResp.value, s.ops[i].client, s.ops[i].ctr);
      && ts == Prophesied(o, i, s.ops[i])
      && Lt(a.minTs[i], ts)
      && HoldsWrite(a, i, ts, s.ops[i].kind.value, false)
  {
    var p := s.ops[i].phase;
    assert Times(s.servers).Keys == s.servers.Keys && |p.snapshot| == |p.snapshot.Keys|;
    MaxIsQuorumTimestamp(p.query, p.snapshot);
  }

  /** Committing keeps the links, whatever the rest of the queue is like. */
  lemma CommitsLinked(o: Oracle, s: Sys, a: Shared, s1: Sys, i: OpId, ts: Timestamp)
    requires Linked(o, s, a) && i < |s.ops| && s.ops[i].kind.WriteOp? && s.ops[i].phase.WriteQuery?
    requires WriteAt(a.lin.queue, ts) && HoldsWrite(a, i, ts, s.ops[i].kind.value, false)
    requires i < |a.minTs| && Lt(a.minTs[i], ts) && ts == Prophesied(o, i, s.ops[i])
    requires s1 == SetPhase(s, i, WriteChosen(ts))
    ensures Linked(o, s1, WriteCommits(a, ts)) && Moves(a, WriteCommits(a, ts))
  {
    CommitFrame(a.lin, i, ts);
    var a1 := WriteCommits(a, ts);
    assert OpAt(o, s, a, i) && OpAt(o, s1, a1, i);
    ServedLinked(o, s, a, s1, a1, i);
  }

  lemma ChooseLinked(o: Oracle, s: Sys, a: Shared, s1: Sys, i: OpId)
    requires GlobalInv(o, s, a) && Choose(s, s1, i)
    requires s1.ops[i].phase.ts.seqno == o.seqno(i)
    ensures
      var ts := s1.ops[i].phase.ts;
      && ts in a.lin.queue.writeTokens && (Le(ts, a.lin.queue.watermark) || ts in a.lin.queue.pendingWrites)
      && Linked(o, s1, WriteCommits(a, ts)) && Inv(WriteCommits(a, ts).lin)
      && Moves(a, WriteCommits(a, ts)) && ChooseDoes(s, s1, i)
      && a.lin.queue.writeTokens[ts].lin == i && WriteMarked(a.lin.queue, WriteCommits(a, ts).lin.queue, ts)
  {
    assert OpOk(s, i) && OpAt(o, s, a, i);
    ChooseEffect(s, s1, i);
    var ts := s1.ops[i].phase.ts;
    ResolvedWasInserted(o, s, a, i);
    CommitKeeps(a.lin, ts);
    CommitEffect(a.lin, ts);
    assert WriteAt(a.lin.queue, ts);
    CommitsLinked(o, s, a, s1, i, ts);
  }

  lemma PrepareLinked(o: Oracle, s: Sys, a: Shared, s1: Sys, i: OpId)
    requires GlobalInv(o, s, a) && Prepare(s, s1, i)
    ensures Linked(o, s1, a)
  {
    assert OpOk(s, i);
    assert OpAt(o, s, a, i);
    QuietLinked(o, s, a, s1, i);
  }

  lemma SendWriteLinked(o: Oracle, s: Sys, a: Shared, s1: Sys, i: OpId)
    requires GlobalInv(o, s, a) && SendWrite(s, s1, i)
    ensures Linked(o, s1, a)
  {
    assert OpOk(s, i);
    assert OpAt(o, s, a, i);
    CommittedPersists(a.lin, s.ops[i].phase.ts);
    QuietLinked(o, s, a, s1, i);
  }

  lemma TakeAckLinked(o: Oracle, s: Sys, a: Shared, s1: Sys, i: OpId, m: Message)
    requires GlobalInv(o, s, a) && TakeAck(s, s1, i, m)
    ensures Linked(o, s1, a)
  {
    assert OpOk(s, i);
    assert OpAt(o, s, a, i);
    QuietLinked(o, s, a, s1, i);
  }

  lemma FailWriteLinked(o: Oracle, s: Sys, a: Shared, s1: Sys, i: OpId)
    requires GlobalInv(o, s, a) && FailWrite(s, s1, i)
    ensures Linked(o, s1, a)
  {
    assert OpOk(s, i);
    assert OpAt(o, s, a, i);
    QuietLinked(o, s, a, s1, i);
  }

  /** A majority of acknowledgements drags every majority to the write's timestamp. */
  lemma AcksReach(s: Sys, i: OpId)
    requires OpOk(s, i) && i < |s.ops| && s.ops[i].phase.WriteSent? && |s.ops[i].phase.acks.replies| >= Majority(s)
    ensures QuorumsReach(Times(s.servers), s.ops[i].phase.ts)
  {
    var p := s.ops[i].phase;
    assert Times(s.servers).Keys == s.servers.Keys && |p.snapshot| == |p.snapshot.Keys|;
    AcksReachAll(p.acks, p.snapshot, p.ts, Times(s.servers));
  }

  lemma WriteFinishesLinked(o: Oracle, s: Sys, a: Shared, s1: Sys, i: OpId, ts: Timestamp)
    requires Linked(o, s, a) && Inv(a.lin) && i < |s.ops| && s.ops[i].kind.WriteOp? && s.ops[i].phase.WriteSent?
    requires HoldsChosen(o, a, i, s.ops[i], ts) && QuorumsReach(Times(s.servers), ts)
    requires s1 == End(s, i, WriteDone(ts), Return(i, WriteResult))
    ensures Linked(o, s1, WriteFinishes(a, ts)) && Inv(WriteFinishes(a, ts).lin)
    ensures Moves(a, WriteFinishes(a, ts))
  {
    var a1 := WriteFinishes(a, ts);
    ExtractWriteFrame(a.lin, i, ts);
    assert ts in KnownTimestamps(a.lin.queue) by { assert WriteAt(a.lin.queue, ts); }
    WriteLeavesNothing(a, i, ts);
    assert OpAt(o, s, a, i) && OpAt(o, s1, a1, i);
    ServedLinked(o, s, a, s1, a1, i);
  }

  lemma FinishWriteLinked(o: Oracle, s: Sys, a: Shared, s1: Sys, i: OpId)
    requires GlobalInv(o, s, a) && FinishWrite(s, s1, i)
    ensures Linked(o, s1, WriteFinishes(a, s.ops[i].phase.ts)) && Inv(WriteFinishes(a, s.ops[i].phase.ts).lin)
    ensures Moves(a, WriteFinishes(a, s.ops[i].phase.ts))
  {
    assert OpOk(s, i);
    assert OpAt(o, s, a, i);
    AcksReach(s, i);
    WriteFinishesLinked(o, s, a, s1, i, s.ops[i].phase.ts);
  }

  /** A write that was not inserted and fails before it chose still has its linearizer. */
  lemma FailRejectedLinked(o: Oracle, s: Sys, a: Shared, s1: Sys, i: OpId)
    requires GlobalInv(o, s, a) && FailQuery(s, s1, i)
    requires i < |a.minTs| && !Lt(a.minTs[i], Prophesied(o, i, s.ops[i]))
    ensures Linked(o, s1, RejectedFails(a, i)) && Moves(a, RejectedFails(a, i))
  {
    assert OpOk(s, i);
    assert OpAt(o, s, a, i);
    var a1 := RejectedFails(a, i);
    FrameRefl(a.lin, i);
    assert OpAt(o, s1, a1, i);
    ServedLinked(o, s, a, s1, a1, i);
  }

  lemma WriteFailsLinked(o: Oracle, s: Sys, a: Shared, s1: Sys, i: OpId, ts: Timestamp)
    requires Linked(o, s, a) && FailQuery(s, s1, i) && s.ops[i].kind.WriteOp?
    requires CanRemoveWrite(a, ts) && WriteAt(a.lin.queue, ts) && HoldsWrite(a, i, ts, s.ops[i].kind.value, false)
    requires ToldTrue(WriteFails(a, i, ts), i)
    ensures Linked(o, s1, WriteFails(a, i, ts)) && Moves(a, WriteFails(a, i, ts))
  {
    RemovedWriteAt(a.lin, i, ts);
    var a1 := WriteFails(a, i, ts);
    forall t ensures AllocatedAt(s1, a1, t) { assert AllocatedAt(s, a, t) && AllocatedAt(s, a, ts); }
    assert OpAt(o, s, a, i) && OpAt(o, s1, a1, i) && GivenAt(s, a, i);
    GivenStays(s, a, s1, a1, i);
    KeepLinked(o, s, a, s1, a1, i);
  }

  lemma FailQueryLinked(o: Oracle, s: Sys, a: Shared, s1: Sys, i: OpId)
    requires GlobalInv(o, s, a) && FailQuery(s, s1, i) && s.ops[i].kind.WriteOp?
    requires HoldsWrite(a, i, Prophesied(o, i, s.ops[i]), s.ops[i].kind.value, false)
    ensures
      var ts := Prophesied(o, i, s.ops[i]);
      CanRemoveWrite(a, ts) && Linked(o, s1, WriteFails(a, i, ts)) && Inv(WriteFails(a, i, ts).lin)
          && Moves(a, WriteFails(a, i, ts))
  {
    assert OpOk(s, i);
    var ts := Prophesied(o, i, s.ops[i]);
    RemoveWriteKeeps(a.lin, ts);
    assert WriteAt(a.lin.queue, ts);
    WriteToldTrue(a, i, ts);
    WriteFailsLinked(o, s, a, s1, i, ts);
  }

  lemma FailReadLinked(o: Oracle, s: Sys, a: Shared, s1: Sys, i: OpId)
    requires GlobalInv(o, s, a) && (FailFirst(s, s1, i) || FailWriteBack(s, s1, i))
    ensures i < |a.readKeys| && CanRemoveRead(a, a.readKeys[i])
    ensures Linked(o, s1, ReadFails(a, i, a.readKeys[i])) && Inv(ReadFails(a, i, a.readKeys[i]).lin)
    ensures Moves(a, ReadFails(a, i, a.readKeys[i]))
  {
    assert OpOk(s, i) && OpAt(o, s, a, i);
    ReadFailsLinked(o, s, a, s1, i);
  }

  // ---------------------------------------------- the two ways a read finishes

  /** Once enough servers agree, every majority has reached the reading. */
  lemma AgreementReach(s: Sys, i: OpId)
    requires OpOk(s, i) && i < |s.ops| && (s.ops[i].phase.ReadFirst? || s.ops[i].phase.ReadWriteBack?)
    requires |s.ops[i].phase.reading.agreeWithMax| >= Majority(s)
    ensures s.ops[i].phase.reading.maxResp.Some?
    ensures QuorumsReach(Times(s.servers), s.ops[i].phase.reading.maxResp.value.ts)
  {
    var p := s.ops[i].phase;
    assert Times(s.servers).Keys == s.servers.Keys && |p.snapshot| == |p.snapshot.Keys|;
    AgreementReachesAll(p.reading, p.snapshot, Times(s.servers));
  }

  lemma FinishUnanimousLinked(o: Oracle, s: Sys, a: Shared, s1: Sys, i: OpId)
    requires GlobalInv(o, s, a) && FinishUnanimous(s, s1, i)
    requires s.ops[i].phase.reading.maxResp.value.value == o.value(i)
    ensures i < |a.readKeys|
    ensures
      var a1 := ReadFinishes(a, a.readKeys[i], s.ops[i].phase.reading.maxResp.value.ts);
      Linked(o, s1, a1) && Inv(a1.lin) && Moves(a, a1)
  {
    assert OpOk(s, i);
    var p := s.ops[i].phase;
    assert OpAt(o, s, a, i);
    ReadingsReach(o, s, a, i);
    AgreementReach(s, i);
    ReadFinishesLinked(o, s, a, s1, i, p.reading.maxResp.value);
  }

  lemma FinishWriteBackLinked(o: Oracle, s: Sys, a: Shared, s1: Sys, i: OpId)
    requires GlobalInv(o, s, a) && FinishWriteBack(s, s1, i)
    ensures i < |a.readKeys|
    ensures
      var a1 := ReadFinishes(a, a.readKeys[i], s.ops[i].phase.reading.maxResp.value.ts);
      Linked(o, s1, a1) && Inv(a1.lin) && Moves(a, a1)
  {
    assert OpOk(s, i);
    var p := s.ops[i].phase;
    assert OpAt(o, s, a, i);
    AgreementReach(s, i);
    ReadFinishesLinked(o, s, a, s1, i, p.reading.maxResp.value);
  }
}
