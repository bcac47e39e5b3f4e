/** Invariants of the linearization queue and the proof that every operation keeps
    them, so that linearizers are applied in timestamp order, at most once, and are
    never lost. */
module LinQueueProof {
  import opened Timestamps
  import opened LinQueueSpec

  // ------------------------------------------------------------- invariants

  /** A write token is either completed, at or below the watermark and with the
      committed value, or pending, above the watermark; never both. */
  ghost predicate WriteAt(q: Queue, t: Timestamp) {
    && (t in q.committedTo ==> Le(t, q.watermark))
    && (t in q.writeTokens <==> t in q.completedWrites || t in q.pendingWrites)
    && (t in q.completedWrites ==>
          && t in q.committedTo
          && q.completedWrites[t].value == q.committedTo[t]
          && q.completedWrites[t].value == q.writeTokens[t].value
          && q.completedWrites[t].lin == q.writeTokens[t].lin)
    && (t in q.pendingWrites ==>
          && Lt(q.watermark, t)
          && q.pendingWrites[t] == PendingWrite(q.writeTokens[t].lin, q.writeTokens[t].value,
              q.writeTokens[t].committed))
  }

  /** A read token is either completed, at a timestamp in its window that has its
      value, or pending, and then no timestamp in its window has its value. While
      the readers of the watermark are being served (`weak`) a pending read may
      still have its value at the watermark itself. */
  ghost predicate ReadAt(q: Queue, k: ReadKey, weak: bool) {
    && (k in q.readTokens <==> k in q.completedReads || k in q.pendingReads)
    && !(k in q.completedReads && k in q.pendingReads)
    && (k in q.readTokens ==> k.1 < q.nextReadOp && Le(q.readTokens[k].minTs, q.watermark))
    && (k in q.completedReads ==>
          var c := q.completedReads[k];
          && c.ts in q.committedTo
          && q.committedTo[c.ts] == k.0
          && Le(q.readTokens[k].minTs, c.ts)
          && Le(c.ts, q.watermark)
          && c.lin == q.readTokens[k].lin)
    && (k in q.pendingReads ==>
          && q.pendingReads[k].lin == q.readTokens[k].lin
          && (forall t :: t in q.committedTo && Le(q.readTokens[k].minTs, t) && (weak ==> t != q.watermark) ==>
                q.committedTo[t] != k.0))
  }

  ghost predicate QueueInv(q: Queue, weak: bool) {
    && q.watermark in q.committedTo
    && (forall t :: WriteAt(q, t))
    && (forall k :: ReadAt(q, k, weak))
  }

  /** No two tokens stand for the same linearizer. */
  ghost predicate LinearizersDistinct(q: Queue) {
    && (forall t, u :: t in q.writeTokens && u in q.writeTokens && q.writeTokens[t].lin == q.writeTokens[u].lin ==>
        t == u)
    && (forall k, l :: k in q.readTokens && l in q.readTokens && q.readTokens[k].lin == q.readTokens[l].lin ==> k == l)
    && (forall t, k :: t in q.writeTokens && k in q.readTokens ==> q.writeTokens[t].lin != q.readTokens[k].lin)
  }

  ghost predicate Unlogged(log: seq<LinEvent>, lin: Lin) {
    forall e :: e in log ==> e.lin != lin
  }

  /** What the register holds after a log: the last value written. */
  ghost function ValueAfter(log: seq<LinEvent>): Value {
    if log == [] then None
    else
      var e := log[|log| - 1];
      if e.Wrote? then e.value else ValueAfter(log[..|log| - 1])
  }

  /** Every read in the log saw the last value written before it. */
  ghost predicate Legal(log: seq<LinEvent>) {
    forall i :: 0 <= i < |log| && log[i].Saw? ==> log[i].value == ValueAfter(log[..i])
  }

  ghost predicate NoRepeats(log: seq<LinEvent>) {
    forall i, j :: 0 <= i < j < |log| ==> log[i].lin != log[j].lin
  }

  /** The log is in timestamp order and each write has a timestamp of its own. */
  ghost predicate InTimestampOrder(log: seq<LinEvent>) {
    forall i, j :: 0 <= i < j < |log| ==> Le(log[i].ts, log[j].ts) && (log[j].Wrote? ==> Lt(log[i].ts, log[j].ts))
  }

  ghost predicate LogInv(log: seq<LinEvent>) {
    Legal(log) && NoRepeats(log) && InTimestampOrder(log)
  }

  ghost predicate RegisterInv(q: Queue, r: Register) {
    && q.watermark in q.committedTo
    && r.value == q.committedTo[q.watermark]
    && r.value == ValueAfter(r.log)
    && LogInv(r.log)
    && (forall e :: e in r.log ==> e.ts in q.committedTo && q.committedTo[e.ts] == e.value)
  }

  /** A write's linearizer is in the log exactly when the write is completed. */
  ghost predicate LoggedWrite(q: Queue, log: seq<LinEvent>, t: Timestamp) {
    && (t in q.completedWrites ==> Wrote(q.completedWrites[t].lin, q.completedWrites[t].value, t) in log)
    && (t in q.pendingWrites ==> Unlogged(log, q.pendingWrites[t].lin))
  }

  ghost predicate LoggedRead(q: Queue, log: seq<LinEvent>, k: ReadKey) {
    && (k in q.completedReads ==> Saw(q.completedReads[k].lin, k.0, q.completedReads[k].ts) in log)
    && (k in q.pendingReads ==> Unlogged(log, q.pendingReads[k].lin))
  }

  ghost predicate Logged(q: Queue, log: seq<LinEvent>) {
    && (forall t :: LoggedWrite(q, log, t))
    && (forall k :: LoggedRead(q, log, k))
  }

  ghost predicate InvParam(s: LinState, weak: bool) {
    && QueueInv(s.queue, weak)
    && LinearizersDistinct(s.queue)
    && RegisterInv(s.queue, s.register)
    && Logged(s.queue, s.register.log)
  }

  ghost predicate Inv(s: LinState) {
    InvParam(s, false)
  }

  /** A linearizer the queue has never seen. */
  ghost predicate Fresh(s: LinState, lin: Lin) {
    && Unlogged(s.register.log, lin)
    && (forall t :: t in s.queue.writeTokens ==> s.queue.writeTokens[t].lin != lin)
    && (forall k :: k in s.queue.readTokens ==> s.queue.readTokens[k].lin != lin)
  }

  // --------------------------------------------------------- log lemmas

  lemma AppendToLog(log: seq<LinEvent>, e: LinEvent)
    requires LogInv(log) && Unlogged(log, e.lin)
    requires forall f :: f in log ==> if e.Wrote? then Lt(f.ts, e.ts) else Le(f.ts, e.ts)
    requires e.Saw? ==> e.value == ValueAfter(log)
    ensures LogInv(log + [e])
    ensures ValueAfter(log + [e]) == if e.Wrote? then e.value else ValueAfter(log)
  {
    var log1 := log + [e];
    assert log1[..|log1| - 1] == log;
    forall i | 0 <= i < |log1| && log1[i].Saw? ensures log1[i].value == ValueAfter(log1[..i]) {
      assert log1[..i] == log[..i];
      if i == |log| {
        assert log[..i] == log;
      }
    }
  }

  lemma InitialInv()
    ensures Inv(INITIAL)
  {
    forall t ensures WriteAt(INITIAL_QUEUE, t) {}
    forall k ensures ReadAt(INITIAL_QUEUE, k, false) {}
  }

  // ------------------------------------------------------- inserting

  lemma InsertWriteKeeps(s: LinState, s1: LinState, lin: Lin, value: Value, ts: Timestamp)
    requires Inv(s) && Fresh(s, lin) && ts !in KnownTimestamps(s.queue)
    requires InsertWrite(s.queue, lin, value, ts) == Some(s1.queue) && s1.register == s.register
    ensures Inv(s1)
  {
    var q, q1 := s.queue, s1.queue;
    assert WriteAt(q, ts);
    forall t ensures WriteAt(q1, t) { assert WriteAt(q, t); }
    forall k ensures ReadAt(q1, k, false) { assert ReadAt(q, k, false); }
    forall t ensures LoggedWrite(q1, s1.register.log, t) { assert LoggedWrite(q, s.register.log, t); }
    forall k ensures LoggedRead(q1, s1.register.log, k) { assert LoggedRead(q, s.register.log, k); }
  }

  lemma InsertPendingReadKeeps(s: LinState, s1: LinState, lin: Lin, value: Value)
    requires Inv(s) && Fresh(s, lin) && s1.register == s.register
    requires
      var q := s.queue;
      var key := (value, q.nextReadOp);
      s1.queue == q.(readTokens := q.readTokens[key := ReadToken(lin, q.watermark)], nextReadOp := q.nextReadOp + 1,
                     pendingReads := q.pendingReads[key := PendingRead(lin)])
    ensures InvParam(s1, true)
    ensures value != s.register.value ==> Inv(s1)
  {
    var q, q1 := s.queue, s1.queue;
    var key := (value, q.nextReadOp);
    assert ReadAt(q, key, false);
    forall t ensures WriteAt(q1, t) { assert WriteAt(q, t); }
    forall k ensures ReadAt(q1, k, true) && (value != s.register.value ==> ReadAt(q1, k, false)) {
      assert ReadAt(q, k, false);
      if k == key {
        forall t | t in q.committedTo && Le(q.watermark, t) ensures t == q.watermark {
          assert WriteAt(q, t);
        }
      }
    }
    forall t ensures LoggedWrite(q1, s1.register.log, t) { assert LoggedWrite(q, s.register.log, t); }
    forall k ensures LoggedRead(q1, s1.register.log, k) { assert LoggedRead(q, s.register.log, k); }
  }

  // ----------------------------------------------- applying linearizers

  lemma ApplyReadKeeps(s: LinState, key: ReadKey)
    requires InvParam(s, true) && key in s.queue.pendingReads && key.0 == s.register.value
    ensures InvParam(ApplyRead(s, key), true)
  {
    var s1 := ApplyRead(s, key);
    var q, q1, log, log1 := s.queue, s1.queue, s.register.log, s1.register.log;
    var e := Saw(q.pendingReads[key].lin, key.0, q.watermark);
    assert ReadAt(q, key, true) && LoggedRead(q, log, key);
    forall f | f in log ensures Le(f.ts, e.ts) { assert WriteAt(q, f.ts); }
    AppendToLog(log, e);
    forall t ensures WriteAt(q1, t) { assert WriteAt(q, t); }
    forall k ensures ReadAt(q1, k, true) { assert ReadAt(q, k, true); }
    forall t ensures LoggedWrite(q1, log1, t) { assert LoggedWrite(q, log, t) && WriteAt(q, t); }
    forall k ensures LoggedRead(q1, log1, k) { assert LoggedRead(q, log, k) && ReadAt(q, k, true); }
  }

  lemma ApplyWriteKeeps(s: LinState, ts: Timestamp)
    requires Inv(s) && ts in s.queue.pendingWrites
    requires forall t :: t in s.queue.pendingWrites ==> Le(ts, t)
    ensures InvParam(ApplyWrite(s, ts), true)
  {
    var s1 := ApplyWrite(s, ts);
    var q, q1, log, log1 := s.queue, s1.queue, s.register.log, s1.register.log;
    var e := Wrote(q.pendingWrites[ts].lin, q.pendingWrites[ts].value, ts);
    assert WriteAt(q, ts) && LoggedWrite(q, log, ts);
    forall f | f in log ensures Lt(f.ts, ts) { assert WriteAt(q, f.ts); }
    AppendToLog(log, e);
    forall t ensures WriteAt(q1, t) { assert WriteAt(q, t); }
    forall k ensures ReadAt(q1, k, true) { assert ReadAt(q, k, false); }
    forall t ensures LoggedWrite(q1, log1, t) { assert LoggedWrite(q, log, t) && WriteAt(q, t); }
    forall k ensures LoggedRead(q1, log1, k) { assert LoggedRead(q, log, k) && ReadAt(q, k, false); }
  }

  /** Serving the readers of the current value completes the invariant. */
  lemma {:induction false} ApplyReadsKeeps(s: LinState)
    requires InvParam(s, true)
    ensures Inv(ApplyReads(s))
    decreases |ReadsOf(s.queue, s.register.value)|
  {
    var waiting := ReadsOf(s.queue, s.register.value);
    if waiting == {} {
      forall k ensures ReadAt(s.queue, k, false) {
        assert ReadAt(s.queue, k, true);
        assert k !in waiting;
      }
    } else {
      var key :| key in waiting && ApplyReads(s) == ApplyReads(ApplyRead(s, key));
      assert ReadsOf(ApplyRead(s, key).queue, s.register.value) == waiting - {key};
      ApplyReadKeeps(s, key);
      ApplyReadsKeeps(ApplyRead(s, key));
    }
  }

  /** Key `k` after completing the pending reads in `keys` at the watermark. */
  ghost predicate ServedAt(q: Queue, r: Queue, keys: set<ReadKey>, k: ReadKey) {
    && (k in r.pendingReads <==> k in q.pendingReads && k !in keys)
    && (k in r.pendingReads ==> r.pendingReads[k] == q.pendingReads[k])
    && (k in r.completedReads <==> k in q.completedReads || k in keys)
    && (k in keys ==> k in q.pendingReads && r.completedReads[k] == CompletedRead(q.pendingReads[k].lin, q.watermark))
    && (k !in keys && k in q.completedReads ==> r.completedReads[k] == q.completedReads[k])
  }

  /** The queue after completing exactly the pending reads in `keys`. */
  ghost predicate ReadsServed(q: Queue, r: Queue, keys: set<ReadKey>) {
    && (forall k :: ServedAt(q, r, keys, k))
    && r == q.(pendingReads := r.pendingReads, completedReads := r.completedReads)
  }

  lemma ApplyReadEffect(s: LinState, key: ReadKey)
    requires key in s.queue.pendingReads
    ensures ReadsServed(s.queue, ApplyRead(s, key).queue, {key})
  {
    forall k ensures ServedAt(s.queue, ApplyRead(s, key).queue, {key}, k) {}
  }

  lemma ReadsServedCompose(q: Queue, q1: Queue, r: Queue, key: ReadKey, keys: set<ReadKey>)
    requires key in keys && ReadsServed(q, q1, {key}) && ReadsServed(q1, r, keys - {key})
    ensures ReadsServed(q, r, keys)
  {
    forall k ensures ServedAt(q, r, keys, k) {
      assert ServedAt(q, q1, {key}, k) && ServedAt(q1, r, keys - {key}, k);
    }
  }

  /** Serving the readers completes exactly those of the current value, at the
      watermark, and touches nothing else. */
  lemma {:induction false} ApplyReadsEffect(s: LinState)
    ensures ReadsServed(s.queue, ApplyReads(s).queue, ReadsOf(s.queue, s.register.value))
    ensures s.register.log <= ApplyReads(s).register.log
    ensures forall i :: |s.register.log| <= i < |ApplyReads(s).register.log| ==> ApplyReads(s).register.log[i].Saw?
    decreases |ReadsOf(s.queue, s.register.value)|
  {
    var waiting := ReadsOf(s.queue, s.register.value);
    if waiting == {} {
      forall k ensures ServedAt(s.queue, s.queue, {}, k) {}
    } else {
      var key :| key in waiting && ApplyReads(s) == ApplyReads(ApplyRead(s, key));
      var s1 := ApplyRead(s, key);
      assert ReadsOf(s1.queue, s.register.value) == waiting - {key};
      ApplyReadEffect(s, key);
      ApplyReadsEffect(s1);
      ReadsServedCompose(s.queue, s1.queue, ApplyReads(s).queue, key, waiting);
    }
  }

  /** One turn of `ApplyUpTo`: the least pending write, then its readers. */
  lemma TurnKeeps(s: LinState, ts: Timestamp)
    requires Inv(s) && ts in s.queue.pendingWrites
    requires forall t :: t in s.queue.pendingWrites ==> Le(ts, t)
    ensures Inv(ApplyReads(ApplyWrite(s, ts)))
  {
    ApplyWriteKeeps(s, ts);
    ApplyReadsKeeps(ApplyWrite(s, ts));
  }

  lemma LeastUpToIsLeast(q: Queue, maxTs: Timestamp)
    requires WritesUpTo(q, maxTs) != {}
    ensures forall t :: t in q.pendingWrites ==> Le(Least(WritesUpTo(q, maxTs)), t)
  {
    forall t | t in q.pendingWrites ensures Le(Least(WritesUpTo(q, maxTs)), t) {
      assert t in WritesUpTo(q, maxTs) || Lt(maxTs, t);
    }
  }

  lemma {:induction false} ApplyUpToKeeps(s: LinState, maxTs: Timestamp)
    requires Inv(s)
    ensures Inv(ApplyUpTo(s, maxTs))
    decreases |WritesUpTo(s.queue, maxTs)|
  {
    var writes := WritesUpTo(s.queue, maxTs);
    if writes != {} {
      var next := Least(writes);
      var s1 := ApplyReads(ApplyWrite(s, next));
      assert WritesUpTo(s1.queue, maxTs) == writes - {next};
      LeastUpToIsLeast(s.queue, maxTs);
      TurnKeeps(s, next);
      ApplyUpToKeeps(s1, maxTs);
    }
  }

  /** Timestamp `t` after completing the pending writes in `ts`. */
  ghost predicate AppliedAt(q: Queue, r: Queue, ts: set<Timestamp>, t: Timestamp) {
    && (t in r.pendingWrites <==> t in q.pendingWrites && t !in ts)
    && (t in r.pendingWrites ==> r.pendingWrites[t] == q.pendingWrites[t])
    && (t in r.committedTo <==> t in q.committedTo || t in ts)
    && (t in r.completedWrites <==> t in q.completedWrites || t in ts)
    && (t in ts ==>
          && t in q.pendingWrites
          && r.committedTo[t] == q.pendingWrites[t].value
          && r.completedWrites[t] == CompletedWrite(q.pendingWrites[t].lin, q.pendingWrites[t].value))
    && (t !in ts && t in q.committedTo ==> r.committedTo[t] == q.committedTo[t])
    && (t !in ts && t in q.completedWrites ==> r.completedWrites[t] == q.completedWrites[t])
  }

  /** The queue after completing exactly the pending writes in `ts`. */
  ghost predicate WritesApplied(q: Queue, r: Queue, ts: set<Timestamp>) {
    && (forall t :: AppliedAt(q, r, ts, t))
    && r.writeTokens == q.writeTokens
    && r.readTokens == q.readTokens
    && r.nextReadOp == q.nextReadOp
    && (if ts == {} then r.watermark == q.watermark
        else r.watermark in ts && forall t :: t in ts ==> Le(t, r.watermark))
  }

  /** The writes that `log1` adds to `log` have timestamps in `ts`. */
  ghost predicate NewWritesIn(log: seq<LinEvent>, log1: seq<LinEvent>, ts: set<Timestamp>) {
    forall i :: |log| <= i < |log1| && log1[i].Wrote? ==> log1[i].ts in ts
  }

  lemma TurnEffect(s: LinState, ts: Timestamp)
    requires ts in s.queue.pendingWrites
    ensures WritesApplied(s.queue, ApplyReads(ApplyWrite(s, ts)).queue, {ts})
    ensures s.register.log + [Wrote(s.queue.pendingWrites[ts].lin, s.queue.pendingWrites[ts].value, ts)]
              <= ApplyReads(ApplyWrite(s, ts)).register.log
    ensures NewWritesIn(s.register.log, ApplyReads(ApplyWrite(s, ts)).register.log, {ts})
  {
    ApplyReadsEffect(ApplyWrite(s, ts));
    forall t ensures AppliedAt(s.queue, ApplyReads(ApplyWrite(s, ts)).queue, {ts}, t) {}
  }

  lemma WritesAppliedCompose(q: Queue, q1: Queue, r: Queue, t0: Timestamp, ts: set<Timestamp>)
    requires t0 in ts && forall t :: t in ts ==> Le(t0, t)
    requires WritesApplied(q, q1, {t0})
    requires WritesApplied(q1, r, ts - {t0})
    ensures WritesApplied(q, r, ts)
  {
    forall t ensures AppliedAt(q, r, ts, t) {
      assert AppliedAt(q, q1, {t0}, t) && AppliedAt(q1, r, ts - {t0}, t);
    }
    if ts - {t0} != {} {
      assert Le(t0, r.watermark);
    } else {
      assert ts == {t0};
    }
  }

  lemma {:induction false} ApplyUpToEffect(s: LinState, maxTs: Timestamp)
    ensures WritesApplied(s.queue, ApplyUpTo(s, maxTs).queue, WritesUpTo(s.queue, maxTs))
    ensures s.register.log <= ApplyUpTo(s, maxTs).register.log
    ensures NewWritesIn(s.register.log, ApplyUpTo(s, maxTs).register.log, WritesUpTo(s.queue, maxTs))
    decreases |WritesUpTo(s.queue, maxTs)|
  {
    var writes := WritesUpTo(s.queue, maxTs);
    if writes == {} {
      forall t ensures AppliedAt(s.queue, s.queue, {}, t) {}
    } else {
      var next := Least(writes);
      var s1 := ApplyReads(ApplyWrite(s, next));
      assert WritesUpTo(s1.queue, maxTs) == writes - {next};
      TurnEffect(s, next);
      ApplyUpToEffect(s1, maxTs);
      WritesAppliedCompose(s.queue, s1.queue, ApplyUpTo(s, maxTs).queue, next, writes);
    }
  }
}
