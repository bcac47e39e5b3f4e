/** What a queue operation made on behalf of one operation leaves alone: the tokens
    of every other operation, every committed value, and the log so far. */
module LinQueueFrames {
  import opened Timestamps
  import opened LinQueueSpec
  import opened LinQueueProof
  import opened LinQueueTheorems

  // ------------------------------------------------------------ vocabulary

  /** The value the queue holds for a timestamp, linearized or pending. */
  function ValueAt(q: Queue, t: Timestamp): Option<Value> {
    if t in q.committedTo then Some(q.committedTo[t])
    else if t in q.pendingWrites then Some(q.pendingWrites[t].value)
    else None
  }

  /** The value of a timestamp that can no longer be withdrawn. */
  ghost predicate Persisted(q: Queue, t: Timestamp, v: Value) {
    ValueAt(q, t) == Some(v) && (t in q.committedTo || q.pendingWrites[t].committed)
  }

  ghost predicate OwnsWrite(q: Queue, i: Lin, t: Timestamp) {
    t in q.writeTokens && q.writeTokens[t].lin == i
  }

  ghost predicate WriteKept(q: Queue, q1: Queue, i: Lin, t: Timestamp) {
    && (t in q.writeTokens && q.writeTokens[t].lin != i ==>
        t in q1.writeTokens && q1.writeTokens[t] == q.writeTokens[t])
    && (t in q1.writeTokens && q1.writeTokens[t].lin != i ==>
        t in q.writeTokens && q1.writeTokens[t] == q.writeTokens[t])
    && (ValueAt(q1, t) == ValueAt(q, t) || OwnsWrite(q, i, t) || OwnsWrite(q1, i, t))
    && (forall v :: Persisted(q, t, v) ==> Persisted(q1, t, v))
  }

  ghost predicate ReadKept(q: Queue, q1: Queue, i: Lin, k: ReadKey) {
    && (k in q.readTokens && q.readTokens[k].lin != i ==> k in q1.readTokens && q1.readTokens[k] == q.readTokens[k])
    && (k in q1.readTokens && q1.readTokens[k].lin != i ==> k in q.readTokens && q1.readTokens[k] == q.readTokens[k])
  }

  /** The operation a log entry belongs to holds a token in the queue. */
  ghost predicate TokenFor(q: Queue, e: LinEvent) {
    if e.Wrote? then e.ts in q.writeTokens && q.writeTokens[e.ts].lin == e.lin && q.writeTokens[e.ts].value == e.value
    else exists k :: k in q.readTokens && k.0 == e.value && q.readTokens[k].lin == e.lin
  }

  ghost predicate NewEntriesFrom(q: Queue, log: seq<LinEvent>, log1: seq<LinEvent>) {
    forall i :: |log| <= i < |log1| ==> TokenFor(q, log1[i])
  }

  /** Only operation `i` was served: it may have gained or lost its tokens; everything
      else moved forward or stayed. */
  ghost predicate Frame(s: LinState, s1: LinState, i: Lin) {
    && Le(s.queue.watermark, s1.queue.watermark)
    && s.register.log <= s1.register.log
    && (forall t :: WriteKept(s.queue, s1.queue, i, t))
    && (forall k :: ReadKept(s.queue, s1.queue, i, k))
    && (NewEntriesFrom(s.queue, s.register.log, s1.register.log)
        || NewEntriesFrom(s1.queue, s.register.log, s1.register.log))
  }

  /** Operation `i` gained no token. */
  ghost predicate NoNewTokens(q: Queue, q1: Queue, i: Lin) {
    && (forall t :: OwnsWrite(q1, i, t) ==> OwnsWrite(q, i, t) && q1.writeTokens[t].value == q.writeTokens[t].value)
    && (forall k :: k in q1.readTokens && q1.readTokens[k].lin == i ==> k in q.readTokens && q.readTokens[k].lin == i)
  }

  lemma InPrefix(log: seq<LinEvent>, log1: seq<LinEvent>, e: LinEvent)
    requires log <= log1 && e in log
    ensures e in log1
  {
    var n :| 0 <= n < |log| && log[n] == e;
    assert log1[n] == e;
  }

  lemma FrameRefl(s: LinState, i: Lin)
    ensures Frame(s, s, i)
  {
    forall t ensures WriteKept(s.queue, s.queue, i, t) {}
    forall k ensures ReadKept(s.queue, s.queue, i, k) {}
  }

  // ----------------------------------------------------------- inserting

  lemma InsertWriteFrame(s: LinState, s1: LinState, i: Lin, value: Value, ts: Timestamp)
    requires InsertWrite(s.queue, i, value, ts) == Some(s1.queue) && s1.register == s.register
    requires ts !in KnownTimestamps(s.queue) && WriteAt(s.queue, ts)
    ensures Frame(s, s1, i)
    ensures OwnsWrite(s1.queue, i, ts) && s1.queue.writeTokens[ts] == WriteToken(i, value, false)
    ensures ValueAt(s.queue, ts) == None && ValueAt(s1.queue, ts) == Some(value)
    ensures forall t :: t != ts ==> ValueAt(s1.queue, t) == ValueAt(s.queue, t)
  {
    forall t ensures WriteKept(s.queue, s1.queue, i, t) {}
    forall k ensures ReadKept(s.queue, s1.queue, i, k) {}
  }

  lemma InsertReadFrame(s: LinState, i: Lin, value: Value)
    requires s.queue.watermark in s.queue.committedTo
    requires (value, s.queue.nextReadOp) !in s.queue.readTokens
    ensures
      var s1 := InsertRead(s, i, value);
      var key := (value, s.queue.nextReadOp);
      && Frame(s, s1, i)
      && s1.queue.watermark == s.queue.watermark
      && key in s1.queue.readTokens && s1.queue.readTokens[key] == ReadToken(i, s.queue.watermark)
      && (forall t :: ValueAt(s1.queue, t) == ValueAt(s.queue, t))
      && s1.queue.writeTokens == s.queue.writeTokens
  {
    var s1 := InsertRead(s, i, value);
    var key := (value, s.queue.nextReadOp);
    forall t ensures WriteKept(s.queue, s1.queue, i, t) {}
    forall k ensures ReadKept(s.queue, s1.queue, i, k) {}
    assert key in s1.queue.readTokens;
    assert NewEntriesFrom(s1.queue, s.register.log, s1.register.log);
  }

  // -------------------------------------------------- applying linearizers

  /** Every pending entry stands for a token. */
  ghost predicate Tokened(q: Queue) {
    && (forall t :: t in q.pendingWrites ==> t in q.writeTokens && q.writeTokens[t].lin == q.pendingWrites[t].lin
                                             && q.writeTokens[t].value == q.pendingWrites[t].value)
    && (forall k :: k in q.pendingReads ==> k in q.readTokens && q.readTokens[k].lin == q.pendingReads[k].lin)
  }

  lemma QueueTokened(q: Queue)
    requires QueueInv(q, false)
    ensures Tokened(q)
  {
    forall t | t in q.pendingWrites
      ensures t in q.writeTokens && q.writeTokens[t].lin == q.pendingWrites[t].lin
          && q.writeTokens[t].value == q.pendingWrites[t].value
    {
      assert WriteAt(q, t);
    }
    forall k | k in q.pendingReads ensures k in q.readTokens && q.readTokens[k].lin == q.pendingReads[k].lin {
      assert ReadAt(q, k, false);
    }
  }

  lemma ApplyReadEntry(s: LinState, key: ReadKey)
    requires Tokened(s.queue) && key in s.queue.pendingReads && key.0 == s.register.value
    ensures Tokened(ApplyRead(s, key).queue)
    ensures NewEntriesFrom(s.queue, s.register.log, ApplyRead(s, key).register.log)
  {
    assert key in s.queue.readTokens;
  }

  lemma {:induction false} ApplyReadsEntries(s: LinState)
    requires Tokened(s.queue)
    ensures Tokened(ApplyReads(s).queue)
    ensures ApplyReads(s).queue.writeTokens == s.queue.writeTokens
        && ApplyReads(s).queue.readTokens == s.queue.readTokens
    ensures s.register.log <= ApplyReads(s).register.log
    ensures NewEntriesFrom(s.queue, s.register.log, ApplyReads(s).register.log)
    decreases |ReadsOf(s.queue, s.register.value)|
  {
    var waiting := ReadsOf(s.queue, s.register.value);
    if waiting != {} {
      var key :| key in waiting && ApplyReads(s) == ApplyReads(ApplyRead(s, key));
      var s1 := ApplyRead(s, key);
      assert ReadsOf(s1.queue, s.register.value) == waiting - {key};
      ApplyReadEntry(s, key);
      ApplyReadsEntries(s1);
      EntriesCompose(s.queue, s.register.log, s1.queue, s1.register.log, ApplyReads(s).register.log);
    }
  }

  lemma EntriesCompose(q: Queue, log: seq<LinEvent>, q1: Queue, log1: seq<LinEvent>, log2: seq<LinEvent>)
    requires log <= log1 <= log2 && NewEntriesFrom(q, log, log1) && NewEntriesFrom(q1, log1, log2)
    requires q1.writeTokens == q.writeTokens && q1.readTokens == q.readTokens
    ensures log <= log2 && NewEntriesFrom(q, log, log2)
  {
    forall i | |log| <= i < |log2| ensures TokenFor(q, log2[i]) {
      if i < |log1| {
        assert log2[i] == log1[i];
      } else {
        assert TokenFor(q1, log2[i]);
      }
    }
  }

  lemma {:induction false} ApplyUpToEntries(s: LinState, maxTs: Timestamp)
    requires Tokened(s.queue)
    ensures ApplyUpTo(s, maxTs).queue.writeTokens == s.queue.writeTokens
        && ApplyUpTo(s, maxTs).queue.readTokens == s.queue.readTokens
    ensures s.register.log <= ApplyUpTo(s, maxTs).register.log
    ensures NewEntriesFrom(s.queue, s.register.log, ApplyUpTo(s, maxTs).register.log)
    decreases |WritesUpTo(s.queue, maxTs)|
  {
    var writes := WritesUpTo(s.queue, maxTs);
    if writes != {} {
      var next := Least(writes);
      var s0 := ApplyWrite(s, next);
      var s1 := ApplyReads(s0);
      assert WritesUpTo(s1.queue, maxTs) == writes - {next};
      ApplyReadsEntries(s0);
      EntriesCompose(s.queue, s.register.log, s0.queue, s0.register.log, s1.register.log);
      ApplyUpToEntries(s1, maxTs);
      EntriesCompose(s.queue, s.register.log, s1.queue, s1.register.log, ApplyUpTo(s, maxTs).register.log);
    }
  }

  /** Completing pending writes takes no value and no token away. */
  lemma AppliedFrame(s: LinState, s1: LinState, ts: set<Timestamp>, i: Lin)
    requires WritesApplied(s.queue, s1.queue, ts) && (forall t :: WriteAt(s.queue, t))
    requires Le(s.queue.watermark, s1.queue.watermark)
    requires s.register.log <= s1.register.log && NewEntriesFrom(s.queue, s.register.log, s1.register.log)
    ensures Frame(s, s1, i) && (forall t :: ValueAt(s1.queue, t) == ValueAt(s.queue, t))
  {
    var q, q1 := s.queue, s1.queue;
    forall t ensures WriteKept(q, q1, i, t) && ValueAt(q1, t) == ValueAt(q, t) {
      assert AppliedAt(q, q1, ts, t) && WriteAt(q, t);
    }
    forall k ensures ReadKept(q, q1, i, k) {}
  }

  lemma ApplyUpToFrame(s: LinState, maxTs: Timestamp, i: Lin)
    requires Inv(s) && maxTs in KnownTimestamps(s.queue)
    ensures
      var s1 := ApplyUpTo(s, maxTs);
      && Frame(s, s1, i)
      && s1.queue.watermark == Max(s.queue.watermark, maxTs)
      && s1.queue.writeTokens == s.queue.writeTokens && s1.queue.readTokens == s.queue.readTokens
      && (forall t :: ValueAt(s1.queue, t) == ValueAt(s.queue, t))
      && maxTs in s1.queue.committedTo
      && NewEntriesFrom(s.queue, s.register.log, s1.register.log)
  {
    var s1 := ApplyUpTo(s, maxTs);
    var writes := WritesUpTo(s.queue, maxTs);
    ApplyUpToEffect(s, maxTs);
    WatermarkAfter(s.queue, s1.queue, maxTs);
    QueueTokened(s.queue);
    ApplyUpToEntries(s, maxTs);
    AppliedFrame(s, s1, writes, i);
    assert AppliedAt(s.queue, s1.queue, writes, maxTs);
  }

  // ---------------------------------------------------- leaving the queue

  /** Dropping the tokens of operation `i` after the frame `s` to `s1`. */
  lemma DropFrame(s: LinState, s1: LinState, s2: LinState, i: Lin)
    requires Frame(s, s1, i) && NewEntriesFrom(s.queue, s.register.log, s1.register.log)
    requires s2.register == s1.register && s2.queue.watermark == s1.queue.watermark
    requires forall t :: ValueAt(s2.queue, t) == ValueAt(s1.queue, t) || OwnsWrite(s.queue, i, t)
    requires forall t, v :: Persisted(s1.queue, t, v) ==> Persisted(s2.queue, t, v)
    requires forall t :: WriteKept(s1.queue, s2.queue, i, t)
    requires forall k :: ReadKept(s1.queue, s2.queue, i, k)
    requires s1.queue.writeTokens == s.queue.writeTokens && s1.queue.readTokens == s.queue.readTokens
    ensures Frame(s, s2, i)
  {
    forall t ensures WriteKept(s.queue, s2.queue, i, t) {
      assert WriteKept(s.queue, s1.queue, i, t) && WriteKept(s1.queue, s2.queue, i, t);
    }
    forall k ensures ReadKept(s.queue, s2.queue, i, k) {
      assert ReadKept(s.queue, s1.queue, i, k) && ReadKept(s1.queue, s2.queue, i, k);
    }
  }

  lemma ExtractWriteFrame(s: LinState, i: Lin, ts: Timestamp)
    requires Inv(s) && OwnsWrite(s.queue, i, ts)
    ensures
      var s1 := ApplyUpTo(s, ts);
      var s2 := LinState(ExtractWrite(s1.queue, ts), s1.register);
      && Inv(s2) && Frame(s, s2, i) && NoNewTokens(s.queue, s2.queue, i)
      && s2.queue.watermark == Max(s.queue.watermark, ts)
      && (forall t :: ValueAt(s2.queue, t) == ValueAt(s.queue, t))
      && Wrote(i, s.queue.writeTokens[ts].value, ts) in s2.register.log
  {
    assert ts in KnownTimestamps(s.queue) by { assert WriteAt(s.queue, ts); }
    ApplyUpToFrame(s, ts, i);
    ApplyUpToKeeps(s, ts);
    var s1 := ApplyUpTo(s, ts);
    ExtractWriteKeeps(s1, ts);
    WriteCompletedIff(s1, ts);
    var s2 := LinState(ExtractWrite(s1.queue, ts), s1.register);
    WriteGone(s1, s2, i, ts);
    DropFrame(s, s1, s2, i);
  }

  lemma WriteGone(s: LinState, s1: LinState, i: Lin, ts: Timestamp)
    requires OwnsWrite(s.queue, i, ts)
    requires s1.queue == s.queue.(writeTokens := s.queue.writeTokens - {ts},
                                  completedWrites := s.queue.completedWrites - {ts})
    ensures forall t :: WriteKept(s.queue, s1.queue, i, t)
    ensures forall k :: ReadKept(s.queue, s1.queue, i, k)
    ensures forall t :: ValueAt(s1.queue, t) == ValueAt(s.queue, t)
  {
    forall t ensures WriteKept(s.queue, s1.queue, i, t) {}
  }

  lemma ReadGone(s: LinState, s1: LinState, i: Lin, k: ReadKey)
    requires k in s.queue.readTokens && s.queue.readTokens[k].lin == i
    requires s1.queue.readTokens == s.queue.readTokens - {k}
    requires s1.queue == s.queue.(readTokens := s1.queue.readTokens, completedReads := s1.queue.completedReads,
                                  pendingReads := s1.queue.pendingReads)
    ensures forall t :: WriteKept(s.queue, s1.queue, i, t)
    ensures forall l :: ReadKept(s.queue, s1.queue, i, l)
    ensures forall t :: ValueAt(s1.queue, t) == ValueAt(s.queue, t)
  {
    forall t ensures WriteKept(s.queue, s1.queue, i, t) {}
    forall l ensures ReadKept(s.queue, s1.queue, i, l) {}
  }

  lemma ExtractReadFrame(s: LinState, i: Lin, k: ReadKey, ts: Timestamp)
    requires Inv(s) && k in s.queue.readTokens && s.queue.readTokens[k].lin == i
    requires ValueAt(s.queue, ts) == Some(k.0)
    ensures
      var s1 := ApplyUpTo(s, ts);
      var s2 := LinState(ExtractRead(s1.queue, k), s1.register);
      && Frame(s, s2, i) && NoNewTokens(s.queue, s2.queue, i)
      && s2.queue.watermark == Max(s.queue.watermark, ts)
      && (forall t :: ValueAt(s2.queue, t) == ValueAt(s.queue, t))
  {
    ApplyUpToFrame(s, ts, i);
    var s1 := ApplyUpTo(s, ts);
    var s2 := LinState(ExtractRead(s1.queue, k), s1.register);
    ReadGone(s1, s2, i, k);
    DropFrame(s, s1, s2, i);
  }

  /** Extracting a read always finds its completion in the queue. */
  lemma ExtractReadSucceeds(s: LinState, k: ReadKey, ts: Timestamp)
    requires Inv(s) && k in s.queue.readTokens
    requires Le(s.queue.readTokens[k].minTs, ts) && ValueAt(s.queue, ts) == Some(k.0)
    ensures
      var s1 := ApplyUpTo(s, ts);
      && k in s1.queue.completedReads
      && Inv(LinState(ExtractRead(s1.queue, k), s1.register))
      && (exists t :: Saw(s.queue.readTokens[k].lin, k.0, t) in s1.register.log)
  {
    ApplyUpToFrame(s, ts, s.queue.readTokens[k].lin);
    ApplyUpToKeeps(s, ts);
    var s1 := ApplyUpTo(s, ts);
    assert ValueAt(s1.queue, ts) == Some(k.0);
    ExtractReadKeeps(s1, k, ts);
  }

  lemma RemoveReadFrame(s: LinState, i: Lin, k: ReadKey)
    requires Inv(s) && k in s.queue.readTokens && s.queue.readTokens[k].lin == i
    ensures if HadOpportunity(s.queue, k) then k in s.queue.completedReads else k in s.queue.pendingReads
    ensures
      var s1 := LinState(RemoveRead(s.queue, k).queue, s.register);
      && Inv(s1) && Frame(s, s1, i) && NoNewTokens(s.queue, s1.queue, i)
      && s1.queue.watermark == s.queue.watermark
      && (forall t :: ValueAt(s1.queue, t) == ValueAt(s.queue, t))
  {
    RemoveReadKeeps(s, k);
    ReadGone(s, LinState(RemoveRead(s.queue, k).queue, s.register), i, k);
  }

  /** Removing an uncommitted write frees its timestamp unless it was linearized. */
  lemma RemovedWriteAt(s: LinState, i: Lin, ts: Timestamp)
    requires WriteAt(s.queue, ts) && OwnsWrite(s.queue, i, ts) && !s.queue.writeTokens[ts].committed
    ensures
      var r := RemoveWrite(s.queue, ts);
      var s1 := LinState(r.queue, s.register);
      && Frame(s, s1, i) && NoNewTokens(s.queue, s1.queue, i)
      && s1.queue.watermark == s.queue.watermark
      && (forall t :: t != ts ==> ValueAt(s1.queue, t) == ValueAt(s.queue, t))
      && ValueAt(s1.queue, ts) == if r.freesAllocation then None else ValueAt(s.queue, ts)
  {
    var s1 := LinState(RemoveWrite(s.queue, ts).queue, s.register);
    forall t ensures WriteKept(s.queue, s1.queue, i, t) {}
    forall l ensures ReadKept(s.queue, s1.queue, i, l) {}
  }

  lemma CommitFrame(s: LinState, i: Lin, ts: Timestamp)
    requires WriteAt(s.queue, ts) && OwnsWrite(s.queue, i, ts)
    ensures
      var s1 := LinState(CommitValue(s.queue, ts), s.register);
      && Frame(s, s1, i) && NoNewTokens(s.queue, s1.queue, i)
      && s1.queue.watermark == s.queue.watermark
      && (forall t :: ValueAt(s1.queue, t) == ValueAt(s.queue, t))
      && s1.queue.writeTokens == s.queue.writeTokens[ts := s.queue.writeTokens[ts].(committed := true)]
  {
    var s1 := LinState(CommitValue(s.queue, ts), s.register);
    forall t ensures WriteKept(s.queue, s1.queue, i, t) {}
    forall l ensures ReadKept(s.queue, s1.queue, i, l) {}
  }

  /** The value of a committed token can no longer be withdrawn. */
  lemma CommittedPersists(s: LinState, ts: Timestamp)
    requires Inv(s) && ts in s.queue.writeTokens && s.queue.writeTokens[ts].committed
    ensures Persisted(s.queue, ts, s.queue.writeTokens[ts].value)
  {
    assert WriteAt(s.queue, ts);
  }
}
