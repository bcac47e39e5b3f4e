/** What the linearization queue promises its clients: `ApplyUpTo` is a fold over the
    pending writes in increasing order, completions are always there when a client
    may ask for them, and every linearizer comes back exactly once. */
module LinQueueTheorems {
  import opened Timestamps
  import opened LinQueueSpec
  import opened LinQueueProof

  // ------------------------------------------------ inserting and committing

  lemma InsertReadKeeps(s: LinState, lin: Lin, value: Value)
    requires Inv(s) && Fresh(s, lin)
    ensures Inv(InsertRead(s, lin, value))
  {
    var q := s.queue;
    var key := (value, q.nextReadOp);
    var q1 := q.(readTokens := q.readTokens[key := ReadToken(lin, q.watermark)], nextReadOp := q.nextReadOp + 1,
                 pendingReads := q.pendingReads[key := PendingRead(lin)]);
    var s1 := LinState(q1, s.register);
    InsertPendingReadKeeps(s, s1, lin, value);
    assert s.register.log + [] == s.register.log;
    if value == s.register.value {
      assert ReadsOf(q1, value) == {key} by {
        forall k | k in q.pendingReads ensures k.0 != value {
          assert ReadAt(q, k, false);
        }
      }
      var r := ApplyRead(s1, key);
      assert r == InsertRead(s, lin, value) by {
        assert ReadAt(q, key, false);
        assert q1.pendingReads - {key} == q.pendingReads;
      }
      ApplyReadKeeps(s1, key);
      assert ReadsOf(r.queue, value) == {};
      ApplyReadsKeeps(r);
    }
  }

  lemma CommitKeepsQueue(q: Queue, ts: Timestamp)
    requires QueueInv(q, false) && ts in q.writeTokens
    ensures Le(ts, q.watermark) || ts in q.pendingWrites
    ensures QueueInv(CommitValue(q, ts), false)
  {
    assert WriteAt(q, ts);
    var q1 := CommitValue(q, ts);
    forall t ensures WriteAt(q1, t) { assert WriteAt(q, t); }
    forall k ensures ReadAt(q1, k, false) { assert ReadAt(q, k, false); }
  }

  lemma SameLinearizersDistinct(q: Queue, q1: Queue)
    requires LinearizersDistinct(q) && q1.readTokens == q.readTokens
    requires forall t :: t in q1.writeTokens ==> t in q.writeTokens && q1.writeTokens[t].lin == q.writeTokens[t].lin
    ensures LinearizersDistinct(q1)
  {
  }

  lemma CommitKeeps(s: LinState, ts: Timestamp)
    requires Inv(s) && ts in s.queue.writeTokens
    ensures Le(ts, s.queue.watermark) || ts in s.queue.pendingWrites
    ensures Inv(LinState(CommitValue(s.queue, ts), s.register))
  {
    var q := s.queue;
    CommitKeepsQueue(q, ts);
    var q1 := CommitValue(q, ts);
    SameLinearizersDistinct(q, q1);
    forall t ensures LoggedWrite(q1, s.register.log, t) { assert LoggedWrite(q, s.register.log, t); }
    forall k ensures LoggedRead(q1, s.register.log, k) { assert LoggedRead(q, s.register.log, k); }
  }

  // ---------------------------------------------------- completions

  /** A write is completed, and its linearizer applied, exactly when its timestamp
      is not above the watermark. */
  lemma WriteCompletedIff(s: LinState, ts: Timestamp)
    requires Inv(s) && ts in s.queue.writeTokens
    ensures ts in s.queue.completedWrites <==> Le(ts, s.queue.watermark)
    ensures ts in s.queue.pendingWrites <==> !Le(ts, s.queue.watermark)
    ensures !Unlogged(s.register.log, s.queue.writeTokens[ts].lin) <==> Le(ts, s.queue.watermark)
    ensures Le(ts, s.queue.watermark) ==>
      Wrote(s.queue.writeTokens[ts].lin, s.queue.writeTokens[ts].value, ts) in s.register.log
  {
    assert WriteAt(s.queue, ts) && LoggedWrite(s.queue, s.register.log, ts);
  }

  /** A read is completed exactly when its value was current at some moment since
      the read was inserted. */
  lemma ReadCompletedIff(s: LinState, k: ReadKey)
    requires Inv(s) && k in s.queue.readTokens
    ensures k in s.queue.completedReads <==> HadOpportunity(s.queue, k)
    ensures k in s.queue.pendingReads <==> !HadOpportunity(s.queue, k)
    ensures !Unlogged(s.register.log, s.queue.readTokens[k].lin) <==> HadOpportunity(s.queue, k)
  {
    var q := s.queue;
    assert ReadAt(q, k, false) && LoggedRead(q, s.register.log, k);
    forall t | t in q.committedTo ensures Le(t, q.watermark) { assert WriteAt(q, t); }
  }

  // ------------------------------------- who came, who stayed, who left

  /** The queue holds nothing of the write at `ts` any more, and all else as before. */
  ghost predicate WriteLeft(q: Queue, q1: Queue, ts: Timestamp) {
    && ts !in q1.writeTokens && ts !in q1.completedWrites && ts !in q1.pendingWrites
    && (forall t :: t != ts ==> SameWrite(q, q1, t))
    && q1.readTokens == q.readTokens && q1.completedReads == q.completedReads && q1.pendingReads == q.pendingReads
    && q1.committedTo == q.committedTo && q1.nextReadOp == q.nextReadOp && q1.watermark == q.watermark
  }

  ghost predicate ReadLeft(q: Queue, q1: Queue, key: ReadKey) {
    && key !in q1.readTokens && key !in q1.completedReads && key !in q1.pendingReads
    && q1.writeTokens == q.writeTokens && q1.completedWrites == q.completedWrites && q1.pendingWrites == q.pendingWrites
    && (forall k :: k != key ==> SameRead(q, q1, k))
    && q1.committedTo == q.committedTo && q1.nextReadOp == q.nextReadOp && q1.watermark == q.watermark
  }

  /** The queue has the same entries for the write at `t`. */
  ghost predicate SameWrite(q: Queue, q1: Queue, t: Timestamp) {
    && (t in q1.writeTokens <==> t in q.writeTokens)
    && (t in q1.completedWrites <==> t in q.completedWrites)
    && (t in q1.pendingWrites <==> t in q.pendingWrites)
    && (t in q.writeTokens ==> q1.writeTokens[t] == q.writeTokens[t])
    && (t in q.completedWrites ==> q1.completedWrites[t] == q.completedWrites[t])
    && (t in q.pendingWrites ==> q1.pendingWrites[t] == q.pendingWrites[t])
  }

  ghost predicate SameRead(q: Queue, q1: Queue, k: ReadKey) {
    && (k in q1.readTokens <==> k in q.readTokens)
    && (k in q1.completedReads <==> k in q.completedReads)
    && (k in q1.pendingReads <==> k in q.pendingReads)
    && (k in q.readTokens ==> q1.readTokens[k] == q.readTokens[k])
    && (k in q.completedReads ==> q1.completedReads[k] == q.completedReads[k])
    && (k in q.pendingReads ==> q1.pendingReads[k] == q.pendingReads[k])
  }

  /** The write is pending at `ts`, not committed; all else is as before. */
  ghost predicate WriteEntered(q: Queue, q1: Queue, lin: Lin, value: Value, ts: Timestamp) {
    && ts in q1.writeTokens && q1.writeTokens[ts] == WriteToken(lin, value, false)
    && ts in q1.pendingWrites && q1.pendingWrites[ts] == PendingWrite(lin, value, false)
    && q1.completedWrites == q.completedWrites
    && (forall t :: t != ts ==> SameWrite(q, q1, t))
    && q1.readTokens == q.readTokens && q1.completedReads == q.completedReads && q1.pendingReads == q.pendingReads
    && q1.committedTo == q.committedTo && q1.nextReadOp == q.nextReadOp && q1.watermark == q.watermark
  }

  /** The read has its token; it is completed if its value is the present one, and
      pending if not. */
  ghost predicate ReadEntered(q: Queue, q1: Queue, lin: Lin, key: ReadKey) {
    && key in q1.readTokens && q1.readTokens[key] == ReadToken(lin, q.watermark)
    && q.watermark in q.committedTo
    && (if q.committedTo[q.watermark] == key.0 then
          && key in q1.completedReads && q1.completedReads[key] == CompletedRead(lin, q.watermark)
          && key !in q1.pendingReads
        else
          key in q1.pendingReads && q1.pendingReads[key] == PendingRead(lin) && key !in q1.completedReads)
    && q1.writeTokens == q.writeTokens && q1.completedWrites == q.completedWrites && q1.pendingWrites == q.pendingWrites
    && (forall k :: k != key ==> SameRead(q, q1, k))
    && q1.committedTo == q.committedTo && q1.nextReadOp == q.nextReadOp + 1 && q1.watermark == q.watermark
  }

  /** The token and the pending entry at `ts`, if there is one, are marked; the rest of
      them, and all else, is as before. */
  ghost predicate WriteMarked(q: Queue, q1: Queue, ts: Timestamp) {
    && ts in q.writeTokens && ts in q1.writeTokens && q1.writeTokens[ts].committed
    && q1.writeTokens[ts].lin == q.writeTokens[ts].lin && q1.writeTokens[ts].value == q.writeTokens[ts].value
    && (ts in q1.pendingWrites <==> ts in q.pendingWrites)
    && (ts in q.pendingWrites ==>
          && q1.pendingWrites[ts].committed && q1.pendingWrites[ts].lin == q.pendingWrites[ts].lin
          && q1.pendingWrites[ts].value == q.pendingWrites[ts].value)
    && q1.completedWrites == q.completedWrites
    && (forall t :: t != ts ==> SameWrite(q, q1, t))
    && q1.readTokens == q.readTokens && q1.completedReads == q.completedReads && q1.pendingReads == q.pendingReads
    && q1.committedTo == q.committedTo && q1.nextReadOp == q.nextReadOp && q1.watermark == q.watermark
  }

  lemma InsertWriteEffect(q: Queue, lin: Lin, value: Value, ts: Timestamp)
    ensures InsertWrite(q, lin, value, ts).Some? <==> Lt(q.watermark, ts)
    ensures Lt(q.watermark, ts) ==> WriteEntered(q, InsertWrite(q, lin, value, ts).value, lin, value, ts)
  {
  }

  lemma ReadEnters(s: LinState, lin: Lin, value: Value)
    requires s.queue.watermark in s.queue.committedTo
    requires (value, s.queue.nextReadOp) !in s.queue.completedReads
    requires (value, s.queue.nextReadOp) !in s.queue.pendingReads
    ensures ReadEntered(s.queue, InsertRead(s, lin, value).queue, lin, (value, s.queue.nextReadOp))
  {
  }

  lemma InsertReadEffect(s: LinState, lin: Lin, value: Value)
    requires Inv(s)
    ensures ReadEntered(s.queue, InsertRead(s, lin, value).queue, lin, (value, s.queue.nextReadOp))
  {
    assert ReadAt(s.queue, (value, s.queue.nextReadOp), false);
    ReadEnters(s, lin, value);
  }

  lemma CommitMarks(q: Queue, ts: Timestamp)
    requires ts in q.writeTokens && (Le(ts, q.watermark) <==> ts !in q.pendingWrites)
    ensures WriteMarked(q, CommitValue(q, ts), ts)
  {
  }

  lemma CommitEffect(s: LinState, ts: Timestamp)
    requires Inv(s) && ts in s.queue.writeTokens
    ensures Le(ts, s.queue.watermark) || ts in s.queue.pendingWrites
    ensures WriteMarked(s.queue, CommitValue(s.queue, ts), ts)
  {
    WriteCompletedIff(s, ts);
    CommitMarks(s.queue, ts);
  }

  /** Forgetting a read, whatever became of it. */
  lemma DropReadKeeps(s: LinState, s1: LinState, k: ReadKey)
    requires Inv(s) && s1.register == s.register
    requires s1.queue == s.queue.(readTokens := s.queue.readTokens - {k},
                                  completedReads := s.queue.completedReads - {k},
                                  pendingReads := s.queue.pendingReads - {k})
    ensures Inv(s1)
  {
    var q, q1 := s.queue, s1.queue;
    forall t ensures WriteAt(q1, t) { assert WriteAt(q, t); }
    forall l ensures ReadAt(q1, l, false) { assert ReadAt(q, l, false); }
    forall t ensures LoggedWrite(q1, s.register.log, t) { assert LoggedWrite(q, s.register.log, t); }
    forall l ensures LoggedRead(q1, s.register.log, l) { assert LoggedRead(q, s.register.log, l); }
  }

  /** Forgetting a write, whatever became of it. */
  lemma DropWriteKeeps(s: LinState, s1: LinState, ts: Timestamp)
    requires Inv(s) && s1.register == s.register
    requires s1.queue == s.queue.(writeTokens := s.queue.writeTokens - {ts},
                                  completedWrites := s.queue.completedWrites - {ts},
                                  pendingWrites := s.queue.pendingWrites - {ts})
    ensures Inv(s1)
  {
    var q, q1 := s.queue, s1.queue;
    forall t ensures WriteAt(q1, t) { assert WriteAt(q, t); }
    forall k ensures ReadAt(q1, k, false) { assert ReadAt(q, k, false); }
    forall t ensures LoggedWrite(q1, s.register.log, t) { assert LoggedWrite(q, s.register.log, t); }
    forall k ensures LoggedRead(q1, s.register.log, k) { assert LoggedRead(q, s.register.log, k); }
  }

  lemma ExtractWriteKeeps(s: LinState, ts: Timestamp)
    requires Inv(s) && ts in s.queue.writeTokens && Le(ts, s.queue.watermark)
    ensures ts in s.queue.completedWrites
    ensures Inv(LinState(ExtractWrite(s.queue, ts), s.register))
    ensures WriteLeft(s.queue, ExtractWrite(s.queue, ts), ts)
  {
    WriteCompletedIff(s, ts);
    assert s.queue.pendingWrites - {ts} == s.queue.pendingWrites;
    DropWriteKeeps(s, LinState(ExtractWrite(s.queue, ts), s.register), ts);
  }

  /** A client that read value `k.0` at `ts` always finds its read completed. */
  lemma ExtractReadKeeps(s: LinState, k: ReadKey, ts: Timestamp)
    requires Inv(s) && k in s.queue.readTokens
    requires Le(s.queue.readTokens[k].minTs, ts) && Le(ts, s.queue.watermark)
    requires ts in s.queue.committedTo && s.queue.committedTo[ts] == k.0
    ensures k in s.queue.completedReads
    ensures s.queue.completedReads[k].lin == s.queue.readTokens[k].lin
    ensures Saw(s.queue.readTokens[k].lin, k.0, s.queue.completedReads[k].ts) in s.register.log
    ensures Inv(LinState(ExtractRead(s.queue, k), s.register))
    ensures ReadLeft(s.queue, ExtractRead(s.queue, k), k)
  {
    ReadCompletedIff(s, k);
    assert s.queue.pendingReads - {k} == s.queue.pendingReads;
    DropReadKeeps(s, LinState(ExtractRead(s.queue, k), s.register), k);
    assert ReadAt(s.queue, k, false) && LoggedRead(s.queue, s.register.log, k);
  }

  /** Giving up on a write returns its own linearizer, unapplied, or else the news
      that it was applied; a timestamp nobody committed to is handed back. */
  lemma RemoveWriteKeeps(s: LinState, ts: Timestamp)
    requires Inv(s) && ts in s.queue.writeTokens
    ensures if Le(ts, s.queue.watermark) then ts in s.queue.completedWrites else ts in s.queue.pendingWrites
    ensures
      var q := s.queue;
      var lin := q.writeTokens[ts].lin;
      var r := RemoveWrite(q, ts);
      && Inv(LinState(r.queue, s.register))
      && r.what == (if Unlogged(s.register.log, lin) then Linearizer(lin) else Completion(lin))
      && (r.freesAllocation <==> ts in q.pendingWrites && !q.writeTokens[ts].committed)
      && KnownTimestamps(r.queue) == if ts in q.pendingWrites then KnownTimestamps(q) - {ts} else KnownTimestamps(q)
  {
    var q := s.queue;
    WriteCompletedIff(s, ts);
    var r := RemoveWrite(q, ts);
    assert WriteAt(q, ts);
    assert ts !in q.pendingWrites ==> q.pendingWrites - {ts} == q.pendingWrites;
    assert ts !in q.completedWrites ==> q.completedWrites - {ts} == q.completedWrites;
    DropWriteKeeps(s, LinState(r.queue, s.register), ts);
    assert r.queue.committedTo == q.committedTo;
    assert r.queue.pendingWrites == q.pendingWrites - {ts};
  }

  /** Giving up on a read returns its own linearizer, or the news that it was applied. */
  lemma RemoveReadKeeps(s: LinState, k: ReadKey)
    requires Inv(s) && k in s.queue.readTokens
    ensures if HadOpportunity(s.queue, k) then k in s.queue.completedReads else k in s.queue.pendingReads
    ensures
      var lin := s.queue.readTokens[k].lin;
      var r := RemoveRead(s.queue, k);
      && Inv(LinState(r.queue, s.register))
      && r.what == if Unlogged(s.register.log, lin) then Linearizer(lin) else Completion(lin)
  {
    var q := s.queue;
    ReadCompletedIff(s, k);
    assert ReadAt(q, k, false);
    assert k !in q.pendingReads ==> q.pendingReads - {k} == q.pendingReads;
    assert k !in q.completedReads ==> q.completedReads - {k} == q.completedReads;
    DropReadKeeps(s, LinState(RemoveRead(q, k).queue, s.register), k);
  }

  lemma RemoveWriteEffect(s: LinState, ts: Timestamp)
    requires Inv(s) && ts in s.queue.writeTokens
    ensures if Le(ts, s.queue.watermark) then ts in s.queue.completedWrites else ts in s.queue.pendingWrites
    ensures WriteLeft(s.queue, RemoveWrite(s.queue, ts).queue, ts)
  {
    WriteCompletedIff(s, ts);
    RemovedWriteHasLeft(s.queue, ts);
  }

  lemma RemovedWriteHasLeft(q: Queue, ts: Timestamp)
    requires ts in q.completedWrites <==> Le(ts, q.watermark)
    requires ts in q.pendingWrites <==> !Le(ts, q.watermark)
    ensures WriteLeft(q, RemoveWrite(q, ts).queue, ts)
  {
  }

  lemma RemoveReadEffect(s: LinState, k: ReadKey)
    requires Inv(s) && k in s.queue.readTokens
    ensures if HadOpportunity(s.queue, k) then k in s.queue.completedReads else k in s.queue.pendingReads
    ensures ReadLeft(s.queue, RemoveRead(s.queue, k).queue, k)
  {
    ReadCompletedIff(s, k);
    RemovedReadHasLeft(s.queue, k);
  }

  lemma RemovedReadHasLeft(q: Queue, k: ReadKey)
    requires k in q.readTokens
    requires k in q.completedReads <==> HadOpportunity(q, k)
    requires k in q.pendingReads <==> !HadOpportunity(q, k)
    ensures ReadLeft(q, RemoveRead(q, k).queue, k)
  {
  }

  // ------------------------------------------- ApplyUpTo against a fold

  ghost predicate StrictlyIncreasing(ts: seq<Timestamp>) {
    forall i, j :: 0 <= i < j < |ts| ==> Lt(ts[i], ts[j])
  }

  /** Applies the given pending writes one after the other, each followed by its readers. */
  ghost function FoldWrites(s: LinState, ts: seq<Timestamp>): LinState
    requires StrictlyIncreasing(ts) && forall i :: 0 <= i < |ts| ==> ts[i] in s.queue.pendingWrites
    decreases |ts|
  {
    if ts == [] then s
    else
      var s1 := ApplyReads(ApplyWrite(s, ts[0]));
      assert s1.queue.pendingWrites == s.queue.pendingWrites - {ts[0]};
      assert forall i :: 0 <= i < |ts| - 1 ==> ts[1..][i] == ts[i + 1] && Lt(ts[0], ts[i + 1]);
      FoldWrites(s1, ts[1..])
  }

  /** `ts` lists the set, least first. */
  ghost predicate Lists(ts: seq<Timestamp>, all: set<Timestamp>) {
    && StrictlyIncreasing(ts)
    && (forall i :: 0 <= i < |ts| ==> ts[i] in all)
    && (forall t :: t in all ==> t in ts)
  }

  /** However the pending writes up to `maxTs` are listed in increasing order,
      `ApplyUpTo` is the fold over that list. */
  lemma {:induction false} ApplyUpToIsFold(s: LinState, maxTs: Timestamp, ts: seq<Timestamp>)
    requires Lists(ts, WritesUpTo(s.queue, maxTs))
    ensures ApplyUpTo(s, maxTs) == FoldWrites(s, ts)
    decreases |ts|
  {
    var writes := WritesUpTo(s.queue, maxTs);
    if ts == [] {
      assert writes == {};
    } else {
      assert ts[0] in writes;
      var next := Least(writes);
      assert next in ts && next == ts[0];
      var s1 := ApplyReads(ApplyWrite(s, next));
      assert WritesUpTo(s1.queue, maxTs) == writes - {next};
      forall t | t in writes && t != next ensures t in ts[1..] {
        var i :| 0 <= i < |ts| && ts[i] == t;
        assert ts[1..][i - 1] == t;
      }
      ApplyUpToIsFold(s1, maxTs, ts[1..]);
    }
  }

  lemma WatermarkAfter(q: Queue, r: Queue, maxTs: Timestamp)
    requires QueueInv(q, false) && maxTs in KnownTimestamps(q) && WritesApplied(q, r, WritesUpTo(q, maxTs))
    ensures r.watermark == Max(q.watermark, maxTs)
  {
    assert WriteAt(q, maxTs);
    if maxTs in q.pendingWrites {
      assert maxTs in WritesUpTo(q, maxTs);
    } else {
      forall t ensures t !in WritesUpTo(q, maxTs) { assert WriteAt(q, t); }
      assert WritesUpTo(q, maxTs) == {};
    }
  }

  /** Where `ApplyUpTo` leads, for a timestamp the queue knows: the watermark is the
      larger of the two, the register holds the value committed there, and no
      timestamp is gained or lost. */
  lemma ApplyUpToSummary(s: LinState, maxTs: Timestamp)
    requires Inv(s) && maxTs in KnownTimestamps(s.queue)
    ensures
      var q, r := s.queue, ApplyUpTo(s, maxTs);
      && Inv(r)
      && r.queue.watermark == Max(q.watermark, maxTs)
      && r.queue.watermark in r.queue.committedTo
      && r.register.value == r.queue.committedTo[r.queue.watermark]
      && KnownTimestamps(r.queue) == KnownTimestamps(q)
      && WritesUpTo(r.queue, maxTs) == {}
  {
    var q, r := s.queue, ApplyUpTo(s, maxTs);
    var writes := WritesUpTo(q, maxTs);
    ApplyUpToKeeps(s, maxTs);
    ApplyUpToEffect(s, maxTs);
    WatermarkAfter(q, r.queue, maxTs);
    forall t ensures t in KnownTimestamps(r.queue) <==>
        t in KnownTimestamps(q) { assert AppliedAt(q, r.queue, writes, t); }
    forall t ensures t !in WritesUpTo(r.queue, maxTs) { assert AppliedAt(q, r.queue, writes, t); }
  }

  /** `ApplyUpTo` applies exactly the pending writes up to the timestamp; since the
      log is in timestamp order, it does so in strictly increasing order. */
  lemma ApplyUpToAppliesExactly(s: LinState, maxTs: Timestamp)
    requires Inv(s)
    ensures
      var q, log, log1 := s.queue, s.register.log, ApplyUpTo(s, maxTs).register.log;
      && log <= log1
      && InTimestampOrder(log1)
      && NewWritesIn(log, log1, WritesUpTo(q, maxTs))
      && (forall t :: t in WritesUpTo(q, maxTs) ==>
          Wrote(q.pendingWrites[t].lin, q.pendingWrites[t].value, t) in log1[|log|..])
  {
    var q, r := s.queue, ApplyUpTo(s, maxTs);
    var log, log1 := s.register.log, r.register.log;
    ApplyUpToKeeps(s, maxTs);
    ApplyUpToEffect(s, maxTs);
    assert log1 == log + log1[|log|..];
    forall t | t in WritesUpTo(q, maxTs)
        ensures Wrote(q.pendingWrites[t].lin, q.pendingWrites[t].value, t) in log1[|log|..] {
      assert AppliedAt(q, r.queue, WritesUpTo(q, maxTs), t);
      assert LoggedWrite(q, log, t) && LoggedWrite(r.queue, log1, t);
    }
  }

  /** `ApplyUpTo` completes exactly the pending reads whose value one of the writes wrote. */
  lemma ReadsCompletedOnTheWay(s: LinState, maxTs: Timestamp, k: ReadKey)
    requires Inv(s) && k in s.queue.pendingReads
    ensures k in ApplyUpTo(s, maxTs).queue.completedReads <==>
            exists t :: t in WritesUpTo(s.queue, maxTs) && s.queue.pendingWrites[t].value == k.0
  {
    var q, r := s.queue, ApplyUpTo(s, maxTs).queue;
    var writes := WritesUpTo(q, maxTs);
    ApplyUpToKeeps(s, maxTs);
    ApplyUpToEffect(s, maxTs);
    assert ReadAt(q, k, false) && ReadAt(r, k, false);
    if k in r.completedReads {
      var t := r.completedReads[k].ts;
      assert AppliedAt(q, r, writes, t);
    } else {
      forall t | t in writes ensures q.pendingWrites[t].value != k.0 {
        assert AppliedAt(q, r, writes, t) && WriteAt(q, t);
        assert t in r.committedTo;
      }
    }
  }
}
