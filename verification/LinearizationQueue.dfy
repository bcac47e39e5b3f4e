/** The linearization queue as the clients change it in place. Each method is tied to
    the function that describes it, and keeps the invariant of the queue and register. */
module LinearizationQueues {
  import opened Timestamps
  import opened LinQueueSpec
  import opened LinQueueProof
  import opened LinQueueTheorems

  // ------------------------------------- the order of the readers is free

  /** Any two ways of serving the same readers leave the same queue. */
  lemma ServedOnce(q: Queue, r1: Queue, r2: Queue, keys: set<ReadKey>)
    requires ReadsServed(q, r1, keys) && ReadsServed(q, r2, keys)
    ensures r1 == r2
  {
    forall k ensures (k in r1.pendingReads <==> k in r2.pendingReads)
        && (k in r1.completedReads <==> k in r2.completedReads)
                  && (k in r1.pendingReads ==> r1.pendingReads[k] == r2.pendingReads[k])
                  && (k in r1.completedReads ==> r1.completedReads[k] == r2.completedReads[k]) {
      assert ServedAt(q, r1, keys, k) && ServedAt(q, r2, keys, k);
    }
    assert r1.pendingReads == r2.pendingReads;
    assert r1.completedReads == r2.completedReads;
  }

  /** Serving one waiting reader first, whichever it is, changes nothing in the end. */
  lemma AnyReaderFirst(s: LinState, key: ReadKey)
    requires key in ReadsOf(s.queue, s.register.value)
    ensures ApplyReads(ApplyRead(s, key)).queue == ApplyReads(s).queue
  {
    var waiting := ReadsOf(s.queue, s.register.value);
    var s1 := ApplyRead(s, key);
    assert ReadsOf(s1.queue, s1.register.value) == waiting - {key};
    ApplyReadsEffect(s);
    ApplyReadsEffect(s1);
    ApplyReadEffect(s, key);
    ReadsServedCompose(s.queue, s1.queue, ApplyReads(s1).queue, key, waiting);
    ServedOnce(s.queue, ApplyReads(s1).queue, ApplyReads(s).queue, waiting);
  }

  lemma ApplyReadsIgnoresLog(s: LinState, t: LinState)
    requires s.queue == t.queue && s.register.value == t.register.value
    ensures ApplyReads(s).queue == ApplyReads(t).queue
  {
    ApplyReadsEffect(s);
    ApplyReadsEffect(t);
    ServedOnce(s.queue, ApplyReads(s).queue, ApplyReads(t).queue, ReadsOf(s.queue, s.register.value));
  }

  /** What the queue becomes does not depend on the order in which readers were served before. */
  lemma {:induction false} ApplyUpToIgnoresLog(s: LinState, t: LinState, maxTs: Timestamp)
    requires s.queue == t.queue
    ensures ApplyUpTo(s, maxTs).queue == ApplyUpTo(t, maxTs).queue
    decreases |WritesUpTo(s.queue, maxTs)|
  {
    var writes := WritesUpTo(s.queue, maxTs);
    if writes != {} {
      var next := Least(writes);
      var s1, t1 := ApplyReads(ApplyWrite(s, next)), ApplyReads(ApplyWrite(t, next));
      ApplyReadsIgnoresLog(ApplyWrite(s, next), ApplyWrite(t, next));
      assert WritesUpTo(s1.queue, maxTs) == writes - {next};
      ApplyUpToIgnoresLog(s1, t1, maxTs);
    }
  }

  lemma ReaderTurn(s: LinState, key: ReadKey)
    requires InvParam(s, true) && key in ReadsOf(s.queue, s.register.value)
    ensures
      var s1 := ApplyRead(s, key);
      && InvParam(s1, true)
      && ApplyReads(s1).queue == ApplyReads(s).queue
      && |ReadsOf(s1.queue, s1.register.value)| < |ReadsOf(s.queue, s.register.value)|
  {
    ApplyReadKeeps(s, key);
    AnyReaderFirst(s, key);
    assert ReadsOf(ApplyRead(s, key).queue, s.register.value) == ReadsOf(s.queue, s.register.value) - {key};
  }

  lemma WriterTurn(s: LinState, next: Timestamp, maxTs: Timestamp)
    requires Inv(s) && maxTs in KnownTimestamps(s.queue)
    requires next in WritesUpTo(s.queue, maxTs) && forall t :: t in WritesUpTo(s.queue, maxTs) ==> Le(next, t)
    ensures
      var s1 := ApplyReads(ApplyWrite(s, next));
      && InvParam(ApplyWrite(s, next), true)
      && maxTs in KnownTimestamps(s1.queue)
      && ApplyUpTo(s1, maxTs).queue == ApplyUpTo(s, maxTs).queue
      && |WritesUpTo(s1.queue, maxTs)| < |WritesUpTo(s.queue, maxTs)|
  {
    assert next == Least(WritesUpTo(s.queue, maxTs));
    LeastUpToIsLeast(s.queue, maxTs);
    ApplyWriteKeeps(s, next);
    ApplyReadsEffect(ApplyWrite(s, next));
    assert WritesUpTo(ApplyReads(ApplyWrite(s, next)).queue, maxTs) == WritesUpTo(s.queue, maxTs) - {next};
  }

  // ---------------------------------------------------------- the classes

  /** The register that operations take effect on. */
  class LinRegister {
    var value: Value
    ghost var log: seq<LinEvent>

    constructor ()
      ensures Contents() == Register(None, [])
    {
      value := None;
      log := [];
    }

    ghost function Contents(): Register
      reads this
    {
      Register(value, log)
    }

    method Set(lin: Lin, v: Value, ts: Timestamp)
      modifies this
      ensures Contents() == Register(v, old(log) + [Wrote(lin, v, ts)])
    {
      value := v;
      log := log + [Wrote(lin, v, ts)];
    }

    /** A reader sees the register; nothing but the record of it changes. */
    method See(lin: Lin, ts: Timestamp)
      modifies this`log
      ensures Contents() == Register(old(value), old(log) + [Saw(lin, old(value), ts)])
    {
      log := log + [Saw(lin, value, ts)];
    }
  }

  class LinearizationQueue {
    var committedTo: map<Timestamp, Value>
    var completedWrites: map<Timestamp, CompletedWrite>
    var completedReads: map<ReadKey, CompletedRead>
    var pendingWrites: map<Timestamp, PendingWrite>
    var pendingReads: map<ReadKey, PendingRead>
    var writeTokens: map<Timestamp, WriteToken>
    var readTokens: map<ReadKey, ReadToken>
    var nextReadOp: nat
    var watermark: Timestamp

    function Contents(): Queue
      reads this
    {
      Queue(committedTo, completedWrites, completedReads, pendingWrites, pendingReads, writeTokens, readTokens,
          nextReadOp, watermark)
    }

    ghost function State(r: LinRegister): LinState
      reads this, r
    {
      LinState(Contents(), r.Contents())
    }

    constructor ()
      ensures Contents() == INITIAL_QUEUE
    {
      committedTo, completedWrites, completedReads := map[DEFAULT := None], map[], map[];
      pendingWrites, pendingReads, writeTokens, readTokens := map[], map[], map[], map[];
      nextReadOp, watermark := 0, DEFAULT;
    }

    /** Answers `None`, and does nothing, when the watermark has passed the timestamp. */
    method InsertWriteLinearizer(lin: Lin, value: Value, ts: Timestamp, ghost r: LinRegister)
      returns (token: Option<WriteToken>)
      requires Inv(State(r)) && Fresh(State(r), lin)
      requires Lt(watermark, ts) ==> ts !in writeTokens
      modifies this
      ensures Inv(State(r))
      ensures token == if Lt(old(watermark), ts) then Some(WriteToken(lin, value, false)) else None
      ensures InsertWrite(old(Contents()), lin, value, ts) == if token.Some? then Some(Contents()) else None
      ensures
        if token.Some? then WriteEntered(old(Contents()), Contents(), lin, value, ts) else Contents() == old(Contents())
    {
      if Le(ts, watermark) {
        return None;
      }
      ghost var before := State(r);
      assert ts !in KnownTimestamps(before.queue) by { assert WriteAt(before.queue, ts); }
      pendingWrites := pendingWrites[ts := PendingWrite(lin, value, false)];
      writeTokens := writeTokens[ts := WriteToken(lin, value, false)];
      InsertWriteKeeps(before, State(r), lin, value, ts);
      InsertWriteEffect(before.queue, lin, value, ts);
      token := Some(writeTokens[ts]);
    }

    method InsertReadLinearizer(lin: Lin, value: Value, r: LinRegister) returns (key: ReadKey)
      requires Inv(State(r)) && Fresh(State(r), lin)
      modifies this`readTokens, this`nextReadOp, this`completedReads, this`pendingReads, r`log
      ensures Inv(State(r))
      ensures State(r) == InsertRead(old(State(r)), lin, value)
      ensures key == (value, old(nextReadOp)) && ReadEntered(old(Contents()), Contents(), lin, key)
      ensures r.value == old(r.value)
      ensures
        var now := value == old(committedTo[watermark]);
        r.log == old(r.log) + if now then [Saw(lin, value, old(watermark))] else []
    {
      InsertReadEffect(State(r), lin, value);
      InsertReadKeeps(State(r), lin, value);
      assert r.log + [] == r.log;
      key := (value, nextReadOp);
      readTokens := readTokens[key := ReadToken(lin, watermark)];
      nextReadOp := nextReadOp + 1;
      if value == committedTo[watermark] {
        r.See(lin, watermark);
        completedReads := completedReads[key := CompletedRead(lin, watermark)];
      } else {
        pendingReads := pendingReads[key := PendingRead(lin)];
      }
    }

    /** The owner of a write learns that its timestamp is final; the value can no
        longer be withdrawn. */
    method CommitWrite(ts: Timestamp, ghost r: LinRegister) returns (value: Value)
      requires Inv(State(r)) && ts in writeTokens
      modifies this`pendingWrites, this`writeTokens
      ensures Inv(State(r))
      ensures Le(ts, watermark) || ts in old(pendingWrites)
      ensures Contents() == CommitValue(old(Contents()), ts)
      ensures WriteMarked(old(Contents()), Contents(), ts) && value == writeTokens[ts].value
    {
      CommitKeeps(State(r), ts);
      CommitEffect(State(r), ts);
      assert WriteAt(Contents(), ts);
      if Le(ts, watermark) {
        value := committedTo[ts];
      } else {
        pendingWrites := pendingWrites[ts := pendingWrites[ts].(committed := true)];
        value := pendingWrites[ts].value;
      }
      writeTokens := writeTokens[ts := writeTokens[ts].(committed := true)];
    }

    /** Hands out the completion of a write that the watermark has passed. */
    method ExtractWriteCompletion(ts: Timestamp, ghost r: LinRegister) returns (c: CompletedWrite)
      requires Inv(State(r)) && ts in writeTokens && Le(ts, watermark)
      modifies this`completedWrites, this`writeTokens
      ensures Inv(State(r))
      ensures Contents() == ExtractWrite(old(Contents()), ts) && WriteLeft(old(Contents()), Contents(), ts)
      ensures c == CompletedWrite(old(writeTokens[ts].lin), old(writeTokens[ts].value))
      ensures Wrote(c.lin, c.value, ts) in r.log
    {
      ExtractWriteKeeps(State(r), ts);
      assert WriteAt(Contents(), ts) && LoggedWrite(Contents(), r.log, ts);
      c := completedWrites[ts];
      completedWrites := completedWrites - {ts};
      writeTokens := writeTokens - {ts};
    }

    /** Hands out the completion of a read that executed at `ts`; it is always there. */
    method ExtractReadCompletion(key: ReadKey, ts: Timestamp, ghost r: LinRegister) returns (c: CompletedRead)
      requires Inv(State(r)) && key in readTokens
      requires Le(readTokens[key].minTs, ts) && Le(ts, watermark)
      requires ts in committedTo && committedTo[ts] == key.0
      modifies this`completedReads, this`readTokens
      ensures Inv(State(r))
      ensures key in old(completedReads) && c == old(completedReads[key]) && c.lin == old(readTokens[key].lin)
      ensures Contents() == ExtractRead(old(Contents()), key) && ReadLeft(old(Contents()), Contents(), key)
      ensures Saw(c.lin, key.0, c.ts) in r.log
    {
      ExtractReadKeeps(State(r), key, ts);
      c := completedReads[key];
      completedReads := completedReads - {key};
      readTokens := readTokens - {key};
    }

    /** Takes a write out of the queue, whatever became of it: its owner gets back its
        linearizer, or the news that it was applied, and perhaps the allocation. */
    method RemoveWriteLin(ts: Timestamp, ghost r: LinRegister) returns (what: Removed, freed: bool)
      requires Inv(State(r)) && ts in writeTokens
      modifies this`completedWrites, this`pendingWrites, this`writeTokens
      ensures Inv(State(r))
      ensures if Le(ts, watermark) then ts in old(completedWrites) else ts in old(pendingWrites)
      ensures RemoveWrite(old(Contents()), ts) == RemovedWrite(Contents(), what, freed)
      ensures WriteLeft(old(Contents()), Contents(), ts)
      ensures freed <==> ts in old(pendingWrites) && !old(writeTokens[ts].committed)
      ensures
        var lin := old(writeTokens[ts].lin);
        what == if Unlogged(r.log, lin) then Linearizer(lin) else Completion(lin)
    {
      RemoveWriteKeeps(State(r), ts);
      RemoveWriteEffect(State(r), ts);
      if Le(ts, watermark) {
        what, freed := Completion(completedWrites[ts].lin), false;
        completedWrites := completedWrites - {ts};
      } else {
        what, freed := Linearizer(pendingWrites[ts].lin), !pendingWrites[ts].committed;
        pendingWrites := pendingWrites - {ts};
      }
      writeTokens := writeTokens - {ts};
    }

    method RemoveReadLin(key: ReadKey, ghost r: LinRegister) returns (what: Removed)
      requires Inv(State(r)) && key in readTokens
      modifies this`completedReads, this`pendingReads, this`readTokens
      ensures Inv(State(r))
      ensures if HadOpportunity(old(Contents()), key) then key in old(completedReads) else key in old(pendingReads)
      ensures RemoveRead(old(Contents()), key) == RemovedRead(Contents(), what)
      ensures ReadLeft(old(Contents()), Contents(), key)
      ensures
        var lin := old(readTokens[key].lin);
        what == if Unlogged(r.log, lin) then Linearizer(lin) else Completion(lin)
    {
      RemoveReadKeeps(State(r), key);
      RemoveReadEffect(State(r), key);
      if HadOpportunity(Contents(), key) {
        what := Completion(completedReads[key].lin);
        completedReads := completedReads - {key};
      } else {
        what := Linearizer(pendingReads[key].lin);
        pendingReads := pendingReads - {key};
      }
      readTokens := readTokens - {key};
    }

    /** Linearizes one pending read at the watermark. */
    method ServeReader(key: ReadKey, r: LinRegister)
      requires key in pendingReads && key.0 == r.value
      modifies this`pendingReads, this`completedReads, r`log
      ensures State(r) == ApplyRead(old(State(r)), key)
    {
      var p := pendingReads[key];
      pendingReads := pendingReads - {key};
      r.See(p.lin, watermark);
      completedReads := completedReads[key := CompletedRead(p.lin, watermark)];
    }

    method ApplyReadLinearizersAtValue(r: LinRegister)
      requires InvParam(State(r), true)
      modifies this`pendingReads, this`completedReads, r`log
      ensures Inv(State(r))
      ensures Contents() == ApplyReads(old(State(r))).queue
      ensures r.value == old(r.value) && old(r.log) <= r.log
      decreases |ReadsOf(Contents(), r.value)|
    {
      var waiting := ReadsOf(Contents(), r.value);
      if waiting == {} {
        ApplyReadsKeeps(State(r));
        return;
      }
      var key :| key in waiting;
      ReaderTurn(State(r), key);
      ServeReader(key, r);
      ApplyReadLinearizersAtValue(r);
    }

    /** Applies every write up to `maxTs` in timestamp order, each with its readers. */
    method ApplyLinearizersUpTo(maxTs: Timestamp, r: LinRegister)
      requires Inv(State(r)) && maxTs in KnownTimestamps(Contents())
      modifies this, r
      ensures Inv(State(r))
      ensures Contents() == ApplyUpTo(old(State(r)), maxTs).queue
      ensures old(r.log) <= r.log
      decreases |WritesUpTo(Contents(), maxTs)|
    {
      var writes := WritesUpTo(Contents(), maxTs);
      if writes == {} {
        return;
      }
      ghost var before := State(r);
      assert Least(writes) in writes;
      var next :| next in writes && forall t :: t in writes ==> Le(next, t);
      WriterTurn(before, next, maxTs);
      MoveTo(next, r);
      ApplyReadLinearizersAtValue(r);
      ApplyUpToIgnoresLog(ApplyReads(ApplyWrite(before, next)), State(r), maxTs);
      ApplyLinearizersUpTo(maxTs, r);
    }

    /** The watermark moves to a pending write, which takes effect. */
    method MoveTo(next: Timestamp, r: LinRegister)
      requires next in pendingWrites
      modifies this, r
      ensures State(r) == ApplyWrite(old(State(r)), next)
    {
      var p := pendingWrites[next];
      pendingWrites := pendingWrites - {next};
      r.Set(p.lin, p.value, next);
      committedTo := committedTo[next := p.value];
      watermark := next;
      completedWrites := completedWrites[next := CompletedWrite(p.lin, p.value)];
    }
  }
}
