/** Every run of the protocol, whatever its operations resolve to, is accompanied by a
    run of the shared state in which each operation prophesied rightly. */
module SharedRuns {
  import opened Timestamps
  import opened Quorums
  import opened Protocol
  import opened ProtocolInv
  import opened LinQueueProof
  import opened SharedState
  import opened SharedSteps

  // ------------------------------------------------------------ resolution

  datatype Resolved = Unresolved | Seqno(seqno: nat) | Returned(value: Value)

  /** What an operation has resolved to: the sequence number a write chose, or the
      value a read settled on. */
  function Resolution(p: Phase): Resolved {
    match p
    case ReadWriteBack(_, _, acc) => if acc.maxResp.Some? then Returned(acc.maxResp.value.value) else Unresolved
    case ReadDone(v, _) => Returned(v)
    case ReadFailed(v) => if v.Some? then Returned(v.value) else Unresolved
    case WriteChosen(ts) => Seqno(ts.seqno)
    case WriteReady(ts, _) => Seqno(ts.seqno)
    case WriteSent(ts, _, _, _) => Seqno(ts.seqno)
    case WriteDone(ts) => Seqno(ts.seqno)
    case WriteFailed(ts) => if ts.Some? then Seqno(ts.value.seqno) else Unresolved
    case _ => Unresolved
  }

  /** What was prophesied for an operation is what it resolved to, if it has. */
  predicate Foretells(o: Oracle, i: OpId, r: Resolved) {
    match r
    case Unresolved => true
    case Seqno(n) => o.seqno(i) == n
    case Returned(v) => o.value(i) == v
  }

  ghost predicate ForetellsAll(o: Oracle, s: Sys) {
    forall i :: 0 <= i < |s.ops| ==> Foretells(o, i, Resolution(s.ops[i].phase))
  }

  /** The oracle that reads off what happened. */
  function OracleOf(s: Sys): (o: Oracle) {
    Oracle(
      (i: OpId) => if i < |s.ops| && Resolution(s.ops[i].phase).Seqno? then Resolution(s.ops[i].phase).seqno else 0,
      (i: OpId) => if i < |s.ops| && Resolution(s.ops[i].phase).Returned? then Resolution(s.ops[i].phase).value
          else None)
  }

  /** An operation never changes what it resolved to, nor moves once it is over. */
  predicate PhaseMoves(p: Phase, p1: Phase) {
    && (!Resolution(p).Unresolved? ==> Resolution(p1) == Resolution(p))
    && (Ended(p) ==> p1 == p)
  }

  predicate Ended(p: Phase) {
    p.ReadDone? || p.ReadFailed? || p.WriteDone? || p.WriteFailed?
  }

  /** The outcome an event reports is the phase its operation ended in. */
  predicate Reports(e: Event, p: Phase) {
    match e
    case Invoke(_, _) => !Ended(p)
    case Return(_, ReadResult(v, ts)) => p == ReadDone(v, ts)
    case Return(_, WriteResult) => p.WriteDone?
    case Fail(_) => p.ReadFailed? || p.WriteFailed?
  }

  /** The event of a step: an operation begins, or one that was under way ends. */
  predicate EventFits(s: Sys, s1: Sys, e: Event) {
    && e.op < |s1.ops|
    && Reports(e, s1.ops[e.op].phase)
    && (if e.Invoke? then e.op == |s.ops| && |s1.ops| == |s.ops| + 1 && s1.ops[e.op].kind == e.kind
        else e.op < |s.ops| && |s1.ops| == |s.ops| && !Ended(s.ops[e.op].phase))
  }

  ghost predicate Shape(s: Sys, s1: Sys) {
    && OpsGrow(s, s1)
    && (forall j :: 0 <= j < |s.ops| ==> PhaseMoves(s.ops[j].phase, s1.ops[j].phase))
    && if |s1.history| == |s.history| then s1.history == s.history && |s1.ops| == |s.ops|
       else
         && |s1.history| == |s.history| + 1
         && s1.history[..|s.history|] == s.history
         && EventFits(s, s1, s1.history[|s.history|])
  }

  lemma BeginShape(s: Sys, s0: Sys, op: Op)
    requires s0 == s.(writeCtr := s0.writeCtr) && !Ended(op.phase)
    ensures Shape(s, Begin(s0, op))
  {
  }

  lemma MoveShape(s: Sys, s1: Sys, i: OpId, p: Phase)
    requires i < |s.ops| && s1.ops == s.ops[i := s.ops[i].(phase := p)] && s1.history == s.history
    requires PhaseMoves(s.ops[i].phase, p)
    ensures Shape(s, s1)
  {
  }

  lemma EndShape(s: Sys, i: OpId, p: Phase, e: Event)
    requires i < |s.ops| && PhaseMoves(s.ops[i].phase, p) && !Ended(s.ops[i].phase)
    requires !e.Invoke? && e.op == i && Reports(e, p)
    ensures Shape(s, End(s, i, p, e))
  {
  }

  lemma ReadEndShape(s: Sys, l: Label, s1: Sys)
    requires ReadStep(s, l, s1) && (l.FinishesUnanimous? || l.FinishesWriteBack? || l.FailsFirst? || l.FailsWriteBack?)
    ensures Shape(s, s1)
  {
    EndShape(s, l.op, s1.ops[l.op].phase, s1.history[|s.history|]);
  }

  lemma ReadStepShape(s: Sys, l: Label, s1: Sys)
    requires ReadStep(s, l, s1)
    ensures Shape(s, s1)
  {
    if l.FinishesUnanimous? || l.FinishesWriteBack? || l.FailsFirst? || l.FailsWriteBack? {
      ReadEndShape(s, l, s1);
    } else if l.BeginsRead? {
      BeginShape(s, s, s1.ops[|s.ops|]);
    } else {
      MoveShape(s, s1, l.op, s1.ops[l.op].phase);
    }
  }

  lemma WriteEndShape(s: Sys, l: Label, s1: Sys)
    requires WriteStep(s, l, s1) && (l.FailsQuery? || l.FailsWrite? || l.FinishesWrite?)
    ensures Shape(s, s1)
  {
    EndShape(s, l.op, s1.ops[l.op].phase, s1.history[|s.history|]);
  }

  lemma WriteStepShape(s: Sys, l: Label, s1: Sys)
    requires WriteStep(s, l, s1)
    ensures Shape(s, s1)
  {
    if l.FailsQuery? || l.FailsWrite? || l.FinishesWrite? {
      WriteEndShape(s, l, s1);
    } else if l.BeginsWrite? {
      BeginShape(s, s.(writeCtr := s1.writeCtr), s1.ops[|s.ops|]);
    } else {
      MoveShape(s, s1, l.op, s1.ops[l.op].phase);
    }
  }

  lemma StepShape(s: Sys, l: Label, s1: Sys)
    requires Step(s, l, s1)
    ensures Shape(s, s1)
  {
    if ReadStep(s, l, s1) {
      ReadStepShape(s, l, s1);
    } else if WriteStep(s, l, s1) {
      WriteStepShape(s, l, s1);
    }
  }

  lemma ForetoldBefore(o: Oracle, s: Sys, s1: Sys)
    requires Shape(s, s1) && ForetellsAll(o, s1)
    ensures ForetellsAll(o, s)
  {
    forall i | 0 <= i < |s.ops| ensures Foretells(o, i, Resolution(s.ops[i].phase)) {
      assert PhaseMoves(s.ops[i].phase, s1.ops[i].phase);
      assert Foretells(o, i, Resolution(s1.ops[i].phase));
    }
  }

  // ------------------------------------------------- steps of the shared state

  ghost predicate FinishesRead(s: Sys, a: Shared, i: OpId, a1: Shared) {
    && i < |s.ops| && i < |a.readKeys|
    && (s.ops[i].phase.ReadFirst? || s.ops[i].phase.ReadWriteBack?)
    && s.ops[i].phase.reading.maxResp.Some?
    && a1 == ReadFinishes(a, a.readKeys[i], s.ops[i].phase.reading.maxResp.value.ts)
  }

  ghost predicate FailsRead(a: Shared, i: OpId, a1: Shared) {
    i < |a.readKeys| && CanRemoveRead(a, a.readKeys[i]) && a1 == ReadFails(a, i, a.readKeys[i])
  }

  ghost predicate LeavesQueue(o: Oracle, s: Sys, a: Shared, i: OpId, a1: Shared) {
    && i < |s.ops| && i < |a.minTs|
    && var ts := Prophesied(o, i, s.ops[i]);
    if Lt(a.minTs[i], ts) then CanRemoveWrite(a, ts) && a1 == WriteFails(a, i, ts) else a1 == RejectedFails(a, i)
  }

  ghost predicate Commits(o: Oracle, s: Sys, a: Shared, i: OpId, a1: Shared) {
    && i < |s.ops|
    && var ts := Prophesied(o, i, s.ops[i]);
    && ts in a.lin.queue.writeTokens && (Le(ts, a.lin.queue.watermark) || ts in a.lin.queue.pendingWrites)
    && a1 == WriteCommits(a, ts)
  }

  /** What the client that takes step `l` does to the shared state. */
  ghost predicate SharedStep(o: Oracle, s: Sys, a: Shared, l: Label, a1: Shared) {
    match l
    case BeginsRead(_) => a.lin.queue.watermark in a.lin.queue.committedTo && a1 == ReadBegins(o, a, |s.ops|)
    case FinishesUnanimous(i) => FinishesRead(s, a, i, a1)
    case FinishesWriteBack(i) => FinishesRead(s, a, i, a1)
    case FailsFirst(i) => FailsRead(a, i, a1)
    case FailsWriteBack(i) => FailsRead(a, i, a1)
    case BeginsWrite(c, v) =>
      c in s.writeCtr && a1 == WriteBegins(a, |s.ops|, v, Timestamp(o.seqno(|s.ops|), c, s.writeCtr[c]))
    case FailsQuery(i) => LeavesQueue(o, s, a, i, a1)
    case Chooses(i) => Commits(o, s, a, i, a1)
    case FinishesWrite(i) => i < |s.ops| && s.ops[i].phase.WriteSent? && a1 == WriteFinishes(a, s.ops[i].phase.ts)
    case _ => a1 == a
  }

  /** An operation that begins records the watermark it found. */
  ghost predicate Records(s: Sys, a: Shared, s1: Sys, a1: Shared) {
    |s1.ops| > |s.ops| ==>
      && |s.ops| < |a1.minTs|
      && a1.minTs[|s.ops|] == a.lin.queue.watermark
      && a1.lin.queue.watermark == a.lin.queue.watermark
  }

  /** What every step of the shared state leaves behind. */
  ghost predicate Follows(o: Oracle, s: Sys, a: Shared, l: Label, s1: Sys, a1: Shared) {
    SharedStep(o, s, a, l, a1) && Linked(o, s1, a1) && Inv(a1.lin) && Moves(a, a1) && Records(s, a, s1, a1)
  }

  lemma SystemStepFollows(o: Oracle, s: Sys, a: Shared, l: Label, s1: Sys)
    requires GlobalInv(o, s, a) && SystemStep(s, l, s1) && Leq(Times(s.servers), Times(s1.servers))
    ensures Follows(o, s, a, l, s1, a)
  {
    if l.Logins? {
      LoginLinked(o, s, a, s1, l.client);
    } else {
      ServeLinked(o, s, a, s1, l.m);
    }
  }

  lemma ReadBeginFollows(o: Oracle, s: Sys, a: Shared, l: Label, s1: Sys) returns (a1: Shared)
    requires GlobalInv(o, s, a) && ReadStep(s, l, s1) && l.BeginsRead?
    ensures Follows(o, s, a, l, s1, a1)
  {
    BeginReadLinked(o, s, a, s1, l.client);
    a1 := ReadBegins(o, a, |s.ops|);
  }

  lemma ReadFailureFollows(o: Oracle, s: Sys, a: Shared, l: Label, s1: Sys) returns (a1: Shared)
    requires GlobalInv(o, s, a) && ReadStep(s, l, s1) && (l.FailsFirst? || l.FailsWriteBack?)
    ensures Follows(o, s, a, l, s1, a1)
  {
    FailReadLinked(o, s, a, s1, l.op);
    a1 := ReadFails(a, l.op, a.readKeys[l.op]);
  }

  lemma FirstRoundFollows(o: Oracle, s: Sys, a: Shared, l: Label, s1: Sys) returns (a1: Shared)
    requires GlobalInv(o, s, a) && ForetellsAll(o, s1) && ReadStep(s, l, s1) && l.FinishesUnanimous?
    ensures Follows(o, s, a, l, s1, a1)
  {
    var i := l.op;
    assert Foretells(o, i, Resolution(s1.ops[i].phase));
    FinishUnanimousLinked(o, s, a, s1, i);
    a1 := ReadFinishes(a, a.readKeys[i], s.ops[i].phase.reading.maxResp.value.ts);
  }

  lemma SecondRoundFollows(o: Oracle, s: Sys, a: Shared, l: Label, s1: Sys) returns (a1: Shared)
    requires GlobalInv(o, s, a) && ReadStep(s, l, s1) && l.FinishesWriteBack?
    ensures Follows(o, s, a, l, s1, a1)
  {
    var i := l.op;
    FinishWriteBackLinked(o, s, a, s1, i);
    a1 := ReadFinishes(a, a.readKeys[i], s.ops[i].phase.reading.maxResp.value.ts);
  }

  /** The requests that a read sends leave the shared state alone. */
  lemma ReadSendsFollow(o: Oracle, s: Sys, a: Shared, l: Label, s1: Sys)
    requires GlobalInv(o, s, a) && ReadStep(s, l, s1) && ForetellsAll(o, s1) && (l.SendsGet? || l.SendsWriteBack?)
    ensures Follows(o, s, a, l, s1, a)
  {
    if l.SendsGet? {
      SendGetLinked(o, s, a, s1, l.op);
    } else {
      assert Foretells(o, l.op, Resolution(s1.ops[l.op].phase));
      SendWriteBackLinked(o, s, a, s1, l.op);
    }
  }

  /** So do the replies that it takes. */
  lemma ReadTakesFollow(o: Oracle, s: Sys, a: Shared, l: Label, s1: Sys)
    requires GlobalInv(o, s, a) && ReadStep(s, l, s1) && (l.TakesReading? || l.TakesWriteBack?)
    ensures Follows(o, s, a, l, s1, a)
  {
    if l.TakesReading? {
      TakeReadingLinked(o, s, a, s1, l.op, l.m);
    } else {
      TakeWriteBackLinked(o, s, a, s1, l.op, l.m);
    }
  }

  lemma ReadStepFollows(o: Oracle, s: Sys, a: Shared, l: Label, s1: Sys) returns (a1: Shared)
    requires GlobalInv(o, s, a) && ReadStep(s, l, s1) && ForetellsAll(o, s1)
    ensures Follows(o, s, a, l, s1, a1)
  {
    if l.BeginsRead? {
      a1 := ReadBeginFollows(o, s, a, l, s1);
    } else if l.FinishesUnanimous? {
      a1 := FirstRoundFollows(o, s, a, l, s1);
    } else if l.FinishesWriteBack? {
      a1 := SecondRoundFollows(o, s, a, l, s1);
    } else if l.FailsFirst? || l.FailsWriteBack? {
      a1 := ReadFailureFollows(o, s, a, l, s1);
    } else if l.SendsGet? || l.SendsWriteBack? {
      ReadSendsFollow(o, s, a, l, s1);
      a1 := a;
    } else {
      ReadTakesFollow(o, s, a, l, s1);
      a1 := a;
    }
  }

  lemma WriteBeginFollows(o: Oracle, s: Sys, a: Shared, l: Label, s1: Sys) returns (a1: Shared)
    requires GlobalInv(o, s, a) && WriteStep(s, l, s1) && l.BeginsWrite?
    ensures Follows(o, s, a, l, s1, a1)
  {
    BeginWriteLinked(o, s, a, s1, l.client, l.value);
    a1 := WriteBegins(a, |s.ops|, l.value, Timestamp(o.seqno(|s.ops|), l.client, s.writeCtr[l.client]));
  }

  lemma QueryFailureFollows(o: Oracle, s: Sys, a: Shared, l: Label, s1: Sys) returns (a1: Shared)
    requires GlobalInv(o, s, a) && WriteStep(s, l, s1) && l.FailsQuery?
    ensures Follows(o, s, a, l, s1, a1)
  {
    var i := l.op;
    assert OpOk(s, i) && OpAt(o, s, a, i);
    if Lt(a.minTs[i], Prophesied(o, i, s.ops[i])) {
      FailQueryLinked(o, s, a, s1, i);
      a1 := WriteFails(a, i, Prophesied(o, i, s.ops[i]));
    } else {
      FailRejectedLinked(o, s, a, s1, i);
      a1 := RejectedFails(a, i);
    }
  }

  lemma ChoiceFollows(o: Oracle, s: Sys, a: Shared, l: Label, s1: Sys) returns (a1: Shared)
    requires GlobalInv(o, s, a) && ForetellsAll(o, s1) && WriteStep(s, l, s1) && l.Chooses?
    ensures Follows(o, s, a, l, s1, a1)
  {
    var i := l.op;
    assert Foretells(o, i, Resolution(s1.ops[i].phase));
    ChooseLinked(o, s, a, s1, i);
    a1 := WriteCommits(a, s1.ops[i].phase.ts);
  }

  lemma WriteFinishFollows(o: Oracle, s: Sys, a: Shared, l: Label, s1: Sys) returns (a1: Shared)
    requires GlobalInv(o, s, a) && WriteStep(s, l, s1) && l.FinishesWrite?
    ensures Follows(o, s, a, l, s1, a1)
  {
    FinishWriteLinked(o, s, a, s1, l.op);
    a1 := WriteFinishes(a, s.ops[l.op].phase.ts);
  }

  /** The requests that a write sends leave the shared state alone. */
  lemma WriteSendsFollow(o: Oracle, s: Sys, a: Shared, l: Label, s1: Sys)
    requires GlobalInv(o, s, a) && WriteStep(s, l, s1) && (l.SendsQuery? || l.SendsWrite?)
    ensures Follows(o, s, a, l, s1, a)
  {
    if l.SendsQuery? {
      SendQueryLinked(o, s, a, s1, l.op);
    } else {
      SendWriteLinked(o, s, a, s1, l.op);
    }
  }

  /** So do the replies that it takes. */
  lemma WriteTakesFollow(o: Oracle, s: Sys, a: Shared, l: Label, s1: Sys)
    requires GlobalInv(o, s, a) && WriteStep(s, l, s1) && (l.TakesTimestamp? || l.TakesAck?)
    ensures Follows(o, s, a, l, s1, a)
  {
    if l.TakesTimestamp? {
      TakeTimestampLinked(o, s, a, s1, l.op, l.m);
    } else {
      TakeAckLinked(o, s, a, s1, l.op, l.m);
    }
  }

  /** So do its preparation, and its failure after it chose. */
  lemma WriteSettlesFollow(o: Oracle, s: Sys, a: Shared, l: Label, s1: Sys)
    requires GlobalInv(o, s, a) && WriteStep(s, l, s1) && (l.Prepares? || l.FailsWrite?)
    ensures Follows(o, s, a, l, s1, a)
  {
    if l.Prepares? {
      PrepareLinked(o, s, a, s1, l.op);
    } else {
      FailWriteLinked(o, s, a, s1, l.op);
    }
  }

  lemma WriteStepFollows(o: Oracle, s: Sys, a: Shared, l: Label, s1: Sys) returns (a1: Shared)
    requires GlobalInv(o, s, a) && WriteStep(s, l, s1) && ForetellsAll(o, s1)
    ensures Follows(o, s, a, l, s1, a1)
  {
    if l.BeginsWrite? {
      a1 := WriteBeginFollows(o, s, a, l, s1);
    } else if l.FailsQuery? {
      a1 := QueryFailureFollows(o, s, a, l, s1);
    } else if l.Chooses? {
      a1 := ChoiceFollows(o, s, a, l, s1);
    } else if l.FinishesWrite? {
      a1 := WriteFinishFollows(o, s, a, l, s1);
    } else if l.SendsQuery? || l.SendsWrite? {
      WriteSendsFollow(o, s, a, l, s1);
      a1 := a;
    } else if l.TakesTimestamp? || l.TakesAck? {
      WriteTakesFollow(o, s, a, l, s1);
      a1 := a;
    } else {
      WriteSettlesFollow(o, s, a, l, s1);
      a1 := a;
    }
  }

  lemma StepFollows(o: Oracle, s: Sys, a: Shared, l: Label, s1: Sys) returns (a1: Shared)
    requires GlobalInv(o, s, a) && Step(s, l, s1) && ForetellsAll(o, s1) && Leq(Times(s.servers), Times(s1.servers))
    ensures Follows(o, s, a, l, s1, a1)
  {
    if ReadStep(s, l, s1) {
      a1 := ReadStepFollows(o, s, a, l, s1);
    } else if WriteStep(s, l, s1) {
      a1 := WriteStepFollows(o, s, a, l, s1);
    } else {
      SystemStepFollows(o, s, a, l, s1);
      a1 := a;
    }
  }

  /** The global invariant is inductive: every step of a client or a server has a
      matching step of the shared state that keeps it. */
  lemma GlobalStep(o: Oracle, s: Sys, a: Shared, l: Label, s1: Sys) returns (a1: Shared)
    requires GlobalInv(o, s, a) && Step(s, l, s1) && ForetellsAll(o, s1)
    ensures SharedStep(o, s, a, l, a1)
    ensures GlobalInv(o, s1, a1)
    ensures Moves(a, a1) && Records(s, a, s1, a1)
  {
    assert SysInv(s1) && Leq(Times(s.servers), Times(s1.servers)) by { StepKeeps(s, l, s1); }
    a1 := StepFollows(o, s, a, l, s1);
  }
}
