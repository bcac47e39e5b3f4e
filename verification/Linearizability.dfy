/** Every run of the protocol is linearizable, under any delay, loss, reordering or
    duplication of messages and whatever becomes of the operations that fail. */
module Linearizability {
  import opened Timestamps
  import opened Protocol
  import opened ProtocolInv
  import opened LinQueueSpec
  import opened LinQueueProof
  import opened SharedState
  import opened SharedSteps
  import opened SharedRuns

  // ----------------------------------------------------------- definitions

  /** An operation has at most two events, its invocation and then its end; an
      operation that ends was invoked before. */
  ghost predicate WellFormed(h: seq<Event>) {
    && (forall m, n :: 0 <= m < n < |h| && h[m].op == h[n].op ==> h[m].Invoke? && !h[n].Invoke?)
    && (forall n :: 0 <= n < |h| && !h[n].Invoke? ==> exists m :: 0 <= m < n && h[m].Invoke? && h[m].op == h[n].op)
  }

  ghost predicate InvokedIn(h: seq<Event>, e: LinEvent) {
    Invoke(e.lin, if e.Wrote? then WriteOp(e.value) else ReadOp) in h
  }

  /** The log has the entry that a returned operation calls for. */
  ghost predicate Answered(log: seq<LinEvent>, op: OpId, result: Result) {
    exists e :: e in log && e.lin == op && e.Saw? == result.ReadResult?
        && (result.ReadResult? ==> e.value == result.value)
  }

  /** What returned before another operation was invoked takes effect before it. */
  ghost predicate RealTime(h: seq<Event>, log: seq<LinEvent>) {
    forall m, n, i, j :: 0 <= m < n < |h| && 0 <= i < |log| && 0 <= j < |log| ==>
      h[m].Return? && h[n].Invoke? && log[i].lin == h[m].op && log[j].lin == h[n].op ==> i < j
  }

  /** `log` is a linearization of the history: a legal sequential run of a register that
      starts empty, of operations of the history, each at most once, with every
      completed operation and its result in it, in an order that respects real time. */
  ghost predicate IsLinearization(h: seq<Event>, log: seq<LinEvent>) {
    && NoRepeats(log)
    && Legal(log)
    && (forall e :: e in log ==> InvokedIn(h, e))
    && (forall n :: 0 <= n < |h| && h[n].Return? ==> Answered(log, h[n].op, h[n].result))
    && RealTime(h, log)
  }

  /** A read that begins after a write returned, and still returns the initial value. */
  function StaleHistory(v: nat, ts: Timestamp): seq<Event> {
    [Invoke(0, WriteOp(Some(v))), Return(0, WriteResult), Invoke(1, ReadOp), Return(1, ReadResult(None, ts))]
  }

  lemma StaleEntries(v: nat, ts: Timestamp, e: LinEvent)
    requires InvokedIn(StaleHistory(v, ts), e)
    ensures (e.lin == 0 && e.Wrote? && e.value == Some(v)) || (e.lin == 1 && e.Saw?)
  {
  }

  lemma StaleOrder(v: nat, ts: Timestamp, log: seq<LinEvent>, i: nat, j: nat)
    requires RealTime(StaleHistory(v, ts), log) && i < |log| && j < |log| && log[i].lin == 0 && log[j].lin == 1
    ensures i < j
  {
    var h := StaleHistory(v, ts);
    assert h[1].Return? && h[2].Invoke? && log[i].lin == h[1].op && log[j].lin == h[2].op;
  }

  lemma StaleLength(v: nat, ts: Timestamp, log: seq<LinEvent>, i: nat, j: nat)
    requires NoRepeats(log) && (forall e :: e in log ==> InvokedIn(StaleHistory(v, ts), e))
    requires i < j < |log| && log[i].lin == 0 && log[j].lin == 1
    ensures i == 0 && j == 1
  {
    if i > 0 {
      StaleEntries(v, ts, log[0]);
    } else if j > 1 {
      StaleEntries(v, ts, log[1]);
    }
  }

  lemma StaleAnswers(v: nat, ts: Timestamp, log: seq<LinEvent>) returns (i: nat, j: nat)
    requires Answered(log, 0, WriteResult) && Answered(log, 1, ReadResult(None, ts))
    ensures i < |log| && log[i].lin == 0
    ensures j < |log| && log[j].lin == 1 && log[j].Saw? && log[j].value == None
  {
    var w :| w in log && w.lin == 0;
    var r :| r in log && r.lin == 1 && r.Saw? && r.value == None;
    i :| i < |log| && log[i] == w;
    j :| j < |log| && log[j] == r;
  }

  lemma SecondSeesFirst(log: seq<LinEvent>)
    requires Legal(log) && |log| > 1 && log[0].Wrote? && log[1].Saw?
    ensures log[1].value == log[0].value
  {
    assert log[..1] == [log[0]];
  }

  lemma AnsweredAt(h: seq<Event>, log: seq<LinEvent>, n: nat)
    requires IsLinearization(h, log) && n < |h| && h[n].Return?
    ensures Answered(log, h[n].op, h[n].result)
  {
  }

  /** The definition has teeth: such a history has no linearization. */
  lemma StaleReadsAreNotLinearizable(v: nat, ts: Timestamp, log: seq<LinEvent>)
    ensures !IsLinearization(StaleHistory(v, ts), log)
  {
    if IsLinearization(StaleHistory(v, ts), log) {
      AnsweredAt(StaleHistory(v, ts), log, 1);
      AnsweredAt(StaleHistory(v, ts), log, 3);
      var i, j := StaleAnswers(v, ts, log);
      StaleOrder(v, ts, log, i, j);
      StaleLength(v, ts, log, i, j);
      StaleEntries(v, ts, log[0]);
      SecondSeesFirst(log);
      assert false;
    }
  }

  // --------------------------------------------------- marks on the history

  /** How long the log was, and where the watermark, at an event of the history. */
  datatype Mark = Mark(len: nat, watermark: Timestamp)

  ghost predicate ReturnMarked(s: Sys, log: seq<LinEvent>, mark: Mark, op: OpId, result: Result)
    requires op < |s.ops| && mark.len <= |log|
  {
    match result
    case ReadResult(v, ts) =>
      && s.ops[op].kind.ReadOp? && s.ops[op].phase == ReadDone(v, ts)
      && SawIn(log[..mark.len], op, v) && Le(ts, mark.watermark)
    case WriteResult =>
      && s.ops[op].kind.WriteOp? && s.ops[op].phase.WriteDone?
      && Wrote(op, s.ops[op].kind.value, s.ops[op].phase.ts) in log[..mark.len]
      && Le(s.ops[op].phase.ts, mark.watermark)
  }

  ghost predicate MarkAt(s: Sys, a: Shared, e: Event, mark: Mark) {
    && e.op < |s.ops| && e.op < |a.minTs|
    && mark.len <= |a.lin.register.log|
    && Le(mark.watermark, a.lin.queue.watermark)
    && match e
       case Invoke(i, kind) =>
         s.ops[i].kind == kind && Unlogged(a.lin.register.log[..mark.len], i) && mark.watermark == a.minTs[i]
       case Return(i, result) => ReturnMarked(s, a.lin.register.log, mark, i, result)
       case Fail(i) => Ended(s.ops[i].phase)
  }

  ghost predicate InvokedAt(h: seq<Event>, op: OpId, kind: OpKind, n: int) {
    0 <= n < |h| && h[n] == Invoke(op, kind)
  }

  ghost predicate WasInvoked(s: Sys, i: OpId) {
    i < |s.ops| ==> exists n :: InvokedAt(s.history, i, s.ops[i].kind, n)
  }

  ghost predicate MarksInv(s: Sys, a: Shared, marks: seq<Mark>) {
    && |marks| == |s.history|
    && (forall n :: 0 <= n < |marks| ==> MarkAt(s, a, s.history[n], marks[n]))
    && (forall m, n :: 0 <= m < n < |marks| ==>
        marks[m].len <= marks[n].len && Le(marks[m].watermark, marks[n].watermark))
    && (forall i :: WasInvoked(s, i))
  }

  // -------------------------------------------------------- one more step

  lemma MarkStays(s: Sys, a: Shared, s1: Sys, a1: Shared, e: Event, mark: Mark)
    requires MarkAt(s, a, e, mark) && Shape(s, s1) && Moves(a, a1)
    ensures MarkAt(s1, a1, e, mark)
  {
    var log, log1 := a.lin.register.log, a1.lin.register.log;
    assert log1[..mark.len] == log[..mark.len];
    assert PhaseMoves(s.ops[e.op].phase, s1.ops[e.op].phase);
  }

  lemma InvokedStays(s: Sys, s1: Sys, i: OpId)
    requires Shape(s, s1) && WasInvoked(s, i)
    ensures WasInvoked(s1, i)
  {
    if i < |s.ops| {
      var n :| InvokedAt(s.history, i, s.ops[i].kind, n);
      assert s1.history[n] == s1.history[..|s.history|][n];
      assert InvokedAt(s1.history, i, s1.ops[i].kind, n);
    } else if i < |s1.ops| {
      assert InvokedAt(s1.history, i, s1.ops[i].kind, |s.history|);
    }
  }

  /** The event just recorded is marked with the log's length before an invocation,
      and after a return. */
  lemma NewMark(o: Oracle, s: Sys, a: Shared, s1: Sys, a1: Shared, e: Event) returns (mark: Mark)
    requires EventFits(s, s1, e) && Moves(a, a1) && Records(s, a, s1, a1)
    requires Fresh(a.lin, |s.ops|) && OpAt(o, s1, a1, e.op) && OpOk(s1, e.op)
    ensures MarkAt(s1, a1, e, mark)
    ensures mark.len >= |a.lin.register.log| && Le(a.lin.queue.watermark, mark.watermark)
  {
    var log, log1 := a.lin.register.log, a1.lin.register.log;
    if e.Invoke? {
      assert log1[..|log|] == log;
      mark := Mark(|log|, a1.lin.queue.watermark);
    } else {
      assert log1[..|log1|] == log1;
      mark := Mark(|log1|, a1.lin.queue.watermark);
    }
  }

  lemma StepMarks(o: Oracle, s: Sys, a: Shared, s1: Sys, a1: Shared, marks: seq<Mark>) returns (marks1: seq<Mark>)
    requires Shape(s, s1) && Moves(a, a1) && Records(s, a, s1, a1) && MarksInv(s, a, marks)
    requires Fresh(a.lin, |s.ops|) && (forall i :: OpAt(o, s1, a1, i)) && (forall i :: OpOk(s1, i))
    ensures MarksInv(s1, a1, marks1)
  {
    var n := |s.history|;
    if |s1.history| == n {
      marks1 := marks;
    } else {
      var e := s1.history[n];
      assert OpAt(o, s1, a1, e.op) && OpOk(s1, e.op);
      var mark := NewMark(o, s, a, s1, a1, e);
      marks1 := marks + [mark];
      forall m | 0 <= m < n ensures marks[m].len <= mark.len && Le(marks[m].watermark, mark.watermark) {
        assert MarkAt(s, a, s.history[m], marks[m]);
      }
    }
    OldMarksStay(s, a, s1, a1, marks);
    forall i: OpId ensures WasInvoked(s1, i) {
      assert WasInvoked(s, i);
      InvokedStays(s, s1, i);
    }
  }

  lemma OldMarksStay(s: Sys, a: Shared, s1: Sys, a1: Shared, marks: seq<Mark>)
    requires Shape(s, s1) && Moves(a, a1) && MarksInv(s, a, marks)
    ensures |s.history| <= |s1.history|
    ensures forall m :: 0 <= m < |marks| ==> MarkAt(s1, a1, s1.history[m], marks[m])
  {
    var n := |s.history|;
    assert s1.history[..n] == s.history;
    forall m | 0 <= m < n ensures MarkAt(s1, a1, s1.history[m], marks[m]) {
      assert s1.history[m] == s1.history[..n][m];
      assert MarkAt(s, a, s.history[m], marks[m]);
      MarkStays(s, a, s1, a1, s.history[m], marks[m]);
    }
  }

  // ------------------------------------------- from marks to linearizability

  lemma InPrefixOf(log: seq<LinEvent>, len: nat, j: nat)
    requires len <= |log| && j < |log|
    ensures j < len ==> log[j] in log[..len]
  {
    if j < len {
      assert log[..len][j] == log[j];
    }
  }

  lemma MarkedRealTime(s: Sys, a: Shared, marks: seq<Mark>, m: nat, n: nat, i: nat, j: nat)
    requires MarksInv(s, a, marks) && NoRepeats(a.lin.register.log)
    requires m < n < |s.history| && s.history[m].Return? && s.history[n].Invoke?
    requires i < |a.lin.register.log| && j < |a.lin.register.log|
    requires a.lin.register.log[i].lin == s.history[m].op && a.lin.register.log[j].lin == s.history[n].op
    ensures i < j
  {
    var log := a.lin.register.log;
    assert MarkAt(s, a, s.history[m], marks[m]) && MarkAt(s, a, s.history[n], marks[n]);
    var e := EntryBefore(s, a, s.history[m], marks[m]);
    var k :| 0 <= k < marks[m].len && log[k] == e;
    assert k == i;
    InPrefixOf(log, marks[n].len, j);
  }

  /** A returned operation's entry was in the log when it returned. */
  lemma EntryBefore(s: Sys, a: Shared, e: Event, mark: Mark) returns (entry: LinEvent)
    requires MarkAt(s, a, e, mark) && e.Return?
    ensures exists k :: 0 <= k < mark.len && a.lin.register.log[k] == entry
    ensures entry in a.lin.register.log && entry.lin == e.op
    ensures entry.Saw? == e.result.ReadResult? && (e.result.ReadResult? ==> entry.value == e.result.value)
  {
    var log := a.lin.register.log;
    if e.result.ReadResult? {
      var t :| Saw(e.op, e.result.value, t) in log[..mark.len];
      entry := Saw(e.op, e.result.value, t);
    } else {
      entry := Wrote(e.op, s.ops[e.op].kind.value, s.ops[e.op].phase.ts);
    }
    var k :| 0 <= k < mark.len && log[..mark.len][k] == entry;
    assert log[k] == entry;
  }

  lemma MarkedInvoked(s: Sys, a: Shared, marks: seq<Mark>, e: LinEvent)
    requires MarksInv(s, a, marks) && EntryAt(s, e)
    ensures InvokedIn(s.history, e)
  {
    assert WasInvoked(s, e.lin);
    var n :| InvokedAt(s.history, e.lin, s.ops[e.lin].kind, n);
    assert s.history[n] in s.history;
  }

  lemma MarkedIsLinearization(s: Sys, a: Shared, marks: seq<Mark>)
    requires MarksInv(s, a, marks) && LogInv(a.lin.register.log) && Entries(s, a.lin.register.log)
    ensures IsLinearization(s.history, a.lin.register.log)
  {
    var h, log := s.history, a.lin.register.log;
    assert forall e :: e in log ==> InvokedIn(h, e) by {
      forall e | e in log ensures InvokedIn(h, e) {
        assert EntryAt(s, e);
        MarkedInvoked(s, a, marks, e);
      }
    }
    assert forall n :: 0 <= n < |h| && h[n].Return? ==> Answered(log, h[n].op, h[n].result) by {
      forall n | 0 <= n < |h| && h[n].Return? ensures Answered(log, h[n].op, h[n].result) {
        assert MarkAt(s, a, h[n], marks[n]);
        var e := EntryBefore(s, a, h[n], marks[n]);
      }
    }
    assert RealTime(h, log) by {
      forall m, n, i, j | 0 <= m < n < |h| && h[m].Return? && h[n].Invoke? && 0 <= i < |log| && 0 <= j < |log|
                          && log[i].lin == h[m].op && log[j].lin == h[n].op ensures i < j {
        MarkedRealTime(s, a, marks, m, n, i, j);
      }
    }
  }

  // ------------------------------------------------------------- every run

  lemma RunStepShape(states: seq<Sys>, labels: seq<Label>, n: nat)
    requires IsRun(states, labels) && n < |labels|
    ensures Shape(states[n], states[n + 1])
  {
    StepShape(states[n], labels[n], states[n + 1]);
  }

  /** What the end of a run foretells, every earlier state foretold. */
  lemma {:induction false} ForetoldThroughout(o: Oracle, states: seq<Sys>, labels: seq<Label>, n: nat)
    requires IsRun(states, labels) && n < |states| && ForetellsAll(o, states[|labels|])
    ensures ForetellsAll(o, states[n])
    decreases |labels| - n
  {
    if n < |labels| {
      ForetoldThroughout(o, states, labels, n + 1);
      RunStepShape(states, labels, n);
      ForetoldBefore(o, states[n], states[n + 1]);
    }
  }

  lemma RunGlobalStep(o: Oracle, states: seq<Sys>, labels: seq<Label>, n: nat, a: Shared, marks: seq<Mark>)
    returns (a1: Shared, marks1: seq<Mark>)
    requires IsRun(states, labels) && n < |labels| && ForetellsAll(o, states[n + 1])
    requires GlobalInv(o, states[n], a) && MarksInv(states[n], a, marks)
    ensures SharedStep(o, states[n], a, labels[n], a1) && Moves(a, a1)
    ensures GlobalInv(o, states[n + 1], a1) && MarksInv(states[n + 1], a1, marks1)
  {
    a1 := GlobalStep(o, states[n], a, labels[n], states[n + 1]);
    RunStepShape(states, labels, n);
    FreshOp(states[n], a);
    marks1 := StepMarks(o, states[n], a, states[n + 1], a1, marks);
  }

  lemma InitialMarks(s: Sys)
    requires Init(s)
    ensures MarksInv(s, INITIAL_SHARED, [])
  {
  }

  /** The shared state satisfies the global invariant at moment `n` of the run. */
  ghost predicate SharedInvAt(o: Oracle, states: seq<Sys>, shared: seq<Shared>, n: nat) {
    n < |shared| && n < |states| ==> GlobalInv(o, states[n], shared[n])
  }

  /** The shared state moves as step `n` of the run demands. */
  ghost predicate SharedMoveAt(o: Oracle, states: seq<Sys>, labels: seq<Label>, shared: seq<Shared>, n: nat) {
    n + 1 < |shared| && n < |states| && n < |labels| ==>
      SharedStep(o, states[n], shared[n], labels[n], shared[n + 1]) && Moves(shared[n], shared[n + 1])
  }

  ghost predicate IsSharedRun(o: Oracle, states: seq<Sys>, labels: seq<Label>, shared: seq<Shared>) {
    && 0 < |shared| <= |states| == |labels| + 1
    && shared[0] == INITIAL_SHARED
    && (forall n :: SharedInvAt(o, states, shared, n))
    && (forall n :: SharedMoveAt(o, states, labels, shared, n))
  }

  lemma SameMoves(o: Oracle, states: seq<Sys>, labels: seq<Label>, shared: seq<Shared>, shared1: seq<Shared>, n: nat)
    requires SharedMoveAt(o, states, labels, shared, n) && shared <= shared1 && n + 1 < |shared|
    ensures SharedMoveAt(o, states, labels, shared1, n)
  {
    assert shared1[n] == shared[n] && shared1[n + 1] == shared[n + 1];
  }

  lemma SameInvs(o: Oracle, states: seq<Sys>, shared: seq<Shared>, shared1: seq<Shared>, n: nat)
    requires SharedInvAt(o, states, shared, n) && shared <= shared1 && n < |shared|
    ensures SharedInvAt(o, states, shared1, n)
  {
    assert shared1[n] == shared[n];
  }

  lemma ExtendSharedRun(o: Oracle, states: seq<Sys>, labels: seq<Label>, shared: seq<Shared>, a1: Shared)
    requires IsSharedRun(o, states, labels, shared) && |shared| < |states|
    requires SharedInvAt(o, states, shared + [a1], |shared|)
    requires SharedMoveAt(o, states, labels, shared + [a1], |shared| - 1)
    ensures IsSharedRun(o, states, labels, shared + [a1])
  {
    var shared1 := shared + [a1];
    forall n: nat ensures SharedInvAt(o, states, shared1, n) {
      if n < |shared| {
        assert SharedInvAt(o, states, shared, n);
        SameInvs(o, states, shared, shared1, n);
      } else if n > |shared| {
        assert n >= |shared1|;
      }
    }
    forall n: nat ensures SharedMoveAt(o, states, labels, shared1, n) {
      if n + 1 < |shared| {
        assert SharedMoveAt(o, states, labels, shared, n);
        SameMoves(o, states, labels, shared, shared1, n);
      } else if n + 1 > |shared| {
        assert n + 1 >= |shared1|;
      }
    }
  }

  lemma NewMove(o: Oracle, states: seq<Sys>, labels: seq<Label>, shared: seq<Shared>, a1: Shared, n: nat)
    requires n < |labels| && n < |states| && |shared| == n + 1 && Moves(shared[n], a1)
    requires SharedStep(o, states[n], shared[n], labels[n], a1)
    ensures SharedMoveAt(o, states, labels, shared + [a1], n)
  {
    assert (shared + [a1])[n] == shared[n] && (shared + [a1])[n + 1] == a1;
  }

  lemma NewInv(o: Oracle, states: seq<Sys>, shared: seq<Shared>, a1: Shared)
    requires |shared| < |states| && GlobalInv(o, states[|shared|], a1)
    ensures SharedInvAt(o, states, shared + [a1], |shared|)
  {
    assert (shared + [a1])[|shared|] == a1;
  }

  /** One more step of the run, with the shared state that goes with it. */
  lemma AccompanyStep(o: Oracle, states: seq<Sys>, labels: seq<Label>, n: nat, shared: seq<Shared>, marks: seq<Mark>)
    returns (a1: Shared, marks1: seq<Mark>)
    requires IsRun(states, labels) && n < |labels| && ForetellsAll(o, states[n + 1])
    requires |shared| == n + 1 && SharedInvAt(o, states, shared, n) && MarksInv(states[n], shared[n], marks)
    ensures SharedInvAt(o, states, shared + [a1], n + 1) && SharedMoveAt(o, states, labels, shared + [a1], n)
    ensures MarksInv(states[n + 1], a1, marks1)
  {
    a1, marks1 := RunGlobalStep(o, states, labels, n, shared[n], marks);
    NewMove(o, states, labels, shared, a1, n);
    NewInv(o, states, shared, a1);
  }

  lemma {:induction false} RunAccompanied(o: Oracle, states: seq<Sys>, labels: seq<Label>, n: nat)
    returns (shared: seq<Shared>, marks: seq<Mark>)
    requires IsRun(states, labels) && n < |states| && ForetellsAll(o, states[|labels|])
    ensures |shared| == n + 1 && IsSharedRun(o, states, labels, shared) && MarksInv(states[n], shared[n], marks)
  {
    if n == 0 {
      InitialLinked(o, states[0]);
      InitialMarks(states[0]);
      shared, marks := [INITIAL_SHARED], [];
    } else {
      shared, marks := RunAccompanied(o, states, labels, n - 1);
      assert SharedInvAt(o, states, shared, n - 1);
      ForetoldThroughout(o, states, labels, n);
      var a1, marks1 := AccompanyStep(o, states, labels, n - 1, shared, marks);
      ExtendSharedRun(o, states, labels, shared, a1);
      shared, marks := shared + [a1], marks1;
    }
  }

  lemma OracleForetells(s: Sys)
    ensures ForetellsAll(OracleOf(s), s)
  {
  }

  /** The main theorem: every run has a linearization, and one in timestamp order. */
  lemma EveryRunIsLinearizable(states: seq<Sys>, labels: seq<Label>)
    requires IsRun(states, labels)
    ensures exists log :: IsLinearization(states[|labels|].history, log) && InTimestampOrder(log)
  {
    var n := |labels|;
    var o := OracleOf(states[n]);
    OracleForetells(states[n]);
    var shared, marks := RunAccompanied(o, states, labels, n);
    assert SharedInvAt(o, states, shared, n);
    MarkedIsLinearization(states[n], shared[n], marks);
  }
}
