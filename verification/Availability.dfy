/** Operations come to an end: from every reachable state, any majority of the servers can
    see any operation through, whatever has become of all others. Nothing here says that
    messages must be delivered; only that delivering them suffices. */
module Availability {
  import opened Timestamps
  import opened Quorums
  import opened ReadPhases
  import opened WritePhases
  import opened Protocol
  import opened ProtocolInv
  import opened StepEffects
  import opened WaitSteps
  import opened SharedRuns
  import opened LinQueueProof
  import opened Linearizability
  import opened RunTheorems

  // ---------------------------------------- requests that are under way

  /** The servers an operation has heard from, or knows to need no reply from. */
  function Heard(p: Phase): set<ServerId> {
    match p
    case ReadFirst(_, _, acc) => acc.getReplies
    case ReadWriteBack(_, _, acc) => acc.agreeWithMax
    case WriteQuery(_, _, acc) => acc.replies
    case WriteSent(_, _, _, acc) => acc.replies
    case _ => {}
  }

  /** The request that an operation waits on is under way to server `k`. */
  ghost predicate SentTo(s: Sys, i: OpId, k: ServerId)
    requires i < |s.ops| && Waits(s.ops[i].phase)
  {
    var (c, id) := (s.ops[i].client, s.ops[i].phase.id);
    (c, id) in s.issued && ToServer(c, k, id, s.issued[(c, id)]) in s.net
  }

  /** It is under way to every server not heard from. */
  ghost predicate SentOk(s: Sys, i: OpId) {
    i < |s.ops| && Waits(s.ops[i].phase) ==>
      forall k :: k in s.servers && k !in Heard(s.ops[i].phase) ==> SentTo(s, i, k)
  }

  lemma SentStays(s: Sys, s1: Sys, i: OpId)
    requires Grows(s, s1) && SentOk(s, i) && i < |s.ops| && s1.ops[i].client == s.ops[i].client
    requires
      Waits(s1.ops[i].phase) ==>
        && Waits(s.ops[i].phase) && s1.ops[i].phase.id == s.ops[i].phase.id
        && Heard(s.ops[i].phase) <= Heard(s1.ops[i].phase)
    ensures SentOk(s1, i)
  {
    assert Times(s.servers).Keys == s.servers.Keys && Times(s1.servers).Keys == s1.servers.Keys;
    if Waits(s1.ops[i].phase) {
      forall k | k in s1.servers && k !in Heard(s1.ops[i].phase) ensures SentTo(s1, i, k) {
        assert SentTo(s, i, k);
      }
    }
  }

  /** What a request goes to, it is under way to. */
  lemma SentAnew(s: Sys, s1: Sys, i: OpId, request: Request)
    requires OnlyMoves(s, s1, i) && CanSend(s, i) && Waits(s1.ops[i].phase)
    requires s1.ops[i].phase.id == s.requestCtr[s.ops[i].client]
    requires SendsTo(s, s1, i, request, s.servers.Keys - Heard(s1.ops[i].phase))
    ensures SentOk(s1, i)
  {
    forall k | k in s1.servers && k !in Heard(s1.ops[i].phase) ensures SentTo(s1, i, k) {
    }
  }

  lemma GetIsSent(s: Sys, s1: Sys, i: OpId)
    requires SendGet(s, s1, i)
    ensures SentOk(s1, i)
  {
    assert s.servers.Keys - {} == s.servers.Keys;
    SendGetEffect(s, s1, i);
    SentAnew(s, s1, i, Get(s1.ops[i].phase.snapshot));
  }

  lemma WriteBackIsSent(s: Sys, s1: Sys, i: OpId)
    requires SendWriteBack(s, s1, i)
    ensures SentOk(s1, i)
  {
    SendWriteBackEffect(s, s1, i);
    var p := s.ops[i].phase;
    SentAnew(s, s1, i, Write(p.reading.maxResp.value.value, p.reading.maxResp.value.ts, p.snapshot));
  }

  lemma QueryIsSent(s: Sys, s1: Sys, i: OpId)
    requires SendQuery(s, s1, i)
    ensures SentOk(s1, i)
  {
    assert s.servers.Keys - {} == s.servers.Keys;
    SendQueryEffect(s, s1, i);
    SentAnew(s, s1, i, GetTimestamp(s1.ops[i].phase.snapshot));
  }

  lemma WriteIsSent(s: Sys, s1: Sys, i: OpId)
    requires SendWrite(s, s1, i)
    ensures SentOk(s1, i)
  {
    assert s.servers.Keys - {} == s.servers.Keys;
    SendWriteEffect(s, s1, i);
    SentAnew(s, s1, i, Write(s.ops[i].kind.value, s1.ops[i].phase.ts, s1.ops[i].phase.snapshot));
  }

  lemma SendKeepsSent(s: Sys, l: Label, s1: Sys)
    requires Step(s, l, s1) && (l.SendsGet? || l.SendsWriteBack? || l.SendsQuery? || l.SendsWrite?)
    ensures SentOk(s1, l.op)
  {
    if l.SendsGet? {
      GetIsSent(s, s1, l.op);
    } else if l.SendsWriteBack? {
      WriteBackIsSent(s, s1, l.op);
    } else if l.SendsQuery? {
      QueryIsSent(s, s1, l.op);
    } else {
      WriteIsSent(s, s1, l.op);
    }
  }

  /** What an operation takes leaves its request as it is. */
  lemma TakeHears(s: Sys, l: Label, s1: Sys)
    requires Step(s, l, s1) && (l.TakesReading? || l.TakesWriteBack? || l.TakesTimestamp? || l.TakesAck?)
    ensures l.op < |s.ops| && l.op < |s1.ops| && s1.ops[l.op].client == s.ops[l.op].client
    ensures
      var (p, p1) := (s.ops[l.op].phase, s1.ops[l.op].phase);
      Waits(p) && Waits(p1) && p1.id == p.id && Heard(p) <= Heard(p1)
    ensures forall j :: 0 <= j < |s.ops| && j != l.op ==> s1.ops[j] == s.ops[j]
  {
  }

  /** Every other step leaves an operation as it is, or in a phase in which it does not wait. */
  lemma OthersDoNotWait(s: Sys, l: Label, s1: Sys, i: OpId)
    requires Step(s, l, s1) && i < |s1.ops|
    requires !(l.SendsGet? || l.SendsWriteBack? || l.SendsQuery? || l.SendsWrite?)
    requires !(l.TakesReading? || l.TakesWriteBack? || l.TakesTimestamp? || l.TakesAck?)
    ensures (i < |s.ops| && s1.ops[i] == s.ops[i]) || !Waits(s1.ops[i].phase)
  {
    if ReadStep(s, l, s1) {
    } else if WriteStep(s, l, s1) {
    } else {
    }
  }

  lemma SendMovesOne(s: Sys, l: Label, s1: Sys, j: OpId)
    requires Step(s, l, s1) && (l.SendsGet? || l.SendsWriteBack? || l.SendsQuery? || l.SendsWrite?)
    requires j < |s1.ops| && j != l.op
    ensures j < |s.ops| && s1.ops[j] == s.ops[j]
  {
  }

  lemma StepKeepsSent(s: Sys, l: Label, s1: Sys, i: OpId)
    requires Step(s, l, s1) && Grows(s, s1) && SentOk(s, i)
    ensures SentOk(s1, i)
  {
    if i < |s1.ops| && Waits(s1.ops[i].phase) {
      if l.SendsGet? || l.SendsWriteBack? || l.SendsQuery? || l.SendsWrite? {
        if l.op == i {
          SendKeepsSent(s, l, s1);
        } else {
          SendMovesOne(s, l, s1, i);
          SentStays(s, s1, i);
        }
      } else if l.TakesReading? || l.TakesWriteBack? || l.TakesTimestamp? || l.TakesAck? {
        TakeHears(s, l, s1);
        SentStays(s, s1, i);
      } else {
        OthersDoNotWait(s, l, s1, i);
        SentStays(s, s1, i);
      }
    }
  }

  /** At every moment of a run, the request an operation waits on is under way to every
      server it has not heard from. */
  lemma {:induction false} RequestsAreUnderWay(states: seq<Sys>, labels: seq<Label>, n: nat, i: OpId)
    requires IsRun(states, labels) && n < |states|
    ensures SentOk(states[n], i)
  {
    if n > 0 {
      RequestsAreUnderWay(states, labels, n - 1, i);
      RunKeeps(states, labels, n - 1);
      RunStepKeeps(states, labels, n - 1);
      StepKeepsSent(states[n - 1], labels[n - 1], states[n], i);
    }
  }

  // ----------------------------------------- what a run may go on with

  /** A step of operation `i`, or of a server in `q`. */
  predicate Concerns(l: Label, i: OpId, q: Quorum) {
    if l.Serves? then l.m.server in q
    else !l.Logins? && !l.BeginsRead? && !l.BeginsWrite? && l.op == i
  }

  /** The run goes on, by nothing but steps of operation `i` and of servers in `q`. */
  ghost predicate GoesOn(states: seq<Sys>, labels: seq<Label>, states1: seq<Sys>, labels1: seq<Label>, i: OpId,
                         q: Quorum) {
    && IsRun(states1, labels1) && states <= states1 && labels <= labels1
    && (forall n :: |labels| <= n < |labels1| ==> Concerns(labels1[n], i, q))
  }

  lemma OneMore(states: seq<Sys>, labels: seq<Label>, states1: seq<Sys>, labels1: seq<Label>, l: Label, s1: Sys,
                i: OpId, q: Quorum)
    requires |states| == |labels| + 1 && GoesOn(states, labels, states1, labels1, i, q)
    requires Step(states1[|labels1|], l, s1) && Concerns(l, i, q)
    ensures GoesOn(states, labels, states1 + [s1], labels1 + [l], i, q)
  {
    ExtendRun(states1, labels1, l, s1);
  }

  lemma AndThen(states: seq<Sys>, labels: seq<Label>, states1: seq<Sys>, labels1: seq<Label>, states2: seq<Sys>,
                labels2: seq<Label>, i: OpId, q: Quorum)
    requires |states| == |labels| + 1 && GoesOn(states, labels, states1, labels1, i, q)
    requires GoesOn(states1, labels1, states2, labels2, i, q)
    ensures GoesOn(states, labels, states2, labels2, i, q)
  {
    forall n | |labels| <= n < |labels2| ensures Concerns(labels2[n], i, q) {
      assert n < |labels1| ==> labels2[n] == labels1[n];
    }
  }

  // ------------------------------------------- one server, one reply

  /** A server not heard from can answer, and the operation can take the answer. */
  lemma ServeAndTake(s: Sys, i: OpId, k: ServerId) returns (l: Label, t: Sys, l1: Label, s1: Sys)
    requires SysInv(s) && SentOk(s, i) && i < |s.ops| && Waits(s.ops[i].phase)
    requires k in s.servers && k !in Heard(s.ops[i].phase)
    ensures Step(s, l, t) && Step(t, l1, s1) && Concerns(l, i, {k}) && Concerns(l1, i, {k})
    ensures i < |s1.ops| && SameWait(s.ops[i], s1.ops[i])
    ensures Heard(s1.ops[i].phase) == Heard(s.ops[i].phase) + {k}
    ensures s1.servers.Keys == s.servers.Keys
  {
    var p := s.ops[i].phase;
    var (c, id) := (s.ops[i].client, p.id);
    assert SentTo(s, i, k);
    var m := ToServer(c, k, id, s.issued[(c, id)]);
    var (r, response) := Handle(s.servers[k], m.request);
    t := s.(servers := s.servers[k := r], net := s.net + {ToClient(c, k, id, response)});
    l := Serves(m);
    assert Serve(s, t, m);
    StepKeeps(s, l, t);
    DeliveredSuits(t, i, k, response);
    s1 := SetPhase(t, i, Absorb(p, k, response));
    l1 := LabelFor(p, i, ToClient(c, k, id, response));
    AbsorbIsStep(t, s1, i, k, response);
    assert OpOk(s, i);
    AbsorbHears(s, s.ops[i], k, response);
  }

  /** The operation is the same, and waits for replies to the same request. */
  predicate SameWait(op: Op, op1: Op) {
    && op1.client == op.client && op1.kind == op.kind && op1.ctr == op.ctr
    && Waits(op.phase) && Waits(op1.phase) && op1.phase.id == op.phase.id
    && (op.phase.ReadFirst? <==> op1.phase.ReadFirst?)
    && (op.phase.ReadWriteBack? <==> op1.phase.ReadWriteBack?)
    && (op.phase.WriteQuery? <==> op1.phase.WriteQuery?)
    && (op.phase.WriteSent? <==> op1.phase.WriteSent?)
  }

  lemma AbsorbHears(s: Sys, op: Op, k: ServerId, response: Response)
    requires PhaseOk(s, op) && Waits(op.phase) && Suits(op.phase, response) && k !in Heard(op.phase)
    ensures SameWait(op, op.(phase := Absorb(op.phase, k, response)))
    ensures Heard(Absorb(op.phase, k, response)) == Heard(op.phase) + {k}
  {
    var p := op.phase;
    if p.ReadWriteBack? {
      assert KnowsServer(p.reading, p.snapshot, k);
    }
  }

  // --------------------------------------------------- a whole majority

  /** The servers in `q` answer, and the operation hears them all. */
  lemma {:induction false} Gather(states: seq<Sys>, labels: seq<Label>, i: OpId, q: Quorum, rest: Quorum)
    returns (states1: seq<Sys>, labels1: seq<Label>)
    requires IsRun(states, labels) && rest <= q
    requires var s := states[|labels|]; q <= s.servers.Keys && i < |s.ops| && Waits(s.ops[i].phase)
    ensures GoesOn(states, labels, states1, labels1, i, q)
    ensures
      var (s, s1) := (states[|labels|], states1[|labels1|]);
      && i < |s1.ops| && SameWait(s.ops[i], s1.ops[i]) && s1.servers.Keys == s.servers.Keys
      && Heard(s1.ops[i].phase) == Heard(s.ops[i].phase) + rest
  {
    if rest == {} {
      states1, labels1 := states, labels;
    } else {
      var k :| k in rest;
      states1, labels1 := Gather(states, labels, i, q, rest - {k});
      var t := states1[|labels1|];
      if k in Heard(t.ops[i].phase) {
        assert Heard(t.ops[i].phase) == Heard(states[|labels|].ops[i].phase) + rest;
      } else {
        RunKeeps(states1, labels1, |labels1|);
        RequestsAreUnderWay(states1, labels1, |labels1|, i);
        var l, u, l1, s1 := ServeAndTake(t, i, k);
        OneMore(states, labels, states1, labels1, l, u, i, q);
        OneMore(states, labels, states1 + [u], labels1 + [l], l1, s1, i, q);
        states1, labels1 := states1 + [u] + [s1], labels1 + [l] + [l1];
      }
    }
  }

  /** Whoever it has heard from, with them and `q` a majority, an operation can get what
      it waits for. */
  lemma MajorityMakesReady(states: seq<Sys>, labels: seq<Label>, i: OpId, q: Quorum)
    returns (states1: seq<Sys>, labels1: seq<Label>)
    requires IsRun(states, labels)
    requires
      var s := states[|labels|];
      q <= s.servers.Keys && i < |s.ops| && Waits(s.ops[i].phase) && Most(s, |Heard(s.ops[i].phase) + q|)
    ensures GoesOn(states, labels, states1, labels1, i, q)
    ensures
      var (s, s1) := (states[|labels|], states1[|labels1|]);
      && i < |s1.ops| && SameWait(s.ops[i], s1.ops[i]) && s1.servers.Keys == s.servers.Keys
      && Ready(s1.ops[i].phase, Majority(s1))
  {
    states1, labels1 := Gather(states, labels, i, q, q);
    var (s, s1) := (states[|labels|], states1[|labels1|]);
    assert |s1.servers| == |s1.servers.Keys| && |s.servers| == |s.servers.Keys|;
    RunKeeps(states1, labels1, |labels1|);
    assert OpOk(s1, i);
    assert |Heard(s1.ops[i].phase)| > 0;
  }

  // ------------------------------------------------------- to the end

  ghost predicate IsMajority(s: Sys, q: Quorum) {
    q <= s.servers.Keys && Most(s, |q|)
  }

  lemma MajorityStays(s: Sys, s1: Sys, q: Quorum)
    requires IsMajority(s, q) && s1.servers.Keys == s.servers.Keys
    ensures IsMajority(s1, q)
  {
    assert |s1.servers| == |s1.servers.Keys| && |s.servers| == |s.servers.Keys|;
  }

  /** The operation has returned, as the history's last event tells. */
  predicate HasReturned(s: Sys, i: OpId) {
    && i < |s.ops| && |s.history| > 0
    && var (p, e) := (s.ops[i].phase, s.history[|s.history| - 1]);
    || (p.ReadDone? && e == Return(i, ReadResult(p.value, p.ts)))
    || (p.WriteDone? && e == Return(i, WriteResult))
  }

  /** An operation that waits hears a majority. */
  lemma HearMajority(states: seq<Sys>, labels: seq<Label>, i: OpId, q: Quorum)
    returns (states1: seq<Sys>, labels1: seq<Label>)
    requires IsRun(states, labels) && IsMajority(states[|labels|], q)
    requires i < |states[|labels|].ops| && Waits(states[|labels|].ops[i].phase)
    ensures GoesOn(states, labels, states1, labels1, i, q) && IsMajority(states1[|labels1|], q)
    ensures
      var (s, s1) := (states[|labels|], states1[|labels1|]);
      i < |s1.ops| && SameWait(s.ops[i], s1.ops[i]) && Ready(s1.ops[i].phase, Majority(s1)) && OpOk(s1, i)
  {
    var s := states[|labels|];
    SubsetSize(q, Heard(s.ops[i].phase) + q);
    states1, labels1 := MajorityMakesReady(states, labels, i, q);
    MajorityStays(s, states1[|labels1|], q);
    RunKeeps(states1, labels1, |labels1|);
  }

  /** The read's or write's own step `l` to `s1`, and from there to the end. */
  lemma StepAndGoOn(states: seq<Sys>, labels: seq<Label>, l: Label, s1: Sys, i: OpId, q: Quorum)
    returns (states1: seq<Sys>, labels1: seq<Label>)
    requires IsRun(states, labels) && IsMajority(states[|labels|], q) && Step(states[|labels|], l, s1)
    requires !l.Serves? && Concerns(l, i, q) && s1.servers == states[|labels|].servers
    ensures GoesOn(states, labels, states1, labels1, i, q) && IsMajority(states1[|labels1|], q)
    ensures |states1| > 0 && states1[|labels1|] == s1
  {
    ExtendRun(states, labels, l, s1);
    MajorityStays(states[|labels|], s1, q);
    states1, labels1 := states + [s1], labels + [l];
  }

  lemma WriteBackGetsThrough(states: seq<Sys>, labels: seq<Label>, i: OpId, q: Quorum)
    returns (states1: seq<Sys>, labels1: seq<Label>)
    requires IsRun(states, labels) && IsMajority(states[|labels|], q)
    requires i < |states[|labels|].ops| && states[|labels|].ops[i].phase.ReadWriteBack?
    ensures GoesOn(states, labels, states1, labels1, i, q) && HasReturned(states1[|labels1|], i)
  {
    states1, labels1 := HearMajority(states, labels, i, q);
    var s := states1[|labels1|];
    WriteBackDecides(s, i);
    var s1 :| FinishWriteBack(s, s1, i);
    FinishReadEffect(s, s1, i);
    OneMore(states, labels, states1, labels1, FinishesWriteBack(i), s1, i, q);
    states1, labels1 := states1 + [s1], labels1 + [FinishesWriteBack(i)];
  }

  /** With a majority's readings a read returns at once or writes back, and either way
      it returns. */
  lemma FirstRoundGetsThrough(states: seq<Sys>, labels: seq<Label>, i: OpId, q: Quorum)
    returns (states1: seq<Sys>, labels1: seq<Label>)
    requires IsRun(states, labels) && IsMajority(states[|labels|], q)
    requires i < |states[|labels|].ops| && states[|labels|].ops[i].phase.ReadFirst?
    ensures GoesOn(states, labels, states1, labels1, i, q) && HasReturned(states1[|labels1|], i)
  {
    states1, labels1 := HearMajority(states, labels, i, q);
    var s := states1[|labels1|];
    ReadDecides(s, i);
    if s1 :| FinishUnanimous(s, s1, i) {
      FinishReadEffect(s, s1, i);
      OneMore(states, labels, states1, labels1, FinishesUnanimous(i), s1, i, q);
      states1, labels1 := states1 + [s1], labels1 + [FinishesUnanimous(i)];
    } else {
      var s1 :| SendWriteBack(s, s1, i);
      var states2, labels2 := SecondRoundGetsThrough(states1, labels1, s1, i, q);
      AndThen(states, labels, states1, labels1, states2, labels2, i, q);
      states1, labels1 := states2, labels2;
    }
  }

  lemma SecondRoundGetsThrough(states: seq<Sys>, labels: seq<Label>, s1: Sys, i: OpId, q: Quorum)
    returns (states1: seq<Sys>, labels1: seq<Label>)
    requires IsRun(states, labels) && IsMajority(states[|labels|], q) && SendWriteBack(states[|labels|], s1, i)
    ensures GoesOn(states, labels, states1, labels1, i, q) && HasReturned(states1[|labels1|], i)
  {
    SendWriteBackEffect(states[|labels|], s1, i);
    var states2, labels2 := StepAndGoOn(states, labels, SendsWriteBack(i), s1, i, q);
    states1, labels1 := WriteBackGetsThrough(states2, labels2, i, q);
    AndThen(states, labels, states2, labels2, states1, labels1, i, q);
  }

  lemma ReadGetsThrough(states: seq<Sys>, labels: seq<Label>, i: OpId, q: Quorum)
    returns (states1: seq<Sys>, labels1: seq<Label>)
    requires IsRun(states, labels) && IsMajority(states[|labels|], q)
    requires i < |states[|labels|].ops| && states[|labels|].ops[i].phase.ReadBegun?
    ensures GoesOn(states, labels, states1, labels1, i, q) && HasReturned(states1[|labels1|], i)
  {
    var s := states[|labels|];
    RunKeeps(states, labels, |labels|);
    assert OpOk(s, i);
    var p := s.ops[i].phase;
    var s1 := Send(s, i, Get(p.snapshot), s.servers.Keys,
                   ReadFirst(p.snapshot, NextId(s, i), NewReadAcc(p.snapshot)));
    assert SendGet(s, s1, i);
    var states2, labels2 := StepAndGoOn(states, labels, SendsGet(i), s1, i, q);
    states1, labels1 := FirstRoundGetsThrough(states2, labels2, i, q);
    AndThen(states, labels, states2, labels2, states1, labels1, i, q);
  }

  lemma AcksGetThrough(states: seq<Sys>, labels: seq<Label>, i: OpId, q: Quorum)
    returns (states1: seq<Sys>, labels1: seq<Label>)
    requires IsRun(states, labels) && IsMajority(states[|labels|], q)
    requires i < |states[|labels|].ops| && states[|labels|].ops[i].phase.WriteSent?
    ensures GoesOn(states, labels, states1, labels1, i, q) && HasReturned(states1[|labels1|], i)
  {
    states1, labels1 := HearMajority(states, labels, i, q);
    var s := states1[|labels1|];
    AcksDecide(s, i);
    var s1 :| FinishWrite(s, s1, i);
    FinishWriteEffect(s, s1, i);
    OneMore(states, labels, states1, labels1, FinishesWrite(i), s1, i, q);
    states1, labels1 := states1 + [s1], labels1 + [FinishesWrite(i)];
  }

  lemma ReadyWriteGetsThrough(states: seq<Sys>, labels: seq<Label>, i: OpId, q: Quorum)
    returns (states1: seq<Sys>, labels1: seq<Label>)
    requires IsRun(states, labels) && IsMajority(states[|labels|], q)
    requires i < |states[|labels|].ops| && states[|labels|].ops[i].phase.WriteReady?
    ensures GoesOn(states, labels, states1, labels1, i, q) && HasReturned(states1[|labels1|], i)
  {
    var s := states[|labels|];
    RunKeeps(states, labels, |labels|);
    assert OpOk(s, i);
    var p := s.ops[i].phase;
    var s1 := Send(s, i, Write(s.ops[i].kind.value, p.ts, p.snapshot), s.servers.Keys,
                   WriteSent(p.ts, p.snapshot, NextId(s, i), NewAckAcc(p.snapshot)));
    assert SendWrite(s, s1, i);
    var states2, labels2 := StepAndGoOn(states, labels, SendsWrite(i), s1, i, q);
    states1, labels1 := AcksGetThrough(states2, labels2, i, q);
    AndThen(states, labels, states2, labels2, states1, labels1, i, q);
  }

  lemma ChosenWriteGetsThrough(states: seq<Sys>, labels: seq<Label>, i: OpId, q: Quorum)
    returns (states1: seq<Sys>, labels1: seq<Label>)
    requires IsRun(states, labels) && IsMajority(states[|labels|], q)
    requires i < |states[|labels|].ops| && states[|labels|].ops[i].phase.WriteChosen?
    ensures GoesOn(states, labels, states1, labels1, i, q) && HasReturned(states1[|labels1|], i)
  {
    var s := states[|labels|];
    var s1 := SetPhase(s, i, WriteReady(s.ops[i].phase.ts, Times(s.servers)));
    assert Prepare(s, s1, i);
    var states2, labels2 := StepAndGoOn(states, labels, Prepares(i), s1, i, q);
    states1, labels1 := ReadyWriteGetsThrough(states2, labels2, i, q);
    AndThen(states, labels, states2, labels2, states1, labels1, i, q);
  }

  /** With a majority's timestamps a write chooses, and returns in the end. */
  lemma QueryGetsThrough(states: seq<Sys>, labels: seq<Label>, i: OpId, q: Quorum)
    returns (states1: seq<Sys>, labels1: seq<Label>)
    requires IsRun(states, labels) && IsMajority(states[|labels|], q)
    requires i < |states[|labels|].ops| && states[|labels|].ops[i].phase.WriteQuery?
    ensures GoesOn(states, labels, states1, labels1, i, q) && HasReturned(states1[|labels1|], i)
  {
    states1, labels1 := HearMajority(states, labels, i, q);
    var s := states1[|labels1|];
    QueryDecides(s, i);
    var s1 :| Choose(s, s1, i);
    ChooseEffect(s, s1, i);
    var states2, labels2 := StepAndGoOn(states1, labels1, Chooses(i), s1, i, q);
    AndThen(states, labels, states1, labels1, states2, labels2, i, q);
    states1, labels1 := ChosenWriteGetsThrough(states2, labels2, i, q);
    AndThen(states, labels, states2, labels2, states1, labels1, i, q);
  }

  lemma WriteGetsThrough(states: seq<Sys>, labels: seq<Label>, i: OpId, q: Quorum)
    returns (states1: seq<Sys>, labels1: seq<Label>)
    requires IsRun(states, labels) && IsMajority(states[|labels|], q)
    requires i < |states[|labels|].ops| && states[|labels|].ops[i].phase.WriteBegun?
    ensures GoesOn(states, labels, states1, labels1, i, q) && HasReturned(states1[|labels1|], i)
  {
    var s := states[|labels|];
    RunKeeps(states, labels, |labels|);
    assert OpOk(s, i);
    var p := s.ops[i].phase;
    var s1 := Send(s, i, GetTimestamp(p.snapshot), s.servers.Keys,
                   WriteQuery(p.snapshot, NextId(s, i), NewQueryAcc(p.snapshot)));
    assert SendQuery(s, s1, i);
    var states2, labels2 := StepAndGoOn(states, labels, SendsQuery(i), s1, i, q);
    states1, labels1 := QueryGetsThrough(states2, labels2, i, q);
    AndThen(states, labels, states2, labels2, states1, labels1, i, q);
  }

  /** From every reachable state, every operation under way can be brought to return by its
      own steps and those of any majority of the servers. No other operation, and no other
      server, can keep it from returning. */
  lemma EveryOperationCanReturn(states: seq<Sys>, labels: seq<Label>, i: OpId, q: Quorum)
    returns (states1: seq<Sys>, labels1: seq<Label>)
    requires IsRun(states, labels) && IsMajority(states[|labels|], q)
    requires i < |states[|labels|].ops| && !Ended(states[|labels|].ops[i].phase)
    ensures GoesOn(states, labels, states1, labels1, i, q) && HasReturned(states1[|labels1|], i)
  {
    var p := states[|labels|].ops[i].phase;
    if p.ReadBegun? {
      states1, labels1 := ReadGetsThrough(states, labels, i, q);
    } else if p.ReadFirst? {
      states1, labels1 := FirstRoundGetsThrough(states, labels, i, q);
    } else if p.ReadWriteBack? {
      states1, labels1 := WriteBackGetsThrough(states, labels, i, q);
    } else if p.WriteBegun? {
      states1, labels1 := WriteGetsThrough(states, labels, i, q);
    } else if p.WriteQuery? {
      states1, labels1 := QueryGetsThrough(states, labels, i, q);
    } else if p.WriteChosen? {
      states1, labels1 := ChosenWriteGetsThrough(states, labels, i, q);
    } else if p.WriteReady? {
      states1, labels1 := ReadyWriteGetsThrough(states, labels, i, q);
    } else {
      states1, labels1 := AcksGetThrough(states, labels, i, q);
    }
  }

  /** Any client that has logged in can, at any moment, read and write to the end. */
  lemma NewOperationsCanReturn(states: seq<Sys>, labels: seq<Label>, c: ClientId, kind: OpKind, q: Quorum)
    returns (states1: seq<Sys>, labels1: seq<Label>)
    requires IsRun(states, labels) && IsMajority(states[|labels|], q) && c in states[|labels|].requestCtr
    ensures IsRun(states1, labels1) && states <= states1 && labels < labels1
    ensures
      var (i, s1) := (|states[|labels|].ops|, states1[|labels1|]);
      && HasReturned(s1, i) && s1.ops[i].client == c && s1.ops[i].kind == kind
      && (forall n :: |labels| < n < |labels1| ==> Concerns(labels1[n], i, q))
  {
    var s := states[|labels|];
    var i := |s.ops|;
    RunKeeps(states, labels, |labels|);
    var l, s1;
    if kind.ReadOp? {
      l, s1 := BeginsRead(c), Begin(s, Op(c, ReadOp, 0, ReadBegun(Times(s.servers))));
      assert BeginRead(s, s1, c);
    } else {
      l := BeginsWrite(c, kind.value);
      s1 := Begin(s.(writeCtr := s.writeCtr[c := s.writeCtr[c] + 1]),
                  Op(c, kind, s.writeCtr[c], WriteBegun(Times(s.servers))));
      assert BeginWrite(s, s1, c, kind.value);
    }
    ExtendRun(states, labels, l, s1);
    MajorityStays(s, s1, q);
    var states2, labels2 := states + [s1], labels + [l];
    states1, labels1 := EveryOperationCanReturn(states2, labels2, i, q);
    OpsAreForever(states1, labels1, i, |labels2|, |labels1|);
  }

  /** A step of one of the first `n` operations, or of a server in `q`: nobody logs in, and
      nothing begins. */
  predicate Finishing(l: Label, n: nat, q: Quorum) {
    if l.Serves? then l.m.server in q
    else !l.Logins? && !l.BeginsRead? && !l.BeginsWrite? && l.op < n
  }

  predicate Touches(l: Label, i: OpId) {
    !l.Serves? && !l.Logins? && !l.BeginsRead? && !l.BeginsWrite? && l.op == i
  }

  lemma StepStandsAside(s: Sys, l: Label, s1: Sys, i: OpId)
    requires Step(s, l, s1) && !Touches(l, i) && i < |s.ops|
    ensures i < |s1.ops| && s1.ops[i] == s.ops[i]
  {
    if ReadStep(s, l, s1) {
    } else if WriteStep(s, l, s1) {
    } else {
    }
  }

  ghost predicate AsideAt(states: seq<Sys>, labels: seq<Label>, i: OpId, n: nat) {
    n < |labels| && n + 1 < |states| && !Touches(labels[n], i) && i < |states[n].ops| ==>
      i < |states[n + 1].ops| && states[n + 1].ops[i] == states[n].ops[i]
  }

  lemma RunStepStandsAside(states: seq<Sys>, labels: seq<Label>, i: OpId, n: nat)
    requires IsRun(states, labels)
    ensures AsideAt(states, labels, i, n)
  {
    if n < |labels| && !Touches(labels[n], i) && i < |states[n].ops| {
      StepStandsAside(states[n], labels[n], states[n + 1], i);
    }
  }

  lemma {:induction false} AsideAdds(states: seq<Sys>, labels: seq<Label>, m: nat, n: nat, i: OpId)
    requires (forall k :: AsideAt(states, labels, i, k)) && |states| == |labels| + 1
    requires m <= n < |states| && i < |states[m].ops| && forall k :: m <= k < n ==> !Touches(labels[k], i)
    ensures i < |states[n].ops| && states[n].ops[i] == states[m].ops[i]
    decreases n - m
  {
    if m < n {
      AsideAdds(states, labels, m, n - 1, i);
      assert AsideAt(states, labels, i, n - 1);
    }
  }

  /** What no step touches stays as it is. */
  lemma StaysUntouched(states: seq<Sys>, labels: seq<Label>, m: nat, n: nat, i: OpId)
    requires IsRun(states, labels) && m <= n < |states| && i < |states[m].ops|
    requires forall k :: m <= k < n ==> !Touches(labels[k], i)
    ensures i < |states[n].ops| && states[n].ops[i] == states[m].ops[i]
  {
    forall k: nat ensures AsideAt(states, labels, i, k) { RunStepStandsAside(states, labels, i, k); }
    AsideAdds(states, labels, m, n, i);
  }

  /** One after the other, the first `n` operations can all be brought to an end, those
      under way by returning. */
  lemma {:induction false} AllCanReturn(states: seq<Sys>, labels: seq<Label>, q: Quorum, n: nat)
    returns (states1: seq<Sys>, labels1: seq<Label>)
    requires IsRun(states, labels) && IsMajority(states[|labels|], q) && n <= |states[|labels|].ops|
    ensures IsRun(states1, labels1) && states <= states1 && labels <= labels1
    ensures forall k :: |labels| <= k < |labels1| ==> Finishing(labels1[k], n, q)
    ensures n <= |states1[|labels1|].ops| && IsMajority(states1[|labels1|], q)
    ensures forall i: OpId :: i < n ==> HasEnded(states[|labels|], states1[|labels1|], i)
  {
    if n == 0 {
      states1, labels1 := states, labels;
    } else {
      states1, labels1 := AllCanReturn(states, labels, q, n - 1);
      var i, before, t := n - 1, states[|labels|], states1[|labels1|];
      StaysUntouched(states1, labels1, |labels|, |labels1|, i);
      if !Ended(t.ops[i].phase) {
        var states2, labels2 := EveryOperationCanReturn(states1, labels1, i, q);
        var s2 := states2[|labels2|];
        ServersProgress(states2, labels2, |labels1|, |labels2|);
        assert t.servers.Keys == Times(t.servers).Keys && s2.servers.Keys == Times(s2.servers).Keys;
        MajorityStays(t, s2, q);
        forall j: OpId | j < n - 1 ensures HasEnded(before, s2, j) {
          assert HasEnded(before, t, j);
          OpsAreForever(states2, labels2, j, |labels1|, |labels2|);
        }
        forall k | |labels| <= k < |labels2| ensures Finishing(labels2[k], n, q) {
          assert k < |labels1| ==> labels2[k] == labels1[k];
        }
        states1, labels1 := states2, labels2;
      }
    }
  }

  /** The operation has ended, and if it was under way before, it has returned. */
  ghost predicate HasEnded(s: Sys, s1: Sys, i: OpId) {
    && i < |s.ops| && i < |s1.ops| && Ended(s1.ops[i].phase)
    && (if Ended(s.ops[i].phase) then s1.ops[i] == s.ops[i]
        else s1.ops[i].phase.ReadDone? || s1.ops[i].phase.WriteDone?)
  }

  /** No reachable state is stuck: with any majority of the servers everything under way can
      return, and the run that results is linearizable. */
  lemma EveryRunCanBeCompleted(states: seq<Sys>, labels: seq<Label>, q: Quorum)
    returns (states1: seq<Sys>, labels1: seq<Label>)
    requires IsRun(states, labels) && IsMajority(states[|labels|], q)
    ensures IsRun(states1, labels1) && states <= states1 && labels <= labels1
    ensures
      var (s, s1) := (states[|labels|], states1[|labels1|]);
      && (forall k :: |labels| <= k < |labels1| ==> Finishing(labels1[k], |s.ops|, q))
      && (forall i: OpId :: i < |s.ops| ==> HasEnded(s, s1, i))
      && (exists log :: IsLinearization(s1.history, log) && InTimestampOrder(log))
  {
    states1, labels1 := AllCanReturn(states, labels, q, |states[|labels|].ops|);
    EveryRunIsLinearizable(states1, labels1);
  }
}
