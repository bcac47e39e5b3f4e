/** A wait as steps of the protocol: the replies that it counts are steps of the
    operation that waits, and when it has enough, the step that was waited for is
    enabled. */
module WaitSteps {
  import opened Timestamps
  import opened Quorums
  import opened ReadPhases
  import opened WritePhases
  import opened Protocol
  import opened ProtocolInv
  import opened StepEffects
  import opened Accumulators
  import opened Channels
  import opened WaitFor
  import opened GivingUp

  // -------------------------------------------- replies one after the other

  /** The operation takes one reply. */
  function Absorb(p: Phase, server: ServerId, body: Response): Phase {
    match (p, body)
    case (ReadFirst(view, id, acc), GetResponse(r)) => ReadFirst(view, id, InsertGet(acc, server, r))
    case (ReadWriteBack(view, id, acc), WriteResponse(lb)) => ReadWriteBack(view, id, InsertWriteBack(acc, server, lb))
    case (WriteQuery(view, id, acc), TimestampResponse(ts)) => WriteQuery(view, id, InsertTimestamp(acc, server, ts))
    case (WriteSent(ts, view, id, acc), WriteResponse(lb)) => WriteSent(ts, view, id, InsertAck(acc, server, lb))
    case _ => p
  }

  function AbsorbAll(p: Phase, accum: seq<(ChannelId, Msg)>): Phase {
    if accum == [] then p
    else Absorb(AbsorbAll(p, accum[..|accum| - 1]), accum[|accum| - 1].0, accum[|accum| - 1].1.body)
  }

  /** The phases in which an operation waits for replies. */
  predicate Waits(p: Phase) {
    p.ReadFirst? || p.ReadWriteBack? || p.WriteQuery? || p.WriteSent?
  }

  predicate Suits(p: Phase, body: Response) {
    || (p.ReadFirst? && body.GetResponse?)
    || (p.ReadWriteBack? && body.WriteResponse?)
    || (p.WriteQuery? && body.TimestampResponse?)
    || (p.WriteSent? && body.WriteResponse?)
  }

  function LabelFor(p: Phase, i: OpId, m: Message): Label
    requires Waits(p)
  {
    if p.ReadFirst? then TakesReading(i, m)
    else if p.ReadWriteBack? then TakesWriteBack(i, m)
    else if p.WriteQuery? then TakesTimestamp(i, m)
    else TakesAck(i, m)
  }

  lemma {:induction false} AbsorbAllKeepsPhase(p: Phase, accum: seq<(ChannelId, Msg)>)
    requires Waits(p)
    ensures Waits(AbsorbAll(p, accum)) && AbsorbAll(p, accum).id == p.id
    ensures forall body :: Suits(AbsorbAll(p, accum), body) <==> Suits(p, body)
  {
    if accum != [] {
      AbsorbAllKeepsPhase(p, accum[..|accum| - 1]);
    }
  }

  /** The protocol's invariant makes every reply under the awaited id suit the phase. */
  lemma DeliveredSuits(s: Sys, i: OpId, server: ServerId, body: Response)
    requires SysInv(s) && i < |s.ops| && Waits(s.ops[i].phase)
    requires ToClient(s.ops[i].client, server, s.ops[i].phase.id, body) in s.net
    ensures Suits(s.ops[i].phase, body)
  {
    assert OpOk(s, i) && MessageOk(s, ToClient(s.ops[i].client, server, s.ops[i].phase.id, body));
  }

  lemma AbsorbIsStep(s: Sys, s1: Sys, i: OpId, server: ServerId, body: Response)
    requires i < |s.ops| && Waits(s.ops[i].phase) && Suits(s.ops[i].phase, body)
    requires ToClient(s.ops[i].client, server, s.ops[i].phase.id, body) in s.net
    requires s1 == SetPhase(s, i, Absorb(s.ops[i].phase, server, body))
    ensures
      var m := ToClient(s.ops[i].client, server, s.ops[i].phase.id, body);
      var l := LabelFor(s.ops[i].phase, i, m);
      Step(s, l, s1)
  {
    var p := s.ops[i].phase;
    var m := ToClient(s.ops[i].client, server, p.id, body);
    if p.ReadFirst? {
      assert TakeReading(s, s1, i, m);
    } else if p.ReadWriteBack? {
      assert TakeWriteBack(s, s1, i, m);
    } else if p.WriteQuery? {
      assert TakeTimestamp(s, s1, i, m);
    } else {
      assert TakeAck(s, s1, i, m);
    }
  }

  /** The counted replies were delivered to the operation that waits. */
  ghost predicate AllDelivered(s: Sys, i: OpId, accum: seq<(ChannelId, Msg)>)
    requires i < |s.ops| && Waits(s.ops[i].phase)
  {
    forall k :: 0 <= k < |accum| ==> ToClient(s.ops[i].client, accum[k].0, s.ops[i].phase.id, accum[k].1.body) in s.net
  }

  lemma ExtendRun(states: seq<Sys>, labels: seq<Label>, l: Label, s1: Sys)
    requires IsRun(states, labels) && Step(states[|labels|], l, s1)
    ensures IsRun(states + [s1], labels + [l])
  {
  }

  /** Taking the counted replies, in the order they were counted, continues the run. */
  lemma {:induction false} CountedRepliesAreSteps(states: seq<Sys>, labels: seq<Label>, i: OpId,
                                                  accum: seq<(ChannelId, Msg)>)
    returns (states1: seq<Sys>, labels1: seq<Label>)
    requires IsRun(states, labels)
    requires
      var s := states[|labels|];
      i < |s.ops| && Waits(s.ops[i].phase) && AllDelivered(s, i, accum)
    ensures IsRun(states1, labels1) && states <= states1 && labels <= labels1
    ensures states1[|labels1|] == SetPhase(states[|labels|], i, AbsorbAll(states[|labels|].ops[i].phase, accum))
  {
    var s := states[|labels|];
    var p := s.ops[i].phase;
    if accum == [] {
      states1, labels1 := states, labels;
      assert s.ops[i := s.ops[i].(phase := p)] == s.ops;
    } else {
      var n := |accum| - 1;
      assert AllDelivered(s, i, accum[..n]);
      states1, labels1 := CountedRepliesAreSteps(states, labels, i, accum[..n]);
      var q := AbsorbAll(p, accum[..n]);
      var (server, m) := accum[n];
      var t := states1[|labels1|];
      RunKeeps(states, labels, |labels|);
      DeliveredSuits(s, i, server, m.body);
      AbsorbAllKeepsPhase(p, accum[..n]);
      var t1 := SetPhase(t, i, Absorb(q, server, m.body));
      var l := LabelFor(q, i, ToClient(s.ops[i].client, server, p.id, m.body));
      AbsorbIsStep(t, t1, i, server, m.body);
      ExtendRun(states1, labels1, l, t1);
      states1, labels1 := states1 + [t1], labels1 + [l];
    }
  }

  // ------------------------------------------------ what the replies make up

  lemma {:induction false} HandledAdds(accum: seq<(ChannelId, Msg)>)
    requires accum != []
    ensures Handled(accum) == Handled(accum[..|accum| - 1]) + {accum[|accum| - 1].0}
  {
    var n := |accum| - 1;
    forall x | x in Handled(accum[..n]) ensures x in Handled(accum) {
      var k :| 0 <= k < n && accum[..n][k].0 == x;
      assert accum[k].0 == x;
    }
    forall x | x in Handled(accum) ensures x in Handled(accum[..n]) + {accum[n].0} {
      var k :| 0 <= k < |accum| && accum[k].0 == x;
      assert k < n ==> accum[..n][k].0 == x;
    }
  }

  /** The replies of a first read round as the read accumulator knows them. */
  function Readings(accum: seq<(ChannelId, Msg)>): (r: seq<(ServerId, Reading)>)
    requires forall k :: 0 <= k < |accum| ==> accum[k].1.body.GetResponse?
    ensures |r| == |accum|
  {
    if accum == [] then []
    else Readings(accum[..|accum| - 1]) + [(accum[|accum| - 1].0, accum[|accum| - 1].1.body.reading)]
  }

  function TimestampsOf(accum: seq<(ChannelId, Msg)>): (r: seq<(ServerId, Timestamp)>)
    requires forall k :: 0 <= k < |accum| ==> accum[k].1.body.TimestampResponse?
    ensures |r| == |accum|
  {
    if accum == [] then []
    else TimestampsOf(accum[..|accum| - 1]) + [(accum[|accum| - 1].0, accum[|accum| - 1].1.body.ts)]
  }

  function AcksOf(accum: seq<(ChannelId, Msg)>): (r: seq<(ServerId, Timestamp)>)
    requires forall k :: 0 <= k < |accum| ==> accum[k].1.body.WriteResponse?
    ensures |r| == |accum|
  {
    if accum == [] then []
    else AcksOf(accum[..|accum| - 1]) + [(accum[|accum| - 1].0, accum[|accum| - 1].1.body.lb)]
  }

  lemma {:induction false} ReadingsAreFolded(view: View, id: RequestId, accum: seq<(ChannelId, Msg)>)
    requires forall k :: 0 <= k < |accum| ==> accum[k].1.body.GetResponse?
    ensures AbsorbAll(ReadFirst(view, id, NewReadAcc(view)), accum) ==
        ReadFirst(view, id, FoldGets(view, Readings(accum)))
    ensures FoldGets(view, Readings(accum)).getReplies == Handled(accum)
  {
    if accum != [] {
      ReadingsAreFolded(view, id, accum[..|accum| - 1]);
      HandledAdds(accum);
      assert Readings(accum)[..|accum| - 1] == Readings(accum[..|accum| - 1]);
    }
  }

  lemma {:induction false} TimestampsAreFolded(view: View, id: RequestId, accum: seq<(ChannelId, Msg)>)
    requires forall k :: 0 <= k < |accum| ==> accum[k].1.body.TimestampResponse?
    ensures AbsorbAll(WriteQuery(view, id, NewQueryAcc(view)), accum) ==
        WriteQuery(view, id, FoldTimestamps(view, TimestampsOf(accum)))
    ensures FoldTimestamps(view, TimestampsOf(accum)).replies == Handled(accum)
  {
    if accum != [] {
      TimestampsAreFolded(view, id, accum[..|accum| - 1]);
      HandledAdds(accum);
      assert TimestampsOf(accum)[..|accum| - 1] == TimestampsOf(accum[..|accum| - 1]);
    }
  }

  lemma {:induction false} AcksAreFolded(ts: Timestamp, view: View, id: RequestId, accum: seq<(ChannelId, Msg)>)
    requires forall k :: 0 <= k < |accum| ==> accum[k].1.body.WriteResponse?
    ensures AbsorbAll(WriteSent(ts, view, id, NewAckAcc(view)), accum) ==
        WriteSent(ts, view, id, FoldAcks(view, AcksOf(accum)))
    ensures FoldAcks(view, AcksOf(accum)).replies == Handled(accum)
  {
    if accum != [] {
      AcksAreFolded(ts, view, id, accum[..|accum| - 1]);
      HandledAdds(accum);
      assert AcksOf(accum)[..|accum| - 1] == AcksOf(accum[..|accum| - 1]);
    }
  }

  lemma WriteBackAdds(a: ReadAcc, server: ServerId, lb: Timestamp)
    requires a.wbReplies <= a.agreeWithMax
    ensures InsertWriteBack(a, server, lb).wbReplies == a.wbReplies + {server}
    ensures InsertWriteBack(a, server, lb).agreeWithMax == a.agreeWithMax + {server}
    ensures InsertWriteBack(a, server, lb).maxResp == a.maxResp
  {
  }

  lemma {:induction false} WriteBacksAreFolded(view: View, id: RequestId, acc: ReadAcc, accum: seq<(ChannelId, Msg)>)
    requires (forall k :: 0 <= k < |accum| ==> accum[k].1.body.WriteResponse?) && acc.wbReplies == {}
    ensures AbsorbAll(ReadWriteBack(view, id, acc), accum) ==
        ReadWriteBack(view, id, FoldWriteBacks(acc, AcksOf(accum)))
    ensures FoldWriteBacks(acc, AcksOf(accum)).wbReplies == Handled(accum)
    ensures FoldWriteBacks(acc, AcksOf(accum)).agreeWithMax == acc.agreeWithMax + Handled(accum)
    ensures FoldWriteBacks(acc, AcksOf(accum)).maxResp == acc.maxResp
  {
    if accum != [] {
      WriteBacksAreFolded(view, id, acc, accum[..|accum| - 1]);
      var b := FoldWriteBacks(acc, AcksOf(accum[..|accum| - 1]));
      WriteBackAdds(b, accum[|accum| - 1].0, accum[|accum| - 1].1.body.lb);
      HandledAdds(accum);
      assert AcksOf(accum)[..|accum| - 1] == AcksOf(accum[..|accum| - 1]);
    }
  }

  // ------------------------------------------------------ enough is enough

  /** An operation that has sent its request and has taken no reply yet. */
  predicate JustSent(p: Phase) {
    match p
    case ReadFirst(view, _, acc) => acc == NewReadAcc(view)
    case ReadWriteBack(_, _, acc) => acc.wbReplies == {} && acc.maxResp.Some?
    case WriteQuery(view, _, acc) => acc == NewQueryAcc(view)
    case WriteSent(_, view, _, acc) => acc == NewAckAcc(view)
    case _ => false
  }

  /** The servers that count before any reply: those known to agree, when writing back. */
  function Known(p: Phase): set<ServerId> {
    if p.ReadWriteBack? then p.reading.agreeWithMax else {}
  }

  /** What the operation waits for. */
  predicate Ready(p: Phase, majority: nat) {
    match p
    case ReadFirst(_, _, acc) => acc.maxResp.Some? && |acc.getReplies| >= majority
    case ReadWriteBack(_, _, acc) => acc.maxResp.Some? && |acc.agreeWithMax| >= majority
    case WriteQuery(_, _, acc) => acc.maxResp.Some? && |acc.replies| >= majority
    case WriteSent(_, _, _, acc) => |acc.replies| >= majority
    case _ => false
  }

  /** Then the next step is enabled: a read with its majority returns at once if most
      servers agree, and otherwise writes back; or it has finished writing back; a write
      may choose, or has finished. */
  lemma ReadyEnables(s: Sys, i: OpId)
    requires i < |s.ops| && Ready(s.ops[i].phase, Majority(s))
    ensures s.ops[i].phase.ReadFirst? ==>
              var agreed := Most(s, |s.ops[i].phase.reading.agreeWithMax|);
              && HasReadings(s, i)
              && ((exists s1 :: FinishUnanimous(s, s1, i)) <==> agreed)
              && ((exists s1 :: SendWriteBack(s, s1, i)) <==> CanSend(s, i) && !agreed)
    ensures s.ops[i].phase.ReadWriteBack? ==> exists s1 :: FinishWriteBack(s, s1, i)
    ensures s.ops[i].phase.WriteQuery? ==> exists s1 :: Choose(s, s1, i)
    ensures s.ops[i].phase.WriteSent? ==> exists s1 :: FinishWrite(s, s1, i)
  {
    var p := s.ops[i].phase;
    if p.ReadFirst? {
      ReadDecides(s, i);
    } else if p.ReadWriteBack? {
      var r := p.reading.maxResp.value;
      assert FinishWriteBack(s, End(s, i, ReadDone(r.value, r.ts), Return(i, ReadResult(r.value, r.ts))), i);
    } else if p.WriteQuery? {
      assert Choose(s, SetPhase(s, i, WriteChosen(NextTimestamp(p.query.maxResp.value, s.ops[i].client,
          s.ops[i].ctr))), i);
    } else if p.WriteSent? {
      assert FinishWrite(s, End(s, i, WriteDone(p.ts), Return(i, WriteResult)), i);
    }
  }

  lemma EnoughIsReady(p: Phase, accum: seq<(ChannelId, Msg)>, majority: nat)
    requires JustSent(p) && majority > 0 && |Known(p) + Handled(accum)| >= majority
    requires forall k :: 0 <= k < |accum| ==> Suits(p, accum[k].1.body)
    ensures Ready(AbsorbAll(p, accum), majority)
  {
    match p
    case ReadFirst(view, id, acc) =>
      ReadingsAreFolded(view, id, accum);
      assert {} + Handled(accum) == Handled(accum) && accum != [];
      GetsAreCounted(view, Readings(accum));
    case ReadWriteBack(view, id, acc) => WriteBacksAreFolded(view, id, acc, accum);
    case WriteQuery(view, id, acc) =>
      TimestampsAreFolded(view, id, accum);
      assert {} + Handled(accum) == Handled(accum) && accum != [];
      ChosenIsAboveEveryReply(view, TimestampsOf(accum), 0, 0);
    case WriteSent(ts, view, id, acc) =>
      AcksAreFolded(ts, view, id, accum);
      assert {} + Handled(accum) == Handled(accum);
  }

  /** When a wait on channels that carry what the network delivers to the client has
      enough, the run goes on, by taking exactly the replies counted, to a state in which
      the step waited for is enabled. */
  lemma EnoughEnablesTheNextStep(states: seq<Sys>, labels: seq<Label>, i: OpId, ids: seq<ChannelId>, cs: seq<Chan>,
                                 limit: nat)
    returns (states1: seq<Sys>, labels1: seq<Label>)
    requires IsRun(states, labels) && |ids| == |cs|
    requires i < |states[|labels|].ops| && JustSent(states[|labels|].ops[i].phase)
    requires forall k :: 0 <= k < |ids| ==>
        ChannelOk(DeliveredTo(states[|labels|], states[|labels|].ops[i].client), ids[k], cs[k])
    requires
      var s := states[|labels|];
      var p := s.ops[i].phase;
      VerdictBy(ids, cs, p.id, Known(p), Majority(s), limit).Enough?
    ensures IsRun(states1, labels1) && states <= states1 && labels <= labels1
    ensures
      var s := states[|labels|];
      var p := s.ops[i].phase;
      var heard := VerdictBy(ids, cs, p.id, Known(p), Majority(s), limit).heard;
      && states1[|labels1|] == SetPhase(s, i, AbsorbAll(p, heard.accum))
      && Ready(AbsorbAll(p, heard.accum), Majority(s))
  {
    var s := states[|labels|];
    var p := s.ops[i].phase;
    var heard := VerdictBy(ids, cs, p.id, Known(p), Majority(s), limit).heard;
    CountedAreDelivered(s, s.ops[i].client, ids, cs, p.id, QuorumOf(Known(p), Majority(s)), limit);
    RunKeeps(states, labels, |labels|);
    forall k | 0 <= k < |heard.accum|
      ensures ToClient(s.ops[i].client, heard.accum[k].0, p.id, heard.accum[k].1.body) in s.net
      ensures Suits(p, heard.accum[k].1.body)
    {
      assert DeliveredAt(s, s.ops[i].client, p.id, heard, k);
      DeliveredSuits(s, i, heard.accum[k].0, heard.accum[k].1.body);
    }
    EnoughIsReady(p, heard.accum, Majority(s));
    states1, labels1 := CountedRepliesAreSteps(states, labels, i, heard.accum);
  }
}
