/** What every step of the protocol keeps true of the servers, the network and the
    operations' own bookkeeping: views are lower bounds of the servers, request ids
    are issued once, and every reply answers the request issued under its id. */
module ProtocolInv {
  import opened Timestamps
  import opened Quorums
  import opened ReadPhases
  import opened WritePhases
  import opened Protocol
  import opened StepEffects

  // ------------------------------------------------------------- invariant

  ghost predicate CountersOk(s: Sys) {
    && s.writeCtr.Keys == s.requestCtr.Keys + {0}
    && 0 !in s.requestCtr
    && s.writeCtr[0] == 1
  }

  ghost predicate IssuedOk(s: Sys, k: RequestKey) {
    k in s.issued ==>
      && k.0 in s.requestCtr
      && k.1 < s.requestCtr[k.0]
      && Leq(s.issued[k].servers, Times(s.servers))
  }

  /** A response of the request's kind, between the client's snapshot and the
      server's present timestamp; an acknowledgement covers its request. */
  ghost predicate AnswersTruly(request: Request, server: ServerId, response: Response, now: View) {
    && server in request.servers && server in now
    && match (request, response)
       case (Get(view), GetResponse(r)) => Le(view[server], r.ts) && Le(r.ts, now[server])
       case (GetTimestamp(view), TimestampResponse(ts)) => Le(view[server], ts) && Le(ts, now[server])
       case (Write(_, ts, view), WriteResponse(lb)) => Le(ts, lb) && Le(lb, now[server])
       case _ => false
  }

  ghost predicate MessageOk(s: Sys, m: Message) {
    m in s.net ==>
      && (m.client, m.id) in s.issued
      && (m.ToServer? ==> m.server in s.servers && s.issued[(m.client, m.id)] == m.request)
      && (m.ToClient? ==> AnswersTruly(s.issued[(m.client, m.id)], m.server, m.response, Times(s.servers)))
  }

  /** The request under `id` is `request`, and was sent with a snapshot still below the servers. */
  ghost predicate Waiting(s: Sys, client: ClientId, id: RequestId, request: Request) {
    (client, id) in s.issued && s.issued[(client, id)] == request
  }

  /** The timestamp a write chose names its client and that client's counter. */
  predicate Signed(op: Op, ts: Timestamp) {
    ts.clientId == op.client && ts.clientCtr == op.ctr
  }

  ghost predicate PhaseOk(s: Sys, op: Op) {
    var now := Times(s.servers);
    match op.phase
    case ReadBegun(snapshot) => op.kind.ReadOp? && Leq(snapshot, now)
    case ReadFirst(snapshot, id, acc) =>
      && op.kind.ReadOp? && Leq(snapshot, now) && Waiting(s, op.client, id, Get(snapshot))
      && ReadAccInv(acc, snapshot) && acc.wbReplies == {} && Leq(acc.servers, now)
    case ReadWriteBack(snapshot, id, acc) =>
      && op.kind.ReadOp? && Leq(snapshot, now) && acc.maxResp.Some?
      && Waiting(s, op.client, id, Write(acc.maxResp.value.value, acc.maxResp.value.ts, snapshot))
      && ReadAccInv(acc, snapshot) && Leq(acc.servers, now)
    case ReadDone(_, _) => op.kind.ReadOp?
    case ReadFailed(_) => op.kind.ReadOp?
    case WriteBegun(snapshot) => op.kind.WriteOp? && Leq(snapshot, now)
    case WriteQuery(snapshot, id, acc) =>
      && op.kind.WriteOp? && Leq(snapshot, now) && Waiting(s, op.client, id, GetTimestamp(snapshot))
      && QueryAccInv(acc, snapshot) && Leq(acc.servers, now)
    case WriteChosen(ts) => op.kind.WriteOp? && Signed(op, ts)
    case WriteReady(ts, snapshot) => op.kind.WriteOp? && Signed(op, ts) && Leq(snapshot, now)
    case WriteSent(ts, snapshot, id, acc) =>
      && op.kind.WriteOp? && Signed(op, ts) && Leq(snapshot, now)
      && Waiting(s, op.client, id, Write(op.kind.value, ts, snapshot))
      && AckAccInv(acc, snapshot, ts) && Leq(acc.servers, now)
    case WriteDone(ts) => op.kind.WriteOp? && Signed(op, ts)
    case WriteFailed(ts) => op.kind.WriteOp? && (ts.Some? ==> Signed(op, ts.value))
  }

  ghost predicate OpOk(s: Sys, i: nat) {
    i < |s.ops| ==>
      && PhaseOk(s, s.ops[i])
      && s.ops[i].client in s.requestCtr
      && s.ops[i].client in s.writeCtr
      && (s.ops[i].kind.WriteOp? ==> s.ops[i].ctr < s.writeCtr[s.ops[i].client])
  }

  /** A client never uses a write counter twice, whatever became of the first write. */
  ghost predicate CountersUnique(s: Sys) {
    forall i, j :: 0 <= i < j < |s.ops| ==>
      s.ops[i].kind.WriteOp? && s.ops[j].kind.WriteOp? && s.ops[i].client == s.ops[j].client ==>
        s.ops[i].ctr < s.ops[j].ctr
  }

  ghost predicate SysInv(s: Sys) {
    && s.servers != map[]
    && CountersOk(s)
    && CountersUnique(s)
    && (forall k :: IssuedOk(s, k))
    && (forall m :: MessageOk(s, m))
    && (forall i :: OpOk(s, i))
  }

  // ----------------------------------------------------------- progress

  /** Nothing the invariant relies on is ever taken back by a step. */
  ghost predicate Grows(s: Sys, s1: Sys) {
    && Leq(Times(s.servers), Times(s1.servers))
    && (forall k :: k in s.issued ==> k in s1.issued && s1.issued[k] == s.issued[k])
    && (forall c :: c in s.requestCtr ==> c in s1.requestCtr && s.requestCtr[c] <= s1.requestCtr[c])
    && (forall c :: c in s.writeCtr ==> c in s1.writeCtr && s.writeCtr[c] <= s1.writeCtr[c])
    && s.net <= s1.net
    && |s.ops| <= |s1.ops|
  }

  lemma OpOkStays(s: Sys, s1: Sys, i: nat)
    requires Grows(s, s1) && OpOk(s, i) && i < |s.ops| && s1.ops[i] == s.ops[i]
    ensures OpOk(s1, i)
  {
    var p := s.ops[i].phase;
    var now, now1 := Times(s.servers), Times(s1.servers);
    if p.ReadBegun? || p.ReadFirst? || p.ReadWriteBack? || p.WriteBegun? || p.WriteQuery? || p.WriteReady?
        || p.WriteSent? {
      LeqTransitive(p.snapshot, now, now1);
    }
    if p.ReadFirst? || p.ReadWriteBack? {
      LeqTransitive(p.reading.servers, now, now1);
    } else if p.WriteQuery? {
      LeqTransitive(p.query.servers, now, now1);
    } else if p.WriteSent? {
      LeqTransitive(p.acks.servers, now, now1);
    }
  }

  lemma IssuedStays(s: Sys, s1: Sys, k: RequestKey)
    requires Grows(s, s1) && IssuedOk(s, k) && k in s.issued
    ensures IssuedOk(s1, k)
  {
    LeqTransitive(s.issued[k].servers, Times(s.servers), Times(s1.servers));
  }

  lemma MessageStays(s: Sys, s1: Sys, m: Message)
    requires Grows(s, s1) && MessageOk(s, m) && m in s.net
    ensures MessageOk(s1, m)
  {
    assert (m.client, m.id) in s1.issued;
    if m.ToClient? {
      var now, now1 := Times(s.servers), Times(s1.servers);
      assert Le(now[m.server], now1[m.server]);
    } else {
      assert m.server in Times(s.servers);
    }
  }

  /** Only what is new needs checking. */
  lemma KeepInv(s: Sys, s1: Sys)
    requires SysInv(s) && Grows(s, s1) && CountersOk(s1) && CountersUnique(s1)
    requires forall k :: k in s1.issued && k !in s.issued ==> IssuedOk(s1, k)
    requires forall m :: m in s1.net && m !in s.net ==> MessageOk(s1, m)
    requires forall i :: 0 <= i < |s1.ops| && !(i < |s.ops| && s1.ops[i] == s.ops[i]) ==> OpOk(s1, i)
    ensures SysInv(s1)
  {
    assert Times(s1.servers).Keys == s1.servers.Keys && Times(s.servers).Keys == s.servers.Keys;
    forall k ensures IssuedOk(s1, k) {
      assert IssuedOk(s, k);
      if k in s.issued { IssuedStays(s, s1, k); }
    }
    forall m ensures MessageOk(s1, m) {
      assert MessageOk(s, m);
      if m in s.net { MessageStays(s, s1, m); }
    }
    forall i: nat ensures OpOk(s1, i) {
      assert OpOk(s, i);
      if i < |s.ops| && s1.ops[i] == s.ops[i] { OpOkStays(s, s1, i); }
    }
  }

  // ------------------------------------------------- the shapes of a step

  lemma InitKeeps(s: Sys)
    requires Init(s)
    ensures SysInv(s)
  {
    forall k ensures IssuedOk(s, k) {}
    forall m ensures MessageOk(s, m) {}
    forall i ensures OpOk(s, i) {}
  }

  /** An operation moves to a new phase; `history` may grow. */
  lemma SetPhaseKeeps(s: Sys, s1: Sys, i: OpId, phase: Phase)
    requires SysInv(s) && i < |s.ops|
    requires s1 == SetPhase(s, i, phase).(history := s1.history)
    requires PhaseOk(s, s.ops[i].(phase := phase))
    ensures Grows(s, s1) && SysInv(s1)
  {
    assert OpOk(s, i) && OpOk(s1, i);
    KeepInv(s, s1);
  }

  /** A request that is sent is on record, and goes to servers there are. */
  lemma SentAreOk(s: Sys, i: OpId, request: Request, targets: set<ServerId>, phase: Phase, m: Message)
    requires CanSend(s, i) && targets <= s.servers.Keys
    requires m in Send(s, i, request, targets, phase).net && m !in s.net
    ensures MessageOk(Send(s, i, request, targets, phase), m)
  {
  }

  lemma SendGrows(s: Sys, i: OpId, request: Request, targets: set<ServerId>, phase: Phase)
    requires CanSend(s, i) && (s.ops[i].client, NextId(s, i)) !in s.issued
    ensures Grows(s, Send(s, i, request, targets, phase))
  {
  }

  lemma SenderOk(s: Sys, i: OpId, request: Request, targets: set<ServerId>, phase: Phase)
    requires CanSend(s, i) && OpOk(s, i)
    requires PhaseOk(Send(s, i, request, targets, phase), s.ops[i].(phase := phase))
    ensures OpOk(Send(s, i, request, targets, phase), i)
  {
  }

  lemma SendKeeps(s: Sys, i: OpId, request: Request, targets: set<ServerId>, phase: Phase)
    requires SysInv(s) && CanSend(s, i)
    requires targets <= s.servers.Keys && Leq(request.servers, Times(s.servers))
    requires PhaseOk(Send(s, i, request, targets, phase), s.ops[i].(phase := phase))
    ensures Grows(s, Send(s, i, request, targets, phase)) && SysInv(Send(s, i, request, targets, phase))
  {
    var s1 := Send(s, i, request, targets, phase);
    var key := (s.ops[i].client, NextId(s, i));
    assert key !in s.issued by { assert IssuedOk(s, key); }
    SendGrows(s, i, request, targets, phase);
    assert OpOk(s, i);
    SenderOk(s, i, request, targets, phase);
    assert IssuedOk(s1, key);
    forall m | m in s1.net && m !in s.net ensures MessageOk(s1, m) {
      SentAreOk(s, i, request, targets, phase, m);
    }
    KeepInv(s, s1);
  }

  lemma BeginKeeps(s: Sys, s0: Sys, op: Op)
    requires SysInv(s) && op.client in s.requestCtr
    requires s0 == s.(writeCtr := s0.writeCtr) && op.client in s.writeCtr
    requires s0.writeCtr == if op.kind.WriteOp? then s.writeCtr[op.client := op.ctr + 1] else s.writeCtr
    requires op.kind.WriteOp? ==> op.ctr == s.writeCtr[op.client]
    requires PhaseOk(s, op)
    ensures Grows(s, Begin(s0, op)) && SysInv(Begin(s0, op))
  {
    var s1 := Begin(s0, op);
    assert OpOk(s1, |s.ops|);
    if op.kind.WriteOp? {
      forall i | 0 <= i < |s.ops| && s.ops[i].kind.WriteOp? && s.ops[i].client == op.client
          ensures s.ops[i].ctr < op.ctr {
        assert OpOk(s, i);
      }
    }
    KeepInv(s, s1);
  }

  lemma ServeKeeps(s: Sys, s1: Sys, m: Message)
    requires SysInv(s) && Serve(s, s1, m)
    ensures Grows(s, s1) && SysInv(s1) && ServeDoes(s, s1, m)
  {
    ServeEffect(s, s1, m);
    var (r, response) := Handle(s.servers[m.server], m.request);
    var now, now1 := Times(s.servers), Times(s1.servers);
    var reply := ToClient(m.client, m.server, m.id, response);
    assert MessageOk(s, m) && IssuedOk(s, (m.client, m.id));
    assert now1 == now[m.server := r.ts];
    assert Le(m.request.servers[m.server], now[m.server]);
    assert MessageOk(s1, reply);
    KeepInv(s, s1);
  }

  lemma LoginKeeps(s: Sys, s1: Sys, c: ClientId)
    requires SysInv(s) && Login(s, s1, c)
    ensures Grows(s, s1) && SysInv(s1)
  {
    assert forall k :: k in s.issued ==> IssuedOk(s, k);
    KeepInv(s, s1);
  }

  // ------------------------------------------------------- reads

  lemma BeginReadKeeps(s: Sys, s1: Sys, c: ClientId)
    requires SysInv(s) && BeginRead(s, s1, c)
    ensures Grows(s, s1) && SysInv(s1)
  {
    BeginKeeps(s, s, Op(c, ReadOp, 0, ReadBegun(Times(s.servers))));
  }

  lemma SendGetKeeps(s: Sys, s1: Sys, i: OpId)
    requires SysInv(s) && SendGet(s, s1, i)
    ensures Grows(s, s1) && SysInv(s1)
  {
    var p := s.ops[i].phase;
    assert OpOk(s, i);
    NewReadAccInv(p.snapshot);
    SendKeeps(s, i, Get(p.snapshot), s.servers.Keys, ReadFirst(p.snapshot, NextId(s, i), NewReadAcc(p.snapshot)));
  }

  /** A reply to a get request is a get response, between the snapshot and the server. */
  lemma ReadingFits(s: Sys, m: Message, snapshot: View)
    requires SysInv(s) && m in s.net && m.ToClient? && Waiting(s, m.client, m.id, Get(snapshot))
    ensures m.response.GetResponse? && m.server in snapshot && m.server in s.servers
    ensures Le(snapshot[m.server], m.response.reading.ts) && Le(m.response.reading.ts, s.servers[m.server].ts)
  {
    assert MessageOk(s, m);
  }

  /** Only the entry of the replying server changes. */
  lemma ViewStaysBelow(v: View, v1: View, k: ServerId, now: View)
    requires Leq(v, now) && v1.Keys == v.Keys && (k in v ==> Le(v1[k], now[k]))
    requires forall j :: j in v && j != k ==> v1[j] == v[j]
    ensures Leq(v1, now)
  {
    forall j | j in v1 ensures Le(v1[j], now[j]) { assert Le(v[j], now[j]); }
  }

  lemma TakeReadingKeeps(s: Sys, s1: Sys, i: OpId, m: Message)
    requires SysInv(s) && TakeReading(s, s1, i, m)
    ensures Grows(s, s1) && SysInv(s1)
  {
    var p := s.ops[i].phase;
    assert OpOk(s, i);
    ReadingFits(s, m, p.snapshot);
    InsertGetKeeps(p.reading, p.snapshot, m.server, m.response.reading);
    ViewStaysBelow(p.reading.servers, s1.ops[i].phase.reading.servers, m.server, Times(s.servers));
    SetPhaseKeeps(s, s1, i, s1.ops[i].phase);
  }

  lemma SendWriteBackKeeps(s: Sys, s1: Sys, i: OpId)
    requires SysInv(s) && SendWriteBack(s, s1, i)
    ensures Grows(s, s1) && SysInv(s1)
  {
    var p := s.ops[i].phase;
    var r := p.reading.maxResp.value;
    assert OpOk(s, i);
    SendKeeps(s, i, Write(r.value, r.ts, p.snapshot), s.servers.Keys - p.reading.agreeWithMax,
              ReadWriteBack(p.snapshot, NextId(s, i), p.reading));
  }

  lemma TakeWriteBackKeeps(s: Sys, s1: Sys, i: OpId, m: Message)
    requires SysInv(s) && TakeWriteBack(s, s1, i, m)
    ensures Grows(s, s1) && SysInv(s1)
  {
    var p := s.ops[i].phase;
    assert OpOk(s, i) && MessageOk(s, m);
    InsertWriteBackKeeps(p.reading, p.snapshot, m.server, m.response.lb);
    SetPhaseKeeps(s, s1, i, s1.ops[i].phase);
  }

  // ------------------------------------------------------- writes

  lemma BeginWriteKeeps(s: Sys, s1: Sys, c: ClientId, value: Value)
    requires SysInv(s) && BeginWrite(s, s1, c, value)
    ensures Grows(s, s1) && SysInv(s1)
  {
    var ctr := s.writeCtr[c];
    BeginKeeps(s, s.(writeCtr := s.writeCtr[c := ctr + 1]), Op(c, WriteOp(value), ctr, WriteBegun(Times(s.servers))));
  }

  lemma SendQueryKeeps(s: Sys, s1: Sys, i: OpId)
    requires SysInv(s) && SendQuery(s, s1, i)
    ensures Grows(s, s1) && SysInv(s1)
  {
    var p := s.ops[i].phase;
    assert OpOk(s, i);
    NewQueryAccInv(p.snapshot);
    SendKeeps(s, i, GetTimestamp(p.snapshot), s.servers.Keys,
        WriteQuery(p.snapshot, NextId(s, i), NewQueryAcc(p.snapshot)));
  }

  /** A reply to a timestamp request likewise. */
  lemma TimestampFits(s: Sys, m: Message, snapshot: View)
    requires SysInv(s) && m in s.net && m.ToClient? && Waiting(s, m.client, m.id, GetTimestamp(snapshot))
    ensures m.response.TimestampResponse? && m.server in snapshot && m.server in s.servers
    ensures Le(snapshot[m.server], m.response.ts) && Le(m.response.ts, s.servers[m.server].ts)
  {
    assert MessageOk(s, m);
  }

  lemma TakeTimestampKeeps(s: Sys, s1: Sys, i: OpId, m: Message)
    requires SysInv(s) && TakeTimestamp(s, s1, i, m)
    ensures Grows(s, s1) && SysInv(s1)
  {
    var p := s.ops[i].phase;
    assert OpOk(s, i);
    TimestampFits(s, m, p.snapshot);
    InsertTimestampKeeps(p.query, p.snapshot, m.server, m.response.ts);
    ViewStaysBelow(p.query.servers, s1.ops[i].phase.query.servers, m.server, Times(s.servers));
    SetPhaseKeeps(s, s1, i, s1.ops[i].phase);
  }

  lemma SendWriteKeeps(s: Sys, s1: Sys, i: OpId)
    requires SysInv(s) && SendWrite(s, s1, i)
    ensures Grows(s, s1) && SysInv(s1)
  {
    var p := s.ops[i].phase;
    assert OpOk(s, i);
    NewAckAccInv(p.snapshot, p.ts);
    SendKeeps(s, i, Write(s.ops[i].kind.value, p.ts, p.snapshot), s.servers.Keys,
              WriteSent(p.ts, p.snapshot, NextId(s, i), NewAckAcc(p.snapshot)));
  }

  lemma TakeAckKeeps(s: Sys, s1: Sys, i: OpId, m: Message)
    requires SysInv(s) && TakeAck(s, s1, i, m)
    ensures Grows(s, s1) && SysInv(s1)
  {
    var p := s.ops[i].phase;
    assert OpOk(s, i) && MessageOk(s, m);
    InsertAckKeeps(p.acks, p.snapshot, p.ts, m.server, m.response.lb);
    SetPhaseKeeps(s, s1, i, s1.ops[i].phase);
  }

  /** The steps that only change the phase of one operation, without new data. */
  lemma SettleReadKeeps(s: Sys, s1: Sys, i: OpId)
    requires SysInv(s)
    requires FinishUnanimous(s, s1, i) || FinishWriteBack(s, s1, i) || FailFirst(s, s1, i) || FailWriteBack(s, s1, i)
    ensures Grows(s, s1) && SysInv(s1)
  {
    assert OpOk(s, i);
    SetPhaseKeeps(s, s1, i, s1.ops[i].phase);
  }

  lemma SettleWriteKeeps(s: Sys, s1: Sys, i: OpId)
    requires SysInv(s)
    requires FailQuery(s, s1, i) || Choose(s, s1, i) || Prepare(s, s1, i) || FailWrite(s, s1, i)
        || FinishWrite(s, s1, i)
    ensures Grows(s, s1) && SysInv(s1)
  {
    assert OpOk(s, i);
    SetPhaseKeeps(s, s1, i, s1.ops[i].phase);
  }

  // ------------------------------------------------------- every step

  lemma ReadStepKeeps(s: Sys, l: Label, s1: Sys)
    requires SysInv(s) && ReadStep(s, l, s1)
    ensures Grows(s, s1) && SysInv(s1)
  {
    if l.BeginsRead? {
      BeginReadKeeps(s, s1, l.client);
    } else if l.SendsGet? {
      SendGetKeeps(s, s1, l.op);
    } else if l.TakesReading? {
      TakeReadingKeeps(s, s1, l.op, l.m);
    } else if l.SendsWriteBack? {
      SendWriteBackKeeps(s, s1, l.op);
    } else if l.TakesWriteBack? {
      TakeWriteBackKeeps(s, s1, l.op, l.m);
    } else {
      SettleReadKeeps(s, s1, l.op);
    }
  }

  lemma WriteStepKeeps(s: Sys, l: Label, s1: Sys)
    requires SysInv(s) && WriteStep(s, l, s1)
    ensures Grows(s, s1) && SysInv(s1)
  {
    if l.BeginsWrite? {
      BeginWriteKeeps(s, s1, l.client, l.value);
    } else if l.SendsQuery? {
      SendQueryKeeps(s, s1, l.op);
    } else if l.TakesTimestamp? {
      TakeTimestampKeeps(s, s1, l.op, l.m);
    } else if l.SendsWrite? {
      SendWriteKeeps(s, s1, l.op);
    } else if l.TakesAck? {
      TakeAckKeeps(s, s1, l.op, l.m);
    } else {
      SettleWriteKeeps(s, s1, l.op);
    }
  }

  lemma StepKeeps(s: Sys, l: Label, s1: Sys)
    requires SysInv(s) && Step(s, l, s1)
    ensures Grows(s, s1) && SysInv(s1)
  {
    if ReadStep(s, l, s1) {
      ReadStepKeeps(s, l, s1);
    } else if WriteStep(s, l, s1) {
      WriteStepKeeps(s, l, s1);
    } else if l.Logins? {
      LoginKeeps(s, s1, l.client);
    } else {
      ServeKeeps(s, s1, l.m);
    }
  }

  lemma RunStepKeeps(states: seq<Sys>, labels: seq<Label>, n: nat)
    requires IsRun(states, labels) && n < |labels| && SysInv(states[n])
    ensures Grows(states[n], states[n + 1]) && SysInv(states[n + 1])
  {
    StepKeeps(states[n], labels[n], states[n + 1]);
  }

  lemma {:induction false} RunKeeps(states: seq<Sys>, labels: seq<Label>, n: nat)
    requires IsRun(states, labels) && n < |states|
    ensures SysInv(states[n])
  {
    if n == 0 {
      InitKeeps(states[0]);
    } else {
      RunKeeps(states, labels, n - 1);
      RunStepKeeps(states, labels, n - 1);
    }
  }
}
