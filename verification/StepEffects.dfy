/** What each step of the protocol does, told on the states before and after it, in terms
    of messages, servers, phases and events alone; and exactly when it can be taken. */
module StepEffects {
  import opened Timestamps
  import opened Quorums
  import opened ReadPhases
  import opened WritePhases
  import opened Protocol

  /** More than half of the servers. */
  predicate Most(s: Sys, k: nat) {
    2 * k > |s.servers|
  }

  /** Nothing changes but operation `i`'s phase, the messages and the request under way. */
  ghost predicate OnlyMoves(s: Sys, s1: Sys, i: OpId) {
    && i < |s.ops| && |s1.ops| == |s.ops|
    && (forall j :: 0 <= j < |s.ops| && j != i ==> s1.ops[j] == s.ops[j])
    && s1.ops[i].client == s.ops[i].client && s1.ops[i].kind == s.ops[i].kind && s1.ops[i].ctr == s.ops[i].ctr
    && s1.servers == s.servers && s1.writeCtr == s.writeCtr
  }

  /** No message is sent and no request issued. */
  predicate SendsNothing(s: Sys, s1: Sys) {
    s1.net == s.net && s1.issued == s.issued && s1.requestCtr == s.requestCtr
  }

  /** The client of operation `i` issues a request under its next id, and a message is new
      in the net exactly if it carries that request to one of the targets. */
  ghost predicate SendsTo(s: Sys, s1: Sys, i: OpId, request: Request, targets: set<ServerId>) {
    && i < |s.ops|
    && var c := s.ops[i].client;
    && c in s.requestCtr
    && var id := s.requestCtr[c];
    && (forall m :: m in s1.net <==>
          m in s.net || (m.ToServer? && m.client == c && m.id == id && m.request == request && m.server in targets))
    && (forall k :: k in s1.issued <==> k in s.issued || k == (c, id))
    && (forall k :: k in s1.issued ==> s1.issued[k] == if k == (c, id) then request else s.issued[k])
    && (forall d :: d in s1.requestCtr <==> d in s.requestCtr)
    && (forall d :: d in s.requestCtr ==> s1.requestCtr[d] == if d == c then id + 1 else s.requestCtr[d])
  }

  /** The id that the client of operation `i` uses next. */
  ghost predicate NextIs(s: Sys, i: OpId, id: RequestId) {
    i < |s.ops| && s.ops[i].client in s.requestCtr && s.requestCtr[s.ops[i].client] == id
  }

  /** The operation ends, and the history records how. */
  predicate Records(s: Sys, s1: Sys, e: Event) {
    |s1.history| == |s.history| + 1 && s1.history[..|s.history|] == s.history && s1.history[|s.history|] == e
  }

  // ------------------------------------------------- the servers and logins

  ghost predicate LoginDoes(s: Sys, s1: Sys, c: ClientId) {
    && c !in s.writeCtr && c in s1.writeCtr && s1.writeCtr[c] == 0
    && c in s1.requestCtr && s1.requestCtr[c] == 0
    && (forall d :: d != c ==> (d in s1.writeCtr <==> d in s.writeCtr) && (d in s1.requestCtr <==> d in s.requestCtr))
    && (forall d :: d != c && d in s.writeCtr ==> s1.writeCtr[d] == s.writeCtr[d])
    && (forall d :: d != c && d in s.requestCtr ==> s1.requestCtr[d] == s.requestCtr[d])
    && s1.servers == s.servers && s1.net == s.net && s1.issued == s.issued
    && s1.ops == s.ops && s1.history == s.history
  }

  lemma LoginEffect(s: Sys, s1: Sys, c: ClientId)
    requires Login(s, s1, c)
    ensures LoginDoes(s, s1, c)
  {
  }

  /** The response that request `r` has coming from a server that was at `before` and,
      having served it, is at `after`. */
  predicate RightResponse(r: Request, before: Replica, after: Replica, response: Response) {
    match r
    case Get(_) => after == before && response == GetResponse(Reading(before.value, before.ts))
    case GetTimestamp(_) => after == before && response == TimestampResponse(before.ts)
    case Write(v, t, _) =>
      && (Lt(before.ts, t) ==> after.value == v && after.ts == t)
      && (!Lt(before.ts, t) ==> after == before)
      && Le(t, after.ts) && Le(before.ts, after.ts)
      && response == WriteResponse(after.ts)
  }

  /** The server answers the request: its reply is the one message that is new. */
  ghost predicate ServeDoes(s: Sys, s1: Sys, m: Message) {
    && m in s.net && m.ToServer? && m.server in s.servers
    && (forall k :: k in s1.servers <==> k in s.servers)
    && (forall k :: k in s.servers && k != m.server ==> s1.servers[k] == s.servers[k])
    && (exists response ::
          && RightResponse(m.request, s.servers[m.server], s1.servers[m.server], response)
          && ToClient(m.client, m.server, m.id, response) in s1.net
          && forall n :: n in s1.net <==> n in s.net || n == ToClient(m.client, m.server, m.id, response))
    && s1.ops == s.ops && s1.history == s.history && s1.issued == s.issued
    && s1.writeCtr == s.writeCtr && s1.requestCtr == s.requestCtr
  }

  lemma ServeEffect(s: Sys, s1: Sys, m: Message)
    requires Serve(s, s1, m)
    ensures ServeDoes(s, s1, m)
  {
    var (r, response) := Handle(s.servers[m.server], m.request);
    assert RightResponse(m.request, s.servers[m.server], s1.servers[m.server], response);
    assert ToClient(m.client, m.server, m.id, response) in s1.net;
  }

  // ------------------------------------------------------------- reads

  /** A new operation of client `c` starts with the servers' timestamps as they are. */
  ghost predicate BeginDoes(s: Sys, s1: Sys, c: ClientId, kind: OpKind) {
    && |s1.ops| == |s.ops| + 1 && s1.ops[..|s.ops|] == s.ops
    && var op := s1.ops[|s.ops|];
    && op.client == c && op.kind == kind
    && (kind.ReadOp? ==> op.phase.ReadBegun?) && (kind.WriteOp? ==> op.phase.WriteBegun?)
    && (op.phase.ReadBegun? || op.phase.WriteBegun? ==>
          && (forall k :: k in op.phase.snapshot <==> k in s.servers)
          && (forall k :: k in s.servers ==> op.phase.snapshot[k] == s.servers[k].ts))
    && Records(s, s1, Invoke(|s.ops|, kind))
    && s1.servers == s.servers && SendsNothing(s, s1)
  }

  lemma BeginReadEffect(s: Sys, s1: Sys, c: ClientId)
    requires BeginRead(s, s1, c)
    ensures BeginDoes(s, s1, c, ReadOp) && s1.writeCtr == s.writeCtr
  {
  }

  /** The get request goes to every server. */
  ghost predicate SendGetDoes(s: Sys, s1: Sys, i: OpId) {
    && OnlyMoves(s, s1, i) && s.ops[i].phase.ReadBegun? && s1.ops[i].phase.ReadFirst? && s1.history == s.history
    && var p := s1.ops[i].phase;
    && p.snapshot == s.ops[i].phase.snapshot && NextIs(s, i, p.id)
    && p.reading == ReadAcc(None, {}, {}, {}, p.snapshot)
    && SendsTo(s, s1, i, Get(p.snapshot), s.servers.Keys)
  }

  lemma SendGetEffect(s: Sys, s1: Sys, i: OpId)
    requires SendGet(s, s1, i)
    ensures SendGetDoes(s, s1, i)
  {
  }

  /** The largest reading goes to exactly those servers not counted as agreeing with it. */
  ghost predicate SendWriteBackDoes(s: Sys, s1: Sys, i: OpId) {
    && OnlyMoves(s, s1, i) && s.ops[i].phase.ReadFirst? && s1.ops[i].phase.ReadWriteBack? && s1.history == s.history
    && var (p, p1) := (s.ops[i].phase, s1.ops[i].phase);
    && p1.snapshot == p.snapshot && p1.reading == p.reading && NextIs(s, i, p1.id)
    && p.reading.maxResp.Some?
    && var r := p.reading.maxResp.value;
    && (forall m :: m in s1.net && m !in s.net ==>
          && m.ToServer? && m.client == s.ops[i].client && m.id == p1.id
          && m.request == Write(r.value, r.ts, p.snapshot)
          && m.server in s.servers && m.server !in p.reading.agreeWithMax)
    && (forall k :: k in s.servers && k !in p.reading.agreeWithMax ==>
          ToServer(s.ops[i].client, k, p1.id, Write(r.value, r.ts, p.snapshot)) in s1.net)
    && s.net <= s1.net
  }

  lemma SendWriteBackEffect(s: Sys, s1: Sys, i: OpId)
    requires SendWriteBack(s, s1, i)
    ensures SendWriteBackDoes(s, s1, i)
    ensures
      var p := s.ops[i].phase;
      SendsTo(s, s1, i, Write(p.reading.maxResp.value.value, p.reading.maxResp.value.ts, p.snapshot),
              s.servers.Keys - p.reading.agreeWithMax)
  {
  }

  /** A read returns its largest reading. */
  ghost predicate ReadReturns(s: Sys, s1: Sys, i: OpId) {
    && OnlyMoves(s, s1, i) && SendsNothing(s, s1)
    && (s.ops[i].phase.ReadFirst? || s.ops[i].phase.ReadWriteBack?) && s.ops[i].phase.reading.maxResp.Some?
    && var r := s.ops[i].phase.reading.maxResp.value;
    && s1.ops[i].phase == ReadDone(r.value, r.ts)
    && Records(s, s1, Return(i, ReadResult(r.value, r.ts)))
  }

  lemma FinishReadEffect(s: Sys, s1: Sys, i: OpId)
    requires FinishUnanimous(s, s1, i) || FinishWriteBack(s, s1, i)
    ensures ReadReturns(s, s1, i)
  {
  }

  /** An operation gives up; what it leaves behind is what may still take effect. */
  ghost predicate Fails(s: Sys, s1: Sys, i: OpId) {
    && OnlyMoves(s, s1, i) && SendsNothing(s, s1) && Records(s, s1, Fail(i))
    && var (p, p1) := (s.ops[i].phase, s1.ops[i].phase);
    && (p.ReadFirst? ==> p1 == ReadFailed(None))
    && (p.ReadWriteBack? ==> p.reading.maxResp.Some? && p1 == ReadFailed(Some(p.reading.maxResp.value.value)))
    && (p.WriteQuery? ==> p1 == WriteFailed(None))
    && (p.WriteSent? ==> p1 == WriteFailed(Some(p.ts)))
  }

  lemma FailReadEffect(s: Sys, s1: Sys, i: OpId)
    requires FailFirst(s, s1, i) || FailWriteBack(s, s1, i)
    ensures Fails(s, s1, i)
    ensures if FailFirst(s, s1, i) then s.ops[i].phase.ReadFirst? else s.ops[i].phase.ReadWriteBack?
  {
  }

  // ------------------------------------------------------------- writes

  /** The new operation takes its client's counter, which goes up by one. */
  ghost predicate Counts(s: Sys, s1: Sys, c: ClientId) {
    && |s.ops| < |s1.ops| && c in s.writeCtr && s1.ops[|s.ops|].ctr == s.writeCtr[c]
    && (forall d :: d in s1.writeCtr <==> d in s.writeCtr)
    && (forall d :: d in s.writeCtr ==> s1.writeCtr[d] == s.writeCtr[d] + if d == c then 1 else 0)
  }

  lemma BeginWriteEffect(s: Sys, s1: Sys, c: ClientId, value: Value)
    requires BeginWrite(s, s1, c, value)
    ensures BeginDoes(s, s1, c, WriteOp(value)) && Counts(s, s1, c)
  {
  }

  /** The timestamp request goes to every server. */
  ghost predicate SendQueryDoes(s: Sys, s1: Sys, i: OpId) {
    && OnlyMoves(s, s1, i) && s.ops[i].phase.WriteBegun? && s1.ops[i].phase.WriteQuery? && s1.history == s.history
    && var p := s1.ops[i].phase;
    && p.snapshot == s.ops[i].phase.snapshot && NextIs(s, i, p.id)
    && p.query == QueryAcc(None, {}, {}, p.snapshot)
    && SendsTo(s, s1, i, GetTimestamp(p.snapshot), s.servers.Keys)
  }

  lemma SendQueryEffect(s: Sys, s1: Sys, i: OpId)
    requires SendQuery(s, s1, i)
    ensures SendQueryDoes(s, s1, i)
  {
  }

  /** The chosen timestamp carries the client and the write's counter, and a sequence
      number one above the largest that any server's counted reply reported. */
  ghost predicate ChooseDoes(s: Sys, s1: Sys, i: OpId) {
    && OnlyMoves(s, s1, i) && SendsNothing(s, s1) && s1.history == s.history
    && s.ops[i].phase.WriteQuery? && s1.ops[i].phase.WriteChosen?
    && var (acc, ts) := (s.ops[i].phase.query, s1.ops[i].phase.ts);
    && ts.clientId == s.ops[i].client && ts.clientCtr == s.ops[i].ctr
    && (forall k :: k in acc.replies ==> k in acc.servers && acc.servers[k].seqno < ts.seqno)
    && (exists k :: k in acc.replies && k in acc.servers && ts.seqno == acc.servers[k].seqno + 1)
  }

  lemma ChooseEffect(s: Sys, s1: Sys, i: OpId)
    requires Choose(s, s1, i) && QueryAccInv(s.ops[i].phase.query, s.ops[i].phase.snapshot)
    ensures ChooseDoes(s, s1, i)
  {
    var p := s.ops[i].phase;
    forall k | k in p.query.replies
      ensures k in p.query.servers && Le(p.query.servers[k], p.query.maxResp.value)
    {
      assert QueryKnows(p.query, p.snapshot, k);
    }
    var w :| w in p.query.agreeWithMax;
    assert QueryKnows(p.query, p.snapshot, w);
  }

  /** The write takes a new snapshot for its second phase. */
  ghost predicate PrepareDoes(s: Sys, s1: Sys, i: OpId) {
    && OnlyMoves(s, s1, i) && SendsNothing(s, s1) && s1.history == s.history
    && s.ops[i].phase.WriteChosen? && s1.ops[i].phase.WriteReady?
    && s1.ops[i].phase.ts == s.ops[i].phase.ts
    && (forall k :: k in s1.ops[i].phase.snapshot <==> k in s.servers)
    && (forall k :: k in s.servers ==> s1.ops[i].phase.snapshot[k] == s.servers[k].ts)
  }

  lemma PrepareEffect(s: Sys, s1: Sys, i: OpId)
    requires Prepare(s, s1, i)
    ensures PrepareDoes(s, s1, i)
  {
  }

  /** The chosen timestamp goes to every server, with the write's own value. */
  ghost predicate SendWriteDoes(s: Sys, s1: Sys, i: OpId) {
    && OnlyMoves(s, s1, i) && s.ops[i].phase.WriteReady? && s1.ops[i].phase.WriteSent? && s1.history == s.history
    && s.ops[i].kind.WriteOp?
    && var (p, p1) := (s.ops[i].phase, s1.ops[i].phase);
    && p1.ts == p.ts && p1.snapshot == p.snapshot && NextIs(s, i, p1.id) && p1.acks == AckAcc({}, p.snapshot)
    && SendsTo(s, s1, i, Write(s.ops[i].kind.value, p.ts, p.snapshot), s.servers.Keys)
  }

  lemma SendWriteEffect(s: Sys, s1: Sys, i: OpId)
    requires SendWrite(s, s1, i)
    ensures SendWriteDoes(s, s1, i)
  {
  }

  ghost predicate WriteReturns(s: Sys, s1: Sys, i: OpId) {
    && OnlyMoves(s, s1, i) && SendsNothing(s, s1)
    && s.ops[i].phase.WriteSent? && s1.ops[i].phase == WriteDone(s.ops[i].phase.ts)
    && Records(s, s1, Return(i, WriteResult))
  }

  lemma FinishWriteEffect(s: Sys, s1: Sys, i: OpId)
    requires FinishWrite(s, s1, i)
    ensures WriteReturns(s, s1, i)
  {
  }

  lemma FailWriteEffect(s: Sys, s1: Sys, i: OpId)
    requires FailQuery(s, s1, i) || FailWrite(s, s1, i)
    ensures Fails(s, s1, i)
    ensures if FailQuery(s, s1, i) then s.ops[i].phase.WriteQuery? else s.ops[i].phase.WriteSent?
  {
  }

  // ------------------------------------------------- taking replies

  /** A delivered reply was under the id awaited, and is counted for its server. */
  ghost predicate Taken(s: Sys, s1: Sys, i: OpId, m: Message, id: RequestId) {
    && OnlyMoves(s, s1, i) && SendsNothing(s, s1) && s1.history == s.history
    && m in s.net && m.ToClient? && m.client == s.ops[i].client && m.id == id
  }

  /** The first reading from a server is the one counted, and the largest reading is
      replaced only by a larger one. */
  ghost predicate TakeReadingDoes(s: Sys, s1: Sys, i: OpId, m: Message) {
    && i < |s.ops| && i < |s1.ops| && s.ops[i].phase.ReadFirst? && s1.ops[i].phase.ReadFirst?
    && var (p, p1) := (s.ops[i].phase, s1.ops[i].phase);
    && Taken(s, s1, i, m, p.id) && p1.snapshot == p.snapshot && p1.id == p.id && m.response.GetResponse?
    && var (a, b, r) := (p.reading, p1.reading, m.response.reading);
    && (m.server in a.getReplies ==> b == a)
    && (m.server !in a.getReplies ==>
          && (forall k :: k in b.getReplies <==> k in a.getReplies || k == m.server)
          && (forall k :: k in b.servers <==> k in a.servers || k == m.server)
          && (forall k :: k in b.servers ==> b.servers[k] == if k == m.server then r.ts else a.servers[k])
          && (b.maxResp == Some(r) <==> a.maxResp == Some(r) || a.maxResp.None? || Lt(a.maxResp.value.ts, r.ts))
          && (b.maxResp == a.maxResp || b.maxResp == Some(r)))
  }

  lemma TakeReadingEffect(s: Sys, s1: Sys, i: OpId, m: Message)
    requires TakeReading(s, s1, i, m)
    ensures TakeReadingDoes(s, s1, i, m)
  {
  }

  ghost predicate TakeWriteBackDoes(s: Sys, s1: Sys, i: OpId, m: Message) {
    && i < |s.ops| && i < |s1.ops| && s.ops[i].phase.ReadWriteBack? && s1.ops[i].phase.ReadWriteBack?
    && var (p, p1) := (s.ops[i].phase, s1.ops[i].phase);
    && Taken(s, s1, i, m, p.id) && p1.snapshot == p.snapshot && p1.id == p.id && m.response.WriteResponse?
    && p1.reading.maxResp == p.reading.maxResp && p1.reading.getReplies == p.reading.getReplies
    && (forall k :: k in p1.reading.wbReplies <==> k in p.reading.wbReplies || k == m.server)
    && (m.server !in p.reading.wbReplies ==>
          forall k :: k in p1.reading.agreeWithMax <==> k in p.reading.agreeWithMax || k == m.server)
  }

  lemma TakeWriteBackEffect(s: Sys, s1: Sys, i: OpId, m: Message)
    requires TakeWriteBack(s, s1, i, m)
    ensures TakeWriteBackDoes(s, s1, i, m)
  {
  }

  ghost predicate TakeTimestampDoes(s: Sys, s1: Sys, i: OpId, m: Message) {
    && i < |s.ops| && i < |s1.ops| && s.ops[i].phase.WriteQuery? && s1.ops[i].phase.WriteQuery?
    && var (p, p1) := (s.ops[i].phase, s1.ops[i].phase);
    && Taken(s, s1, i, m, p.id) && p1.snapshot == p.snapshot && p1.id == p.id && m.response.TimestampResponse?
    && var (a, b) := (p.query, p1.query);
    && (m.server in a.replies ==> b == a)
    && (m.server !in a.replies ==>
          && (forall k :: k in b.replies <==> k in a.replies || k == m.server)
          && (forall k :: k in b.servers <==> k in a.servers || k == m.server)
          && (forall k :: k in b.servers ==> b.servers[k] == if k == m.server then m.response.ts else a.servers[k]))
  }

  lemma TakeTimestampEffect(s: Sys, s1: Sys, i: OpId, m: Message)
    requires TakeTimestamp(s, s1, i, m)
    ensures TakeTimestampDoes(s, s1, i, m)
  {
  }

  ghost predicate TakeAckDoes(s: Sys, s1: Sys, i: OpId, m: Message) {
    && i < |s.ops| && i < |s1.ops| && s.ops[i].phase.WriteSent? && s1.ops[i].phase.WriteSent?
    && var (p, p1) := (s.ops[i].phase, s1.ops[i].phase);
    && Taken(s, s1, i, m, p.id) && p1.ts == p.ts && p1.snapshot == p.snapshot && p1.id == p.id
    && m.response.WriteResponse?
    && (forall k :: k in p1.acks.replies <==> k in p.acks.replies || k == m.server)
  }

  lemma TakeAckEffect(s: Sys, s1: Sys, i: OpId, m: Message)
    requires TakeAck(s, s1, i, m)
    ensures TakeAckDoes(s, s1, i, m)
  {
  }

  // ------------------------------------------------------ every step

  ghost predicate SystemDoes(s: Sys, l: Label, s1: Sys) {
    && (l.Logins? ==> LoginDoes(s, s1, l.client))
    && (l.Serves? ==> ServeDoes(s, s1, l.m))
  }

  ghost predicate ReadDoes(s: Sys, l: Label, s1: Sys) {
    && (l.BeginsRead? ==> BeginDoes(s, s1, l.client, ReadOp) && s1.writeCtr == s.writeCtr)
    && (l.SendsGet? ==> SendGetDoes(s, s1, l.op))
    && (l.TakesReading? ==> TakeReadingDoes(s, s1, l.op, l.m))
    && (l.SendsWriteBack? ==> SendWriteBackDoes(s, s1, l.op))
    && (l.TakesWriteBack? ==> TakeWriteBackDoes(s, s1, l.op, l.m))
    && (l.FinishesUnanimous? ==> ReadReturns(s, s1, l.op) && s.ops[l.op].phase.ReadFirst?)
    && (l.FinishesWriteBack? ==> ReadReturns(s, s1, l.op) && s.ops[l.op].phase.ReadWriteBack?)
    && (l.FailsFirst? ==> Fails(s, s1, l.op) && s.ops[l.op].phase.ReadFirst?)
    && (l.FailsWriteBack? ==> Fails(s, s1, l.op) && s.ops[l.op].phase.ReadWriteBack?)
  }

  ghost predicate WriteDoes(s: Sys, l: Label, s1: Sys) {
    && (l.BeginsWrite? ==> BeginDoes(s, s1, l.client, WriteOp(l.value)) && Counts(s, s1, l.client))
    && (l.SendsQuery? ==> SendQueryDoes(s, s1, l.op))
    && (l.TakesTimestamp? ==> TakeTimestampDoes(s, s1, l.op, l.m))
    && (l.Chooses? ==> ChooseDoes(s, s1, l.op))
    && (l.Prepares? ==> PrepareDoes(s, s1, l.op))
    && (l.SendsWrite? ==> SendWriteDoes(s, s1, l.op))
    && (l.TakesAck? ==> TakeAckDoes(s, s1, l.op, l.m))
    && (l.FinishesWrite? ==> WriteReturns(s, s1, l.op))
    && (l.FailsQuery? ==> Fails(s, s1, l.op) && s.ops[l.op].phase.WriteQuery?)
    && (l.FailsWrite? ==> Fails(s, s1, l.op) && s.ops[l.op].phase.WriteSent?)
  }

  lemma SystemEffect(s: Sys, l: Label, s1: Sys)
    requires SystemStep(s, l, s1)
    ensures SystemDoes(s, l, s1)
  {
    if l.Logins? {
      LoginEffect(s, s1, l.client);
    } else {
      ServeEffect(s, s1, l.m);
    }
  }

  lemma ReadEffect(s: Sys, l: Label, s1: Sys)
    requires ReadStep(s, l, s1)
    ensures ReadDoes(s, l, s1)
  {
    if l.BeginsRead? {
      BeginReadEffect(s, s1, l.client);
    } else if l.SendsGet? {
      SendGetEffect(s, s1, l.op);
    } else if l.TakesReading? {
      TakeReadingEffect(s, s1, l.op, l.m);
    } else if l.SendsWriteBack? {
      SendWriteBackEffect(s, s1, l.op);
    } else if l.TakesWriteBack? {
      TakeWriteBackEffect(s, s1, l.op, l.m);
    } else if l.FailsFirst? || l.FailsWriteBack? {
      FailReadEffect(s, s1, l.op);
    } else {
      FinishReadEffect(s, s1, l.op);
    }
  }

  lemma WriteEffect(s: Sys, l: Label, s1: Sys)
    requires WriteStep(s, l, s1)
    requires l.Chooses? ==> QueryAccInv(s.ops[l.op].phase.query, s.ops[l.op].phase.snapshot)
    ensures WriteDoes(s, l, s1)
  {
    if l.BeginsWrite? {
      BeginWriteEffect(s, s1, l.client, l.value);
    } else if l.SendsQuery? {
      SendQueryEffect(s, s1, l.op);
    } else if l.TakesTimestamp? {
      TakeTimestampEffect(s, s1, l.op, l.m);
    } else if l.Chooses? {
      ChooseEffect(s, s1, l.op);
    } else if l.Prepares? {
      PrepareEffect(s, s1, l.op);
    } else if l.SendsWrite? {
      SendWriteEffect(s, s1, l.op);
    } else if l.TakesAck? {
      TakeAckEffect(s, s1, l.op, l.m);
    } else if l.FinishesWrite? {
      FinishWriteEffect(s, s1, l.op);
    } else {
      FailWriteEffect(s, s1, l.op);
    }
  }

  // ------------------------------------------------- when steps can be taken

  lemma MostIsMajority(s: Sys, k: nat)
    ensures Most(s, k) <==> k >= Majority(s)
  {
  }

  /** New clients log in; those that did begin operations. */
  lemma BeginDecides(s: Sys, c: ClientId, v: Value)
    ensures (exists s1 :: Login(s, s1, c)) <==> c !in s.writeCtr
    ensures (exists s1 :: BeginRead(s, s1, c)) <==> c in s.requestCtr
    ensures (exists s1 :: BeginWrite(s, s1, c, v)) <==> c in s.requestCtr && c in s.writeCtr
  {
    if c !in s.writeCtr {
      assert Login(s, s.(writeCtr := s.writeCtr[c := 0], requestCtr := s.requestCtr[c := 0]), c);
    }
    if c in s.requestCtr {
      assert BeginRead(s, Begin(s, Op(c, ReadOp, 0, ReadBegun(Times(s.servers)))), c);
      if c in s.writeCtr {
        assert BeginWrite(s, Begin(s.(writeCtr := s.writeCtr[c := s.writeCtr[c] + 1]),
                                   Op(c, WriteOp(v), s.writeCtr[c], WriteBegun(Times(s.servers)))), c, v);
      }
    }
  }

  /** A server can serve whatever was ever sent to it. */
  lemma ServeDecides(s: Sys, m: Message)
    ensures (exists s1 :: Serve(s, s1, m)) <==> m in s.net && m.ToServer? && m.server in s.servers
  {
    if m in s.net && m.ToServer? && m.server in s.servers {
      var (r, response) := Handle(s.servers[m.server], m.request);
      var reply := ToClient(m.client, m.server, m.id, response);
      assert Serve(s, s.(servers := s.servers[m.server := r], net := s.net + {reply}), m);
    }
  }

  /** A client can give up whenever it waits. */
  lemma FailDecides(s: Sys, i: OpId)
    requires i < |s.ops|
    ensures (exists s1 :: FailFirst(s, s1, i)) <==> s.ops[i].phase.ReadFirst?
    ensures (exists s1 :: FailWriteBack(s, s1, i)) <==>
            s.ops[i].phase.ReadWriteBack? && s.ops[i].phase.reading.maxResp.Some?
    ensures (exists s1 :: FailQuery(s, s1, i)) <==> s.ops[i].phase.WriteQuery?
    ensures (exists s1 :: FailWrite(s, s1, i)) <==> s.ops[i].phase.WriteSent?
  {
    var p := s.ops[i].phase;
    if p.ReadFirst? {
      assert FailFirst(s, End(s, i, ReadFailed(None), Fail(i)), i);
    } else if p.ReadWriteBack? && p.reading.maxResp.Some? {
      assert FailWriteBack(s, End(s, i, ReadFailed(Some(p.reading.maxResp.value.value)), Fail(i)), i);
    } else if p.WriteQuery? {
      assert FailQuery(s, End(s, i, WriteFailed(None), Fail(i)), i);
    } else if p.WriteSent? {
      assert FailWrite(s, End(s, i, WriteFailed(Some(p.ts)), Fail(i)), i);
    }
  }

  /** With readings from most servers a read returns at once exactly if most agree with
      the largest, and otherwise, exactly, writes it back. */
  lemma ReadDecides(s: Sys, i: OpId)
    requires i < |s.ops| && s.ops[i].phase.ReadFirst?
    ensures
      var acc := s.ops[i].phase.reading;
      var read := acc.maxResp.Some? && Most(s, |acc.getReplies|);
      && ((exists s1 :: FinishUnanimous(s, s1, i)) <==> read && Most(s, |acc.agreeWithMax|))
      && ((exists s1 :: SendWriteBack(s, s1, i)) <==> read && CanSend(s, i) && !Most(s, |acc.agreeWithMax|))
  {
    var p := s.ops[i].phase;
    if p.reading.maxResp.Some? && Most(s, |p.reading.getReplies|) {
      var r := p.reading.maxResp.value;
      if Most(s, |p.reading.agreeWithMax|) {
        assert FinishUnanimous(s, End(s, i, ReadDone(r.value, r.ts), Return(i, ReadResult(r.value, r.ts))), i);
      } else if CanSend(s, i) {
        assert SendWriteBack(s, Send(s, i, Write(r.value, r.ts, p.snapshot), s.servers.Keys - p.reading.agreeWithMax,
                                     ReadWriteBack(p.snapshot, NextId(s, i), p.reading)), i);
      }
    }
  }

  /** A write-back is over exactly when most servers agree. */
  lemma WriteBackDecides(s: Sys, i: OpId)
    requires i < |s.ops| && s.ops[i].phase.ReadWriteBack? && s.ops[i].phase.reading.maxResp.Some?
    ensures (exists s1 :: FinishWriteBack(s, s1, i)) <==> Most(s, |s.ops[i].phase.reading.agreeWithMax|)
  {
    var r := s.ops[i].phase.reading.maxResp.value;
    if Most(s, |s.ops[i].phase.reading.agreeWithMax|) {
      assert FinishWriteBack(s, End(s, i, ReadDone(r.value, r.ts), Return(i, ReadResult(r.value, r.ts))), i);
    }
  }

  /** A write chooses exactly when most servers have replied. */
  lemma QueryDecides(s: Sys, i: OpId)
    requires i < |s.ops| && s.ops[i].phase.WriteQuery?
    requires s.ops[i].phase.query.maxResp.Some? <==> s.ops[i].phase.query.replies != {}
    ensures (exists s1 :: Choose(s, s1, i)) <==> Most(s, |s.ops[i].phase.query.replies|)
  {
    var p := s.ops[i].phase;
    if Most(s, |p.query.replies|) {
      assert |p.query.replies| > 0;
      assert Choose(s, SetPhase(s, i, WriteChosen(
        NextTimestamp(p.query.maxResp.value, s.ops[i].client, s.ops[i].ctr))), i);
    }
  }

  /** A write returns exactly when most servers have acknowledged it. */
  lemma AcksDecide(s: Sys, i: OpId)
    requires i < |s.ops| && s.ops[i].phase.WriteSent?
    ensures (exists s1 :: FinishWrite(s, s1, i)) <==> Most(s, |s.ops[i].phase.acks.replies|)
  {
    var p := s.ops[i].phase;
    if Most(s, |p.acks.replies|) {
      assert FinishWrite(s, End(s, i, WriteDone(p.ts), Return(i, WriteResult)), i);
    }
  }
}
