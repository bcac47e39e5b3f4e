/** The distributed register as a state machine: replicas, clients running reads and
    writes in two phases, and a network that may delay, reorder, lose or duplicate
    messages but never forges one.

    A sent message stays in `net` for ever, so it can be delivered at any later time,
    any number of times, or never. Clients may have several operations under way. */
module Protocol {
  import opened Timestamps
  import opened Quorums
  import opened ReadPhases
  import opened WritePhases

  type ClientId = nat
  type RequestId = nat
  type OpId = nat
  type RequestKey = (ClientId, RequestId)

  /** Every request carries the client's snapshot of the servers' timestamps. */
  datatype Request =
    | Get(servers: View)
    | GetTimestamp(servers: View)
    | Write(value: Value, ts: Timestamp, servers: View)

  datatype Response =
    | GetResponse(reading: Reading)
    | TimestampResponse(ts: Timestamp)
    | WriteResponse(lb: Timestamp)

  datatype Message =
    | ToServer(client: ClientId, server: ServerId, id: RequestId, request: Request)
    | ToClient(client: ClientId, server: ServerId, id: RequestId, response: Response)

  datatype Replica = Replica(value: Value, ts: Timestamp)

  datatype OpKind = ReadOp | WriteOp(value: Value)

  /** How far an operation got. `snapshot` is the view taken with its current request. */
  datatype Phase =
    | ReadBegun(snapshot: View)
    | ReadFirst(snapshot: View, id: RequestId, reading: ReadAcc)
    | ReadWriteBack(snapshot: View, id: RequestId, reading: ReadAcc)
    | ReadDone(value: Value, ts: Timestamp)
    | ReadFailed(resolved: Option<Value>)
    | WriteBegun(snapshot: View)
    | WriteQuery(snapshot: View, id: RequestId, query: QueryAcc)
    | WriteChosen(ts: Timestamp)
    | WriteReady(ts: Timestamp, snapshot: View)
    | WriteSent(ts: Timestamp, snapshot: View, id: RequestId, acks: AckAcc)
    | WriteDone(ts: Timestamp)
    | WriteFailed(chosen: Option<Timestamp>)

  datatype Op = Op(client: ClientId, kind: OpKind, ctr: nat, phase: Phase)

  datatype Result = ReadResult(value: Value, ts: Timestamp) | WriteResult

  datatype Event =
    | Invoke(op: OpId, kind: OpKind)
    | Return(op: OpId, result: Result)
    | Fail(op: OpId)

  datatype Sys = Sys(
    servers: map<ServerId, Replica>,
    net: set<Message>,
    issued: map<RequestKey, Request>,
    writeCtr: map<ClientId, nat>,
    requestCtr: map<ClientId, nat>,
    ops: seq<Op>,
    history: seq<Event>)

  /** Any non-empty set of servers, all at the default timestamp; client 0 owns the
      default timestamp and never logs in. */
  predicate Init(s: Sys) {
    && s.servers != map[]
    && (forall k :: k in s.servers ==> s.servers[k] == Replica(None, DEFAULT))
    && s == Sys(s.servers, {}, map[], map[0 := 1], map[], [], [])
  }

  function Times(servers: map<ServerId, Replica>): View {
    map k | k in servers :: servers[k].ts
  }

  function Majority(s: Sys): nat {
    QuorumSize(|s.servers|)
  }

  // ------------------------------------------------------------- servers

  /** A replica keeps the pair with the largest timestamp. */
  function Handle(r: Replica, request: Request): (Replica, Response) {
    match request
    case Get(_) => (r, GetResponse(Reading(r.value, r.ts)))
    case GetTimestamp(_) => (r, TimestampResponse(r.ts))
    case Write(value, ts, _) =>
      var r1 := if Lt(r.ts, ts) then Replica(value, ts) else r;
      (r1, WriteResponse(r1.ts))
  }

  predicate Serve(s: Sys, s1: Sys, m: Message) {
    && m in s.net && m.ToServer? && m.server in s.servers
    && var (r, response) := Handle(s.servers[m.server], m.request);
    s1 == s.(servers := s.servers[m.server := r], net := s.net + {ToClient(m.client, m.server, m.id, response)})
  }

  // ------------------------------------------------------------- clients

  predicate Login(s: Sys, s1: Sys, c: ClientId) {
    && c !in s.writeCtr
    && s1 == s.(writeCtr := s.writeCtr[c := 0], requestCtr := s.requestCtr[c := 0])
  }

  /** Operation `op` moves to a new phase. */
  function SetPhase(s: Sys, op: OpId, phase: Phase): Sys
    requires op < |s.ops|
  {
    s.(ops := s.ops[op := s.ops[op].(phase := phase)])
  }

  /** Operation `op` is over, as event `e` tells. */
  function End(s: Sys, op: OpId, phase: Phase, e: Event): Sys
    requires op < |s.ops|
  {
    SetPhase(s, op, phase).(history := s.history + [e])
  }

  function Begin(s: Sys, op: Op): Sys {
    s.(ops := s.ops + [op], history := s.history + [Invoke(|s.ops|, op.kind)])
  }

  predicate CanSend(s: Sys, op: OpId) {
    op < |s.ops| && s.ops[op].client in s.requestCtr
  }

  function NextId(s: Sys, op: OpId): RequestId
    requires CanSend(s, op)
  {
    s.requestCtr[s.ops[op].client]
  }

  /** Issues a request under a new id and sends it to `targets`. */
  function Send(s: Sys, op: OpId, request: Request, targets: set<ServerId>, phase: Phase): Sys
    requires CanSend(s, op)
  {
    var c := s.ops[op].client;
    var id := s.requestCtr[c];
    SetPhase(s, op, phase).(
      net := s.net + (set k | k in targets :: ToServer(c, k, id, request)),
      issued := s.issued[(c, id) := request],
      requestCtr := s.requestCtr[c := id + 1])
  }

  /** Message `m` was delivered to the client of `op` and carries the id it waits for. */
  predicate Answers(s: Sys, op: OpId, id: RequestId, m: Message) {
    op < |s.ops| && m in s.net && m.ToClient? && m.client == s.ops[op].client && m.id == id
  }

  // --------------------------------------------------------------- reads

  predicate BeginRead(s: Sys, s1: Sys, c: ClientId) {
    && c in s.requestCtr
    && s1 == Begin(s, Op(c, ReadOp, 0, ReadBegun(Times(s.servers))))
  }

  predicate SendGet(s: Sys, s1: Sys, i: OpId) {
    && CanSend(s, i) && s.ops[i].phase.ReadBegun?
    && var p := s.ops[i].phase;
    s1 == Send(s, i, Get(p.snapshot), s.servers.Keys, ReadFirst(p.snapshot, NextId(s, i), NewReadAcc(p.snapshot)))
  }

  predicate TakeReading(s: Sys, s1: Sys, i: OpId, m: Message) {
    && i < |s.ops| && s.ops[i].phase.ReadFirst?
    && var p := s.ops[i].phase;
    && Answers(s, i, p.id, m) && m.response.GetResponse?
    && s1 == SetPhase(s, i, ReadFirst(p.snapshot, p.id, InsertGet(p.reading, m.server, m.response.reading)))
  }

  /** Operation `op` holds readings from a majority. */
  predicate HasReadings(s: Sys, op: OpId) {
    && op < |s.ops|
    && s.ops[op].phase.ReadFirst?
    && s.ops[op].phase.reading.maxResp.Some?
    && |s.ops[op].phase.reading.getReplies| >= Majority(s)
  }

  predicate FinishUnanimous(s: Sys, s1: Sys, i: OpId) {
    && HasReadings(s, i)
    && |s.ops[i].phase.reading.agreeWithMax| >= Majority(s)
    && var r := s.ops[i].phase.reading.maxResp.value;
    s1 == End(s, i, ReadDone(r.value, r.ts), Return(i, ReadResult(r.value, r.ts)))
  }

  /** Without agreement the largest reading is written back to those behind it. */
  predicate SendWriteBack(s: Sys, s1: Sys, i: OpId) {
    && HasReadings(s, i) && CanSend(s, i)
    && |s.ops[i].phase.reading.agreeWithMax| < Majority(s)
    && var p := s.ops[i].phase;
    var r := p.reading.maxResp.value;
    s1 == Send(s, i, Write(r.value, r.ts, p.snapshot), s.servers.Keys - p.reading.agreeWithMax,
               ReadWriteBack(p.snapshot, NextId(s, i), p.reading))
  }

  predicate TakeWriteBack(s: Sys, s1: Sys, i: OpId, m: Message) {
    && i < |s.ops| && s.ops[i].phase.ReadWriteBack?
    && var p := s.ops[i].phase;
    && Answers(s, i, p.id, m) && m.response.WriteResponse?
    && s1 == SetPhase(s, i, ReadWriteBack(p.snapshot, p.id, InsertWriteBack(p.reading, m.server, m.response.lb)))
  }

  predicate FinishWriteBack(s: Sys, s1: Sys, i: OpId) {
    && i < |s.ops| && s.ops[i].phase.ReadWriteBack? && s.ops[i].phase.reading.maxResp.Some?
    && |s.ops[i].phase.reading.agreeWithMax| >= Majority(s)
    && var r := s.ops[i].phase.reading.maxResp.value;
    s1 == End(s, i, ReadDone(r.value, r.ts), Return(i, ReadResult(r.value, r.ts)))
  }

  predicate FailFirst(s: Sys, s1: Sys, i: OpId) {
    && i < |s.ops| && s.ops[i].phase.ReadFirst?
    && s1 == End(s, i, ReadFailed(None), Fail(i))
  }

  predicate FailWriteBack(s: Sys, s1: Sys, i: OpId) {
    && i < |s.ops| && s.ops[i].phase.ReadWriteBack? && s.ops[i].phase.reading.maxResp.Some?
    && s1 == End(s, i, ReadFailed(Some(s.ops[i].phase.reading.maxResp.value.value)), Fail(i))
  }

  // -------------------------------------------------------------- writes

  predicate BeginWrite(s: Sys, s1: Sys, c: ClientId, value: Value) {
    && c in s.requestCtr && c in s.writeCtr
    && s1 == Begin(s.(writeCtr := s.writeCtr[c := s.writeCtr[c] + 1]),
                   Op(c, WriteOp(value), s.writeCtr[c], WriteBegun(Times(s.servers))))
  }

  predicate SendQuery(s: Sys, s1: Sys, i: OpId) {
    && CanSend(s, i) && s.ops[i].phase.WriteBegun?
    && var p := s.ops[i].phase;
    s1 == Send(s, i, GetTimestamp(p.snapshot), s.servers.Keys,
        WriteQuery(p.snapshot, NextId(s, i), NewQueryAcc(p.snapshot)))
  }

  predicate TakeTimestamp(s: Sys, s1: Sys, i: OpId, m: Message) {
    && i < |s.ops| && s.ops[i].phase.WriteQuery?
    && var p := s.ops[i].phase;
    && Answers(s, i, p.id, m) && m.response.TimestampResponse?
    && s1 == SetPhase(s, i, WriteQuery(p.snapshot, p.id, InsertTimestamp(p.query, m.server, m.response.ts)))
  }

  predicate FailQuery(s: Sys, s1: Sys, i: OpId) {
    && i < |s.ops| && s.ops[i].phase.WriteQuery?
    && s1 == End(s, i, WriteFailed(None), Fail(i))
  }

  /** With a majority's timestamps in hand the write takes the next one above them. */
  predicate Choose(s: Sys, s1: Sys, i: OpId) {
    && i < |s.ops| && s.ops[i].phase.WriteQuery?
    && s.ops[i].phase.query.maxResp.Some? && |s.ops[i].phase.query.replies| >= Majority(s)
    && s1 == SetPhase(s, i, WriteChosen(NextTimestamp(s.ops[i].phase.query.maxResp.value, s.ops[i].client,
        s.ops[i].ctr)))
  }

  predicate Prepare(s: Sys, s1: Sys, i: OpId) {
    && i < |s.ops| && s.ops[i].phase.WriteChosen?
    && s1 == SetPhase(s, i, WriteReady(s.ops[i].phase.ts, Times(s.servers)))
  }

  predicate SendWrite(s: Sys, s1: Sys, i: OpId) {
    && CanSend(s, i) && s.ops[i].phase.WriteReady? && s.ops[i].kind.WriteOp?
    && var p := s.ops[i].phase;
    s1 == Send(s, i, Write(s.ops[i].kind.value, p.ts, p.snapshot), s.servers.Keys,
               WriteSent(p.ts, p.snapshot, NextId(s, i), NewAckAcc(p.snapshot)))
  }

  predicate TakeAck(s: Sys, s1: Sys, i: OpId, m: Message) {
    && i < |s.ops| && s.ops[i].phase.WriteSent?
    && var p := s.ops[i].phase;
    && Answers(s, i, p.id, m) && m.response.WriteResponse?
    && s1 == SetPhase(s, i, WriteSent(p.ts, p.snapshot, p.id, InsertAck(p.acks, m.server, m.response.lb)))
  }

  /** A write that chose its timestamp may still take effect after it failed. */
  predicate FailWrite(s: Sys, s1: Sys, i: OpId) {
    && i < |s.ops| && s.ops[i].phase.WriteSent?
    && s1 == End(s, i, WriteFailed(Some(s.ops[i].phase.ts)), Fail(i))
  }

  predicate FinishWrite(s: Sys, s1: Sys, i: OpId) {
    && i < |s.ops| && s.ops[i].phase.WriteSent? && |s.ops[i].phase.acks.replies| >= Majority(s)
    && s1 == End(s, i, WriteDone(s.ops[i].phase.ts), Return(i, WriteResult))
  }

  // ---------------------------------------------------------------- runs

  datatype Label =
    | Logins(client: ClientId)
    | Serves(m: Message)
    | BeginsRead(client: ClientId)
    | SendsGet(op: OpId)
    | TakesReading(op: OpId, m: Message)
    | FinishesUnanimous(op: OpId)
    | SendsWriteBack(op: OpId)
    | TakesWriteBack(op: OpId, m: Message)
    | FinishesWriteBack(op: OpId)
    | FailsFirst(op: OpId)
    | FailsWriteBack(op: OpId)
    | BeginsWrite(client: ClientId, value: Value)
    | SendsQuery(op: OpId)
    | TakesTimestamp(op: OpId, m: Message)
    | FailsQuery(op: OpId)
    | Chooses(op: OpId)
    | Prepares(op: OpId)
    | SendsWrite(op: OpId)
    | TakesAck(op: OpId, m: Message)
    | FailsWrite(op: OpId)
    | FinishesWrite(op: OpId)

  predicate SystemStep(s: Sys, l: Label, s1: Sys) {
    match l
    case Logins(c) => Login(s, s1, c)
    case Serves(m) => Serve(s, s1, m)
    case _ => false
  }

  predicate ReadStep(s: Sys, l: Label, s1: Sys) {
    match l
    case BeginsRead(c) => BeginRead(s, s1, c)
    case SendsGet(i) => SendGet(s, s1, i)
    case TakesReading(i, m) => TakeReading(s, s1, i, m)
    case FinishesUnanimous(i) => FinishUnanimous(s, s1, i)
    case SendsWriteBack(i) => SendWriteBack(s, s1, i)
    case TakesWriteBack(i, m) => TakeWriteBack(s, s1, i, m)
    case FinishesWriteBack(i) => FinishWriteBack(s, s1, i)
    case FailsFirst(i) => FailFirst(s, s1, i)
    case FailsWriteBack(i) => FailWriteBack(s, s1, i)
    case _ => false
  }

  predicate WriteStep(s: Sys, l: Label, s1: Sys) {
    match l
    case BeginsWrite(c, v) => BeginWrite(s, s1, c, v)
    case SendsQuery(i) => SendQuery(s, s1, i)
    case TakesTimestamp(i, m) => TakeTimestamp(s, s1, i, m)
    case FailsQuery(i) => FailQuery(s, s1, i)
    case Chooses(i) => Choose(s, s1, i)
    case Prepares(i) => Prepare(s, s1, i)
    case SendsWrite(i) => SendWrite(s, s1, i)
    case TakesAck(i, m) => TakeAck(s, s1, i, m)
    case FailsWrite(i) => FailWrite(s, s1, i)
    case FinishesWrite(i) => FinishWrite(s, s1, i)
    case _ => false
  }

  predicate Step(s: Sys, l: Label, s1: Sys) {
    SystemStep(s, l, s1) || ReadStep(s, l, s1) || WriteStep(s, l, s1)
  }

  /** A finite run: the states visited and the steps between them. */
  ghost predicate IsRun(states: seq<Sys>, labels: seq<Label>) {
    && |states| == |labels| + 1
    && Init(states[0])
    && forall n :: 0 <= n < |labels| ==> Step(states[n], labels[n], states[n + 1])
  }
}
