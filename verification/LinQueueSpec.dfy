/** The linearization queue as a value: the operations that every client performs
    on the shared queue, written as functions from one state to the next.

    A linearizer is named by the operation that issued it. The register remembers,
    besides its value, the log of linearizers applied to it, in order; applying a
    linearizer is the only way to change either. */
module LinQueueSpec {
  import opened Timestamps

  /** The operation that owns a linearizer. */
  type Lin = nat

  /** Reads are indexed by the value they will return and a serial number. */
  type ReadKey = (Value, nat)

  datatype LinEvent =
    | Wrote(lin: Lin, value: Value, ts: Timestamp)
    | Saw(lin: Lin, value: Value, ts: Timestamp)

  datatype Register = Register(value: Value, log: seq<LinEvent>)

  datatype WriteToken = WriteToken(lin: Lin, value: Value, committed: bool)
  datatype ReadToken = ReadToken(lin: Lin, minTs: Timestamp)
  datatype PendingWrite = PendingWrite(lin: Lin, value: Value, committed: bool)
  datatype CompletedWrite = CompletedWrite(lin: Lin, value: Value)
  datatype PendingRead = PendingRead(lin: Lin)
  datatype CompletedRead = CompletedRead(lin: Lin, ts: Timestamp)

  datatype Queue = Queue(
    committedTo: map<Timestamp, Value>,
    completedWrites: map<Timestamp, CompletedWrite>,
    completedReads: map<ReadKey, CompletedRead>,
    pendingWrites: map<Timestamp, PendingWrite>,
    pendingReads: map<ReadKey, PendingRead>,
    writeTokens: map<Timestamp, WriteToken>,
    readTokens: map<ReadKey, ReadToken>,
    nextReadOp: nat,
    watermark: Timestamp)

  /** The queue together with the register it linearizes operations on. */
  datatype LinState = LinState(queue: Queue, register: Register)

  const INITIAL_QUEUE :=
    Queue(map[DEFAULT := None], map[], map[], map[], map[], map[], map[], 0, DEFAULT)

  const INITIAL := LinState(INITIAL_QUEUE, Register(None, []))

  /** Timestamps the queue has heard of. */
  function KnownTimestamps(q: Queue): set<Timestamp> {
    q.committedTo.Keys + q.pendingWrites.Keys
  }

  // ---------------------------------------------------------------- inserting

  /** A write below the watermark is rejected: its place has already passed. */
  function InsertWrite(q: Queue, lin: Lin, value: Value, ts: Timestamp): Option<Queue> {
    if Le(ts, q.watermark) then None
    else
      Some(q.(pendingWrites := q.pendingWrites[ts := PendingWrite(lin, value, false)],
              writeTokens := q.writeTokens[ts := WriteToken(lin, value, false)]))
  }

  /** A read of the current value is linearized on the spot. */
  function InsertRead(s: LinState, lin: Lin, value: Value): LinState
    requires s.queue.watermark in s.queue.committedTo
  {
    var q := s.queue;
    var key := (value, q.nextReadOp);
    var now := value == q.committedTo[q.watermark];
    LinState(
      q.(readTokens := q.readTokens[key := ReadToken(lin, q.watermark)],
         nextReadOp := q.nextReadOp + 1,
         completedReads := if now then q.completedReads[key := CompletedRead(lin, q.watermark)] else q.completedReads,
         pendingReads := if now then q.pendingReads else q.pendingReads[key := PendingRead(lin)]),
      s.register.(log := s.register.log + if now then [Saw(lin, value, q.watermark)] else []))
  }

  /** The owner of a write learns that its timestamp is final. */
  function CommitValue(q: Queue, ts: Timestamp): Queue
    requires ts in q.writeTokens && (Le(ts, q.watermark) || ts in q.pendingWrites)
  {
    var q1 := q.(writeTokens := q.writeTokens[ts := q.writeTokens[ts].(committed := true)]);
    if Le(ts, q.watermark) then q1
    else q1.(pendingWrites := q.pendingWrites[ts := q.pendingWrites[ts].(committed := true)])
  }

  // ------------------------------------------------------ applying linearizers

  function ApplyRead(s: LinState, key: ReadKey): LinState
    requires key in s.queue.pendingReads
  {
    var q := s.queue;
    var lin := q.pendingReads[key].lin;
    LinState(
      q.(pendingReads := q.pendingReads - {key},
         completedReads := q.completedReads[key := CompletedRead(lin, q.watermark)]),
      s.register.(log := s.register.log + [Saw(lin, key.0, q.watermark)]))
  }

  function ApplyWrite(s: LinState, ts: Timestamp): LinState
    requires ts in s.queue.pendingWrites
  {
    var q := s.queue;
    var p := q.pendingWrites[ts];
    LinState(
      q.(pendingWrites := q.pendingWrites - {ts},
         committedTo := q.committedTo[ts := p.value],
         completedWrites := q.completedWrites[ts := CompletedWrite(p.lin, p.value)],
         watermark := ts),
      Register(p.value, s.register.log + [Wrote(p.lin, p.value, ts)]))
  }

  function ReadsOf(q: Queue, value: Value): set<ReadKey> {
    set k | k in q.pendingReads && k.0 == value
  }

  function WritesUpTo(q: Queue, maxTs: Timestamp): set<Timestamp> {
    set t | t in q.pendingWrites && Le(t, maxTs)
  }

  /** Linearizes every pending read of the register's value, in some order. */
  ghost function ApplyReads(s: LinState): (r: LinState)
    ensures r.queue.pendingWrites == s.queue.pendingWrites
    ensures r.register.value == s.register.value
    decreases |ReadsOf(s.queue, s.register.value)|
  {
    var waiting := ReadsOf(s.queue, s.register.value);
    if waiting == {} then s
    else
      var key :| key in waiting;
      var s1 := ApplyRead(s, key);
      assert ReadsOf(s1.queue, s1.register.value) == waiting - {key};
      ApplyReads(s1)
  }

  /** Linearizes the pending writes up to `maxTs`, least timestamp first, each
      followed by the reads that were waiting for its value. */
  ghost function ApplyUpTo(s: LinState, maxTs: Timestamp): LinState
    decreases |WritesUpTo(s.queue, maxTs)|
  {
    var writes := WritesUpTo(s.queue, maxTs);
    if writes == {} then s
    else
      var next := Least(writes);
      var s1 := ApplyReads(ApplyWrite(s, next));
      assert WritesUpTo(s1.queue, maxTs) == writes - {next};
      ApplyUpTo(s1, maxTs)
  }

  // ----------------------------------------------------- leaving the queue

  function ExtractWrite(q: Queue, ts: Timestamp): Queue {
    q.(completedWrites := q.completedWrites - {ts}, writeTokens := q.writeTokens - {ts})
  }

  function ExtractRead(q: Queue, key: ReadKey): Queue {
    q.(completedReads := q.completedReads - {key}, readTokens := q.readTokens - {key})
  }

  /** What a client gets back for an operation it gives up on: the linearizer it
      handed in, or the completion if some client already applied it. */
  datatype Removed = Linearizer(lin: Lin) | Completion(lin: Lin)

  /** Also says whether the timestamp's allocation is handed back: only when the
      write was still pending and its owner had not committed to it. */
  datatype RemovedWrite = RemovedWrite(queue: Queue, what: Removed, freesAllocation: bool)

  function RemoveWrite(q: Queue, ts: Timestamp): RemovedWrite
    requires if Le(ts, q.watermark) then ts in q.completedWrites else ts in q.pendingWrites
  {
    var q1 := q.(writeTokens := q.writeTokens - {ts});
    if Le(ts, q.watermark) then
      RemovedWrite(q1.(completedWrites := q.completedWrites - {ts}), Completion(q.completedWrites[ts].lin), false)
    else
      RemovedWrite(q1.(pendingWrites := q.pendingWrites - {ts}), Linearizer(q.pendingWrites[ts].lin),
                   !q.pendingWrites[ts].committed)
  }

  /** Some write the read may return was linearized since the read was inserted. */
  predicate HadOpportunity(q: Queue, key: ReadKey)
    requires key in q.readTokens
  {
    exists t :: t in q.committedTo && Le(q.readTokens[key].minTs, t) && Le(t, q.watermark) && q.committedTo[t] == key.0
  }

  datatype RemovedRead = RemovedRead(queue: Queue, what: Removed)

  function RemoveRead(q: Queue, key: ReadKey): RemovedRead
    requires key in q.readTokens
    requires if HadOpportunity(q, key) then key in q.completedReads else key in q.pendingReads
  {
    var q1 := q.(readTokens := q.readTokens - {key});
    if HadOpportunity(q, key) then
      RemovedRead(q1.(completedReads := q.completedReads - {key}), Completion(q.completedReads[key].lin))
    else
      RemovedRead(q1.(pendingReads := q.pendingReads - {key}), Linearizer(q.pendingReads[key].lin))
  }
}
