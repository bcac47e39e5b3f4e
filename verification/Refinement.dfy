/** The protocol's steps as actions of the components: the timestamps and request ids of
    a run are obtained through the permissions that clients take out and put back. */
module Refinement {
  import opened Timestamps
  import opened Quorums
  import opened Protocol
  import opened ProtocolInv
  import opened LinQueueProof
  import opened SharedState
  import opened SharedRuns
  import opened Linearizability
  import P = Permissions

  /** The ledger of allocations in a state of the system. */
  function LedgerOf(s: Sys, a: Shared): P.Ledger {
    P.Ledger(P.Counters(s.writeCtr, s.writeCtr, None), a.allocations)
  }

  function RegistryOf(s: Sys): P.Registry {
    P.Registry(P.Counters(s.requestCtr, s.requestCtr, None), s.issued)
  }

  lemma InitialLedger(s: Sys)
    requires Init(s)
    ensures LedgerOf(s, INITIAL_SHARED) == P.NEW_LEDGER && RegistryOf(s) == P.NEW_REGISTRY
  {
  }

  lemma LoginIsLogin(s: Sys, a: Shared, s1: Sys, c: ClientId)
    requires CountersOk(s) && Login(s, s1, c)
    ensures P.Allowed(LedgerOf(s, a), P.Login(c)) && LedgerOf(s1, a) == P.Perform(LedgerOf(s, a), P.Login(c))
    ensures P.CanIssue(RegistryOf(s), P.LoginRequests(c))
        && RegistryOf(s1) == P.DoIssue(RegistryOf(s), P.LoginRequests(c))
  {
  }

  /** Issuing a request takes out the client's permission, and puts it back one further
      together with the request. */
  lemma SendIsIssue(s: Sys, i: OpId, request: Request, targets: set<ServerId>, phase: Phase)
    requires CanSend(s, i)
    ensures
      var c, id := s.ops[i].client, NextId(s, i);
      var take, issue := P.TakeId(c), P.IssueRequest((c, id), request, id + 1);
      && P.CanIssue(RegistryOf(s), take)
      && P.CanIssue(P.DoIssue(RegistryOf(s), take), issue)
      && RegistryOf(Send(s, i, request, targets, phase)) == P.DoIssue(P.DoIssue(RegistryOf(s), take), issue)
  {
    var c := s.ops[i].client;
    P.TakeAndPut(RegistryOf(s).counters, c, s.requestCtr[c] + 1);
  }

  /** A write that begins takes out its client's permission; it puts it back with an
      allocation when its prophecy lies ahead of the watermark, and without one when it
      does not. */
  lemma BeginWriteIsAllocation(o: Oracle, s: Sys, a: Shared, s1: Sys, c: ClientId, value: Value)
    requires CountersOk(s) && BeginWrite(s, s1, c, value)
    ensures
      var ctr := s.writeCtr[c];
      var ts := Timestamp(o.seqno(|s.ops|), c, ctr);
      var take := P.TakePermission(c);
      var put := if Lt(a.lin.queue.watermark, ts) then P.AllocValue(ts, value, ctr + 1)
          else P.ReturnPermission(c, ctr + 1);
      && P.Allowed(LedgerOf(s, a), take)
      && P.Allowed(P.Perform(LedgerOf(s, a), take), put)
      && LedgerOf(s1, WriteBegins(a, |s.ops|, value, ts)) == P.Perform(P.Perform(LedgerOf(s, a), take), put)
  {
    P.TakeAndPut(LedgerOf(s, a).counters, c, s.writeCtr[c] + 1);
  }

  /** A write that fails before it chose removes its allocation, if its value was not
      linearized meanwhile. */
  lemma FailQueryIsRemoval(o: Oracle, s: Sys, a: Shared, s1: Sys, i: OpId)
    requires GlobalInv(o, s, a) && FailQuery(s, s1, i)
    requires s.ops[i].kind.WriteOp? && HoldsWrite(a, i, Prophesied(o, i, s.ops[i]), s.ops[i].kind.value, false)
    ensures
      var ts := Prophesied(o, i, s.ops[i]);
      && CanRemoveWrite(a, ts)
      && var l, l1 := LedgerOf(s, a), LedgerOf(s1, WriteFails(a, i, ts));
      if Lt(a.lin.queue.watermark, ts) then P.Allowed(l, P.RemoveAllocation(ts))
          && l1 == P.Perform(l, P.RemoveAllocation(ts))
      else l1 == l
  {
    var ts := Prophesied(o, i, s.ops[i]);
    assert OpOk(s, i) && WriteAt(a.lin.queue, ts) && AllocatedAt(s, a, ts);
  }

  // ------------------------------------------------------ whole runs: timestamps

  /** The timestamp that a write which begins prophesies. */
  function ProphecyOf(o: Oracle, s: Sys, c: ClientId): Timestamp
    requires c in s.writeCtr
  {
    Timestamp(o.seqno(|s.ops|), c, s.writeCtr[c])
  }

  /** What a step does to the commitments: at most two actions. */
  function LedgerActions(o: Oracle, s: Sys, a: Shared, l: Label): seq<P.Action> {
    match l
    case Logins(c) => [P.Login(c)]
    case BeginsWrite(c, v) =>
      if c !in s.writeCtr then []
      else
        var ts := ProphecyOf(o, s, c);
        [P.TakePermission(c),
         if Lt(a.lin.queue.watermark, ts) then P.AllocValue(ts, v, ts.clientCtr + 1)
             else P.ReturnPermission(c, ts.clientCtr + 1)]
    case FailsQuery(i) =>
      if i < |s.ops| && i < |a.minTs| && Lt(a.minTs[i], Prophesied(o, i, s.ops[i]))
         && Lt(a.lin.queue.watermark, Prophesied(o, i, s.ops[i]))
      then [P.RemoveAllocation(Prophesied(o, i, s.ops[i]))] else []
    case _ => []
  }

  lemma OneAction(l: P.Ledger, x: P.Action)
    requires P.Allowed(l, x)
    ensures P.LedgerPath(l, [x], P.Perform(l, x))
  {
    assert [x][1..] == [];
  }

  lemma TwoActions(l: P.Ledger, x: P.Action, y: P.Action)
    requires P.Allowed(l, x) && P.Allowed(P.Perform(l, x), y)
    ensures P.LedgerPath(l, [x, y], P.Perform(P.Perform(l, x), y))
  {
    OneAction(P.Perform(l, x), y);
    assert [x, y][1..] == [y];
  }

  lemma BeginWritePath(o: Oracle, s: Sys, a: Shared, c: ClientId, v: Value, s1: Sys, a1: Shared)
    requires CountersOk(s) && BeginWrite(s, s1, c, v) && a1 == WriteBegins(a, |s.ops|, v, ProphecyOf(o, s, c))
    ensures P.LedgerPath(LedgerOf(s, a), LedgerActions(o, s, a, BeginsWrite(c, v)), LedgerOf(s1, a1))
  {
    BeginWriteIsAllocation(o, s, a, s1, c, v);
    var ts := ProphecyOf(o, s, c);
    TwoActions(LedgerOf(s, a), P.TakePermission(c),
               if Lt(a.lin.queue.watermark, ts) then P.AllocValue(ts, v, ts.clientCtr + 1)
               else P.ReturnPermission(c, ts.clientCtr + 1));
  }

  lemma InsertedHolds(o: Oracle, s: Sys, a: Shared, i: OpId)
    requires GlobalInv(o, s, a) && i < |s.ops| && s.ops[i].phase.WriteQuery?
    requires i < |a.minTs| && Lt(a.minTs[i], Prophesied(o, i, s.ops[i]))
    ensures s.ops[i].kind.WriteOp? && HoldsWrite(a, i, Prophesied(o, i, s.ops[i]), s.ops[i].kind.value, false)
  {
    assert OpOk(s, i) && OpAt(o, s, a, i);
  }

  lemma FailQueryPath(o: Oracle, s: Sys, a: Shared, i: OpId, s1: Sys, a1: Shared)
    requires GlobalInv(o, s, a) && FailQuery(s, s1, i) && LeavesQueue(o, s, a, i, a1)
    ensures P.LedgerPath(LedgerOf(s, a), LedgerActions(o, s, a, FailsQuery(i)), LedgerOf(s1, a1))
  {
    if Lt(a.minTs[i], Prophesied(o, i, s.ops[i])) {
      InsertedFailPath(o, s, a, i, s1, a1);
    }
  }

  lemma InsertedFailPath(o: Oracle, s: Sys, a: Shared, i: OpId, s1: Sys, a1: Shared)
    requires GlobalInv(o, s, a) && FailQuery(s, s1, i) && LeavesQueue(o, s, a, i, a1)
    requires i < |a.minTs| && Lt(a.minTs[i], Prophesied(o, i, s.ops[i]))
    ensures P.LedgerPath(LedgerOf(s, a), LedgerActions(o, s, a, FailsQuery(i)), LedgerOf(s1, a1))
  {
    var ts := Prophesied(o, i, s.ops[i]);
    InsertedHolds(o, s, a, i);
    FailQueryIsRemoval(o, s, a, s1, i);
    if Lt(a.lin.queue.watermark, ts) {
      OneAction(LedgerOf(s, a), P.RemoveAllocation(ts));
    }
  }

  lemma QuietReadLedger(o: Oracle, s: Sys, a: Shared, l: Label, s1: Sys, a1: Shared)
    requires ReadStep(s, l, s1) && SharedStep(o, s, a, l, a1)
    ensures LedgerOf(s1, a1) == LedgerOf(s, a)
  {
  }

  lemma QuietWriteLedger(o: Oracle, s: Sys, a: Shared, l: Label, s1: Sys, a1: Shared)
    requires WriteStep(s, l, s1) && SharedStep(o, s, a, l, a1) && !l.BeginsWrite? && !l.FailsQuery?
    ensures LedgerOf(s1, a1) == LedgerOf(s, a)
  {
  }

  /** The other steps leave counters and allocations alone. */
  lemma QuietLedger(o: Oracle, s: Sys, a: Shared, l: Label, s1: Sys, a1: Shared)
    requires Step(s, l, s1) && SharedStep(o, s, a, l, a1)
    requires !l.Logins? && !l.BeginsWrite? && !l.FailsQuery?
    ensures LedgerOf(s1, a1) == LedgerOf(s, a)
  {
    if ReadStep(s, l, s1) {
      QuietReadLedger(o, s, a, l, s1, a1);
    } else if WriteStep(s, l, s1) {
      QuietWriteLedger(o, s, a, l, s1, a1);
    }
  }

  lemma StepIsLedgerPath(o: Oracle, s: Sys, a: Shared, l: Label, s1: Sys, a1: Shared)
    requires GlobalInv(o, s, a) && Step(s, l, s1) && SharedStep(o, s, a, l, a1)
    ensures P.LedgerPath(LedgerOf(s, a), LedgerActions(o, s, a, l), LedgerOf(s1, a1))
  {
    if l.Logins? {
      LoginIsLogin(s, a, s1, l.client);
      OneAction(LedgerOf(s, a), P.Login(l.client));
    } else if l.BeginsWrite? {
      BeginWritePath(o, s, a, l.client, l.value, s1, a1);
    } else if l.FailsQuery? {
      FailQueryPath(o, s, a, l.op, s1, a1);
    } else {
      QuietLedger(o, s, a, l, s1, a1);
    }
  }

  lemma RunStepIsLedgerPath(o: Oracle, states: seq<Sys>, labels: seq<Label>, shared: seq<Shared>, n: nat)
    requires IsRun(states, labels) && |shared| == |states| && n < |labels|
    requires SharedInvAt(o, states, shared, n) && SharedMoveAt(o, states, labels, shared, n)
    ensures P.LedgerPath(LedgerOf(states[n], shared[n]), LedgerActions(o, states[n], shared[n], labels[n]),
                         LedgerOf(states[n + 1], shared[n + 1]))
  {
    StepIsLedgerPath(o, states[n], shared[n], labels[n], states[n + 1], shared[n + 1]);
  }

  function LedgersOf(states: seq<Sys>, shared: seq<Shared>): (r: seq<P.Ledger>)
    requires |shared| == |states|
    ensures |r| == |states| && forall n :: 0 <= n < |states| ==> r[n] == LedgerOf(states[n], shared[n])
  {
    if states == [] then []
    else
      var n := |states| - 1;
      LedgersOf(states[..n], shared[..n]) + [LedgerOf(states[n], shared[n])]
  }

  function ActionsOf(o: Oracle, states: seq<Sys>, labels: seq<Label>, shared: seq<Shared>): (r: seq<seq<P.Action>>)
    requires |labels| <= |states| && |labels| <= |shared|
    ensures |r| == |labels|
    ensures forall n :: 0 <= n < |labels| ==> r[n] == LedgerActions(o, states[n], shared[n], labels[n])
  {
    if labels == [] then []
    else
      var n := |labels| - 1;
      ActionsOf(o, states, labels[..n], shared) + [LedgerActions(o, states[n], shared[n], labels[n])]
  }

  /** Every run of the protocol, with the shared state beside it, is a run of the
      commitments, from the first ledger to the one that the run ends with. */
  lemma RunIsLedgerRun(o: Oracle, states: seq<Sys>, labels: seq<Label>, shared: seq<Shared>)
    returns (ledgers: seq<P.Ledger>, actions: seq<P.Action>, places: seq<nat>)
    requires IsRun(states, labels) && |shared| == |states| && IsSharedRun(o, states, labels, shared)
    ensures P.IsLedgerRun(ledgers, actions)
    ensures ledgers[|actions|] == LedgerOf(states[|labels|], shared[|labels|])
    ensures |places| == |states| && forall n :: P.LedgerPlaced(ActionsOf(o, states, labels, shared), actions, places, n)
  {
    var ends, steps := LedgersOf(states, shared), ActionsOf(o, states, labels, shared);
    InitialLedger(states[0]);
    forall n | 0 <= n < |labels| ensures P.LedgerPath(ends[n], steps[n], ends[n + 1]) {
      assert SharedInvAt(o, states, shared, n) && SharedMoveAt(o, states, labels, shared, n);
      RunStepIsLedgerPath(o, states, labels, shared, n);
    }
    ledgers, actions, places := P.LedgerPathsMakeRun(ends, steps, |labels|);
  }

  /** The timestamp that a step allocates. */
  function AllocatedBy(o: Oracle, s: Sys, a: Shared, l: Label): Option<Timestamp> {
    if l.BeginsWrite? && l.client in s.writeCtr && Lt(a.lin.queue.watermark, ProphecyOf(o, s, l.client))
    then Some(ProphecyOf(o, s, l.client)) else None
  }

  /** No two steps of a run allocate the same timestamp, not even when the first write
      failed and its allocation was removed in between. */
  lemma NoTimestampIsAllocatedTwice(o: Oracle, states: seq<Sys>, labels: seq<Label>, shared: seq<Shared>, m: nat,
                                    n: nat)
    requires IsRun(states, labels) && |shared| == |states| && IsSharedRun(o, states, labels, shared) && m < n < |labels|
    requires AllocatedBy(o, states[m], shared[m], labels[m]).Some?
    ensures AllocatedBy(o, states[m], shared[m], labels[m]) != AllocatedBy(o, states[n], shared[n], labels[n])
  {
    if AllocatedBy(o, states[n], shared[n], labels[n]).Some? {
      var ledgers, actions, places := RunIsLedgerRun(o, states, labels, shared);
      P.PlacedNeverTwice(ledgers, ActionsOf(o, states, labels, shared), actions, places, m, n);
    }
  }

  // ----------------------------------------------------- whole runs: request ids

  /** The request that a step sends, if it sends one. */
  function RequestOf(s: Sys, l: Label): Option<Request> {
    if l.SendsGet? && l.op < |s.ops| && s.ops[l.op].phase.ReadBegun? then Some(Get(s.ops[l.op].phase.snapshot))
    else if l.SendsWriteBack? && l.op < |s.ops| && s.ops[l.op].phase.ReadFirst?
        && s.ops[l.op].phase.reading.maxResp.Some? then
      var p := s.ops[l.op].phase;
      Some(Write(p.reading.maxResp.value.value, p.reading.maxResp.value.ts, p.snapshot))
    else if l.SendsQuery? && l.op < |s.ops|
        && s.ops[l.op].phase.WriteBegun? then Some(GetTimestamp(s.ops[l.op].phase.snapshot))
    else if l.SendsWrite? && l.op < |s.ops| && s.ops[l.op].phase.WriteReady? && s.ops[l.op].kind.WriteOp? then
      Some(Write(s.ops[l.op].kind.value, s.ops[l.op].phase.ts, s.ops[l.op].phase.snapshot))
    else None
  }

  /** The client and id under which a step sends a request. */
  function IssuedBy(s: Sys, l: Label): Option<RequestKey> {
    if RequestOf(s, l).Some? && CanSend(s, l.op) then Some((s.ops[l.op].client, NextId(s, l.op))) else None
  }

  /** What a step does to the request map: at most two actions. */
  function IssuesOf(s: Sys, l: Label): seq<P.Issue> {
    if l.Logins? then [P.LoginRequests(l.client)]
    else if IssuedBy(s, l).Some? then
      var key := IssuedBy(s, l).value;
      [P.TakeId(key.0), P.IssueRequest(key, RequestOf(s, l).value, key.1 + 1)]
    else []
  }

  lemma OneIssue(r: P.Registry, x: P.Issue)
    requires P.CanIssue(r, x)
    ensures P.RegistryPath(r, [x], P.DoIssue(r, x))
  {
    assert [x][1..] == [];
  }

  lemma TwoIssues(r: P.Registry, x: P.Issue, y: P.Issue)
    requires P.CanIssue(r, x) && P.CanIssue(P.DoIssue(r, x), y)
    ensures P.RegistryPath(r, [x, y], P.DoIssue(P.DoIssue(r, x), y))
  {
    OneIssue(P.DoIssue(r, x), y);
    assert [x, y][1..] == [y];
  }

  predicate Sends(l: Label) {
    l.SendsGet? || l.SendsWriteBack? || l.SendsQuery? || l.SendsWrite?
  }

  /** A step that sends does so under the client's next id. */
  lemma SendStepShape(s: Sys, l: Label, s1: Sys) returns (targets: set<ServerId>, phase: Phase)
    requires Step(s, l, s1) && Sends(l)
    ensures CanSend(s, l.op) && RequestOf(s, l).Some?
    ensures s1 == Send(s, l.op, RequestOf(s, l).value, targets, phase)
  {
    var p, id := s.ops[l.op].phase, NextId(s, l.op);
    targets, phase := s.servers.Keys, s1.ops[l.op].phase;
    if l.SendsWriteBack? {
      targets := s.servers.Keys - p.reading.agreeWithMax;
    }
  }

  lemma QuietReadRegistry(s: Sys, l: Label, s1: Sys)
    requires ReadStep(s, l, s1) && !Sends(l)
    ensures RegistryOf(s1) == RegistryOf(s)
  {
  }

  lemma QuietWriteRegistry(s: Sys, l: Label, s1: Sys)
    requires WriteStep(s, l, s1) && !Sends(l)
    ensures RegistryOf(s1) == RegistryOf(s)
  {
  }

  lemma QuietRegistry(s: Sys, l: Label, s1: Sys)
    requires Step(s, l, s1) && !l.Logins? && !Sends(l)
    ensures RegistryOf(s1) == RegistryOf(s)
  {
    if ReadStep(s, l, s1) {
      QuietReadRegistry(s, l, s1);
    } else if WriteStep(s, l, s1) {
      QuietWriteRegistry(s, l, s1);
    }
  }

  lemma SendMakesPath(s: Sys, i: OpId, request: Request, targets: set<ServerId>, phase: Phase)
    requires CanSend(s, i)
    ensures
      var key := (s.ops[i].client, NextId(s, i));
      P.RegistryPath(RegistryOf(s), [P.TakeId(key.0), P.IssueRequest(key, request, key.1 + 1)],
                     RegistryOf(Send(s, i, request, targets, phase)))
  {
    SendIsIssue(s, i, request, targets, phase);
    var key := (s.ops[i].client, NextId(s, i));
    TwoIssues(RegistryOf(s), P.TakeId(key.0), P.IssueRequest(key, request, key.1 + 1));
  }

  lemma SendPath(s: Sys, l: Label, s1: Sys, targets: set<ServerId>, phase: Phase)
    requires Sends(l) && CanSend(s, l.op) && RequestOf(s, l).Some?
    requires s1 == Send(s, l.op, RequestOf(s, l).value, targets, phase)
    ensures P.RegistryPath(RegistryOf(s), IssuesOf(s, l), RegistryOf(s1))
  {
    SendMakesPath(s, l.op, RequestOf(s, l).value, targets, phase);
  }

  lemma LoginPath(s: Sys, c: ClientId, s1: Sys)
    requires CountersOk(s) && Login(s, s1, c)
    ensures P.RegistryPath(RegistryOf(s), IssuesOf(s, Logins(c)), RegistryOf(s1))
  {
    OneIssue(RegistryOf(s), P.LoginRequests(c));
  }

  lemma StepIsRegistryPath(s: Sys, l: Label, s1: Sys)
    requires CountersOk(s) && Step(s, l, s1)
    ensures P.RegistryPath(RegistryOf(s), IssuesOf(s, l), RegistryOf(s1))
  {
    if l.Logins? {
      LoginPath(s, l.client, s1);
    } else if Sends(l) {
      var targets, phase := SendStepShape(s, l, s1);
      SendPath(s, l, s1, targets, phase);
    } else {
      QuietRegistry(s, l, s1);
    }
  }

  lemma RunStepIsRegistryPath(states: seq<Sys>, labels: seq<Label>, n: nat)
    requires IsRun(states, labels) && n < |labels|
    ensures P.RegistryPath(RegistryOf(states[n]), IssuesOf(states[n], labels[n]), RegistryOf(states[n + 1]))
  {
    RunKeeps(states, labels, n);
    StepIsRegistryPath(states[n], labels[n], states[n + 1]);
  }

  function RegistriesOf(states: seq<Sys>): (r: seq<P.Registry>)
    ensures |r| == |states| && forall n :: 0 <= n < |states| ==> r[n] == RegistryOf(states[n])
  {
    if states == [] then [] else RegistriesOf(states[..|states| - 1]) + [RegistryOf(states[|states| - 1])]
  }

  function AllIssues(states: seq<Sys>, labels: seq<Label>): (r: seq<seq<P.Issue>>)
    requires |labels| <= |states|
    ensures |r| == |labels| && forall n :: 0 <= n < |labels| ==> r[n] == IssuesOf(states[n], labels[n])
  {
    if labels == [] then []
    else AllIssues(states, labels[..|labels| - 1]) + [IssuesOf(states[|labels| - 1], labels[|labels| - 1])]
  }

  /** Every run of the protocol is a run of the request map. */
  lemma RunIsRegistryRun(states: seq<Sys>, labels: seq<Label>)
    returns (rs: seq<P.Registry>, actions: seq<P.Issue>, places: seq<nat>)
    requires IsRun(states, labels)
    ensures P.IsRegistryRun(rs, actions) && rs[|actions|] == RegistryOf(states[|labels|])
    ensures |places| == |states| && places[|labels|] == |actions|
    ensures forall n :: P.RegistryPlaced(AllIssues(states, labels), actions, places, n)
  {
    var ends, steps := RegistriesOf(states), AllIssues(states, labels);
    InitialLedger(states[0]);
    forall n | 0 <= n < |labels| ensures P.RegistryPath(ends[n], steps[n], ends[n + 1]) {
      RunStepIsRegistryPath(states, labels, n);
    }
    rs, actions, places := P.RegistryPathsMakeRun(ends, steps, |labels|);
  }

  /** No two steps of a run send under one client and id, and what was sent under it is
      on record for ever. */
  lemma NoIdIsUsedTwice(states: seq<Sys>, labels: seq<Label>, m: nat)
    requires IsRun(states, labels) && m < |labels| && IssuedBy(states[m], labels[m]).Some?
    ensures
      var key := IssuedBy(states[m], labels[m]).value;
      && key in states[|labels|].issued && Some(states[|labels|].issued[key]) == RequestOf(states[m], labels[m])
      && forall n :: m < n < |labels| ==> IssuedBy(states[n], labels[n]) != Some(key)
  {
    var rs, actions, places := RunIsRegistryRun(states, labels);
    var steps := AllIssues(states, labels);
    P.IssueAt(steps, actions, places, m, 1);
    P.NeverReissued(rs, actions, places[m] + 1, |actions|);
    forall n | m < n < |labels| ensures IssuedBy(states[n], labels[n]) != IssuedBy(states[m], labels[m]) {
      if IssuedBy(states[n], labels[n]).Some? {
        P.IssuePlacesInOrder(steps, actions, places, m + 1, n);
        P.IssueAt(steps, actions, places, n, 1);
        P.NeverReissued(rs, actions, places[m] + 1, places[n] + 1);
      }
    }
  }
}
