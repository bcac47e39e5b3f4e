/** How clients obtain numbers that are never given out twice: write timestamps and
    request ids. Each client has a counter; the permission to advance it is kept with
    the shared state, except while one client has taken it out. */
module Permissions {
  import opened Timestamps
  import opened Protocol

  /** `perm` holds the counters' permissions, each at its counter's value; the one of
      `missing` is out with its client. */
  datatype Counters = Counters(ctr: map<ClientId, nat>, perm: map<ClientId, nat>, missing: Option<ClientId>)

  ghost predicate CountersInv(k: Counters) {
    && (k.missing.Some? ==> k.missing.value in k.ctr && k.missing.value !in k.perm)
    && (forall c :: c in k.perm ==> c in k.ctr && k.perm[c] == k.ctr[c])
    && (forall c :: c in k.ctr ==> c in k.perm || k.missing == Some(c))
  }

  predicate CanEnter(k: Counters, c: ClientId) {
    k.missing.None? && c !in k.ctr
  }

  function Enter(k: Counters, c: ClientId): Counters {
    k.(ctr := k.ctr[c := 0], perm := k.perm[c := 0])
  }

  predicate CanTake(k: Counters, c: ClientId) {
    k.missing.None? && c in k.ctr
  }

  function Take(k: Counters, c: ClientId): Counters {
    k.(perm := k.perm - {c}, missing := Some(c))
  }

  /** A permission comes back only after it was advanced. */
  predicate CanPut(k: Counters, c: ClientId, value: nat) {
    k.missing == Some(c) && c in k.ctr && k.ctr[c] < value
  }

  function Put(k: Counters, c: ClientId, value: nat): Counters {
    Counters(k.ctr[c := value], k.perm[c := value], None)
  }

  /** A permission taken out and put back, with nothing in between. */
  lemma TakeAndPut(k: Counters, c: ClientId, value: nat)
    requires CanTake(k, c) && k.ctr[c] < value
    ensures CanPut(Take(k, c), c, value)
    ensures Put(Take(k, c), c, value) == Counters(k.ctr[c := value], k.perm[c := value], None)
  {
    assert (k.perm - {c})[c := value] == k.perm[c := value];
  }

  /** Counters are never taken back. */
  ghost predicate CountersGrow(k: Counters, k1: Counters) {
    forall c :: c in k.ctr ==> c in k1.ctr && k.ctr[c] <= k1.ctr[c]
  }

  // ------------------------------------------------------------ timestamps

  datatype Ledger = Ledger(counters: Counters, allocations: map<Timestamp, Value>)

  const NEW_LEDGER := Ledger(Counters(map[0 := 1], map[0 := 1], None), map[DEFAULT := None])

  /** What clients do: client 0, who owns the default timestamp, never does anything. */
  datatype Action =
    | Login(client: ClientId)
    | TakePermission(client: ClientId)
    | AllocValue(ts: Timestamp, value: Value, perm: nat)
    | ReturnPermission(client: ClientId, perm: nat)
    | RemoveAllocation(ts: Timestamp)

  predicate Allowed(l: Ledger, a: Action) {
    match a
    case Login(c) => CanEnter(l.counters, c)
    case TakePermission(c) => CanTake(l.counters, c) && c != 0
    case AllocValue(ts, _, perm) => CanPut(l.counters, ts.clientId, perm) && ts.clientCtr == l.counters.ctr[ts.clientId]
    case ReturnPermission(c, perm) => CanPut(l.counters, c, perm)
    case RemoveAllocation(ts) => l.counters.missing.None? && ts in l.allocations && ts.clientId != 0
  }

  function Perform(l: Ledger, a: Action): Ledger
    requires Allowed(l, a)
  {
    match a
    case Login(c) => l.(counters := Enter(l.counters, c))
    case TakePermission(c) => l.(counters := Take(l.counters, c))
    case AllocValue(ts, value, perm) => Ledger(Put(l.counters, ts.clientId, perm), l.allocations[ts := value])
    case ReturnPermission(c, perm) => l.(counters := Put(l.counters, c, perm))
    case RemoveAllocation(ts) => l.(allocations := l.allocations - {ts})
  }

  /** An allocated timestamp carries a counter that its client has passed. */
  ghost predicate LedgerInv(l: Ledger) {
    && CountersInv(l.counters)
    && l.counters.missing != Some(0) && 0 in l.counters.ctr
    && DEFAULT in l.allocations && l.allocations[DEFAULT] == None
    && (forall ts :: ts in l.allocations ==>
        ts.clientId in l.counters.ctr && ts.clientCtr < l.counters.ctr[ts.clientId])
  }

  lemma PerformKeeps(l: Ledger, a: Action)
    requires LedgerInv(l) && Allowed(l, a)
    ensures LedgerInv(Perform(l, a)) && CountersGrow(l.counters, Perform(l, a).counters)
    ensures a.AllocValue? ==> a.ts !in l.allocations
  {
  }

  ghost predicate IsLedgerRun(ledgers: seq<Ledger>, actions: seq<Action>) {
    && |ledgers| == |actions| + 1
    && ledgers[0] == NEW_LEDGER
    && forall n :: 0 <= n < |actions| ==>
        Allowed(ledgers[n], actions[n]) && ledgers[n + 1] == Perform(ledgers[n], actions[n])
  }

  lemma {:induction false} LedgerRunKeeps(ledgers: seq<Ledger>, actions: seq<Action>, n: nat)
    requires IsLedgerRun(ledgers, actions) && n < |ledgers|
    ensures LedgerInv(ledgers[n])
  {
    if n > 0 {
      LedgerRunKeeps(ledgers, actions, n - 1);
      PerformKeeps(ledgers[n - 1], actions[n - 1]);
    }
  }

  lemma CountersGrowTransitive(k0: Counters, k1: Counters, k2: Counters)
    requires CountersGrow(k0, k1) && CountersGrow(k1, k2)
    ensures CountersGrow(k0, k2)
  {
  }

  lemma {:induction false} LedgerCountersGrow(ledgers: seq<Ledger>, actions: seq<Action>, m: nat, n: nat)
    requires IsLedgerRun(ledgers, actions) && m <= n < |ledgers|
    ensures CountersGrow(ledgers[m].counters, ledgers[n].counters)
    decreases n - m
  {
    if m < n {
      LedgerCountersGrow(ledgers, actions, m, n - 1);
      LedgerRunKeeps(ledgers, actions, n - 1);
      PerformKeeps(ledgers[n - 1], actions[n - 1]);
      CountersGrowTransitive(ledgers[m].counters, ledgers[n - 1].counters, ledgers[n].counters);
    }
  }

  /** No timestamp is allocated twice in a run, not even when the first allocation was
      removed in between; and none is ever the default timestamp. */
  lemma NeverAllocatedTwice(ledgers: seq<Ledger>, actions: seq<Action>, m: nat, n: nat)
    requires IsLedgerRun(ledgers, actions) && m < n < |actions|
    requires actions[m].AllocValue? && actions[n].AllocValue?
    ensures actions[m].ts != actions[n].ts
    ensures actions[m].ts != DEFAULT
  {
    LedgerRunKeeps(ledgers, actions, m);
    LedgerCountersGrow(ledgers, actions, m + 1, n);
    PerformKeeps(ledgers[m], actions[m]);
    assert actions[m].ts.clientCtr < ledgers[m + 1].counters.ctr[actions[m].ts.clientId];
  }

  /** The actions lead from one ledger to the other, each allowed when it is taken. */
  ghost predicate LedgerPath(l: Ledger, actions: seq<Action>, l1: Ledger)
    decreases |actions|
  {
    if actions == [] then l1 == l
    else Allowed(l, actions[0]) && LedgerPath(Perform(l, actions[0]), actions[1..], l1)
  }

  lemma {:induction false} ExtendLedgerRun(ledgers: seq<Ledger>, actions: seq<Action>, more: seq<Action>, l1: Ledger)
    returns (ledgers1: seq<Ledger>)
    requires IsLedgerRun(ledgers, actions) && LedgerPath(ledgers[|actions|], more, l1)
    ensures IsLedgerRun(ledgers1, actions + more) && ledgers1[|actions + more|] == l1
    decreases |more|
  {
    if more == [] {
      assert actions + more == actions;
      ledgers1 := ledgers;
    } else {
      var next := Perform(ledgers[|actions|], more[0]);
      ledgers1 := ExtendLedgerRun(ledgers + [next], actions + [more[0]], more[1..], l1);
      assert actions + [more[0]] + more[1..] == actions + more;
    }
  }

  /** The actions of each step stand together, at their places, among all actions. */
  ghost predicate LedgerPlaced(steps: seq<seq<Action>>, actions: seq<Action>, places: seq<nat>, n: nat) {
    n < |steps| && n + 1 < |places| ==>
      places[n] <= places[n + 1] <= |actions| && actions[places[n]..places[n + 1]] == steps[n]
  }

  lemma LedgerStaysPlaced(steps: seq<seq<Action>>, actions: seq<Action>, places: seq<nat>, more: seq<Action>, n: nat)
    requires 0 < |places| <= |steps| && places[|places| - 1] == |actions| && more == steps[|places| - 1]
    requires LedgerPlaced(steps, actions, places, n)
    ensures LedgerPlaced(steps, actions + more, places + [|actions| + |more|], n)
  {
    var places1 := places + [|actions| + |more|];
    if n + 1 < |places| {
      assert places1[n] == places[n] && places1[n + 1] == places[n + 1];
      assert (actions + more)[places[n]..places[n + 1]] == actions[places[n]..places[n + 1]];
    } else if n + 1 == |places| {
      assert (actions + more)[|actions|..] == more;
    }
  }

  /** Paths that follow one another make up a run. */
  lemma {:induction false} LedgerPathsMakeRun(ends: seq<Ledger>, steps: seq<seq<Action>>, n: nat)
    returns (ledgers: seq<Ledger>, actions: seq<Action>, places: seq<nat>)
    requires |ends| == |steps| + 1 && ends[0] == NEW_LEDGER && n < |ends|
    requires forall k :: 0 <= k < |steps| ==> LedgerPath(ends[k], steps[k], ends[k + 1])
    ensures IsLedgerRun(ledgers, actions) && ledgers[|actions|] == ends[n]
    ensures |places| == n + 1 && places[n] == |actions|
    ensures forall k :: LedgerPlaced(steps, actions, places, k)
  {
    if n == 0 {
      ledgers, actions, places := [NEW_LEDGER], [], [0];
    } else {
      ledgers, actions, places := LedgerPathsMakeRun(ends, steps, n - 1);
      var more := steps[n - 1];
      ledgers := ExtendLedgerRun(ledgers, actions, more, ends[n]);
      var actions1, places1 := actions + more, places + [|actions| + |more|];
      forall k: nat ensures LedgerPlaced(steps, actions1, places1, k) {
        assert LedgerPlaced(steps, actions, places, k);
        LedgerStaysPlaced(steps, actions, places, more, k);
      }
      actions, places := actions1, places1;
    }
  }

  /** Later steps stand at later places. */
  lemma {:induction false} PlacesInOrder(steps: seq<seq<Action>>, actions: seq<Action>, places: seq<nat>, m: nat,
                                         n: nat)
    requires |places| == |steps| + 1 && m <= n < |places| && forall k :: LedgerPlaced(steps, actions, places, k)
    ensures places[m] <= places[n]
    decreases n - m
  {
    if m < n {
      PlacesInOrder(steps, actions, places, m, n - 1);
      assert LedgerPlaced(steps, actions, places, n - 1);
    }
  }

  lemma ActionAt(steps: seq<seq<Action>>, actions: seq<Action>, places: seq<nat>, n: nat, i: nat)
    requires |places| == |steps| + 1 && n < |steps| && i < |steps[n]| && LedgerPlaced(steps, actions, places, n)
    ensures places[n] + i < places[n + 1] <= |actions| && actions[places[n] + i] == steps[n][i]
  {
    assert actions[places[n]..places[n + 1]][i] == actions[places[n] + i];
  }

  /** Two steps of a run never allocate the same timestamp. */
  lemma PlacedNeverTwice(ledgers: seq<Ledger>, steps: seq<seq<Action>>, actions: seq<Action>, places: seq<nat>,
                         m: nat, n: nat)
    requires IsLedgerRun(ledgers, actions) && |places| == |steps| + 1 && m < n < |steps|
    requires forall k :: LedgerPlaced(steps, actions, places, k)
    requires |steps[m]| > 1 && steps[m][1].AllocValue? && |steps[n]| > 1 && steps[n][1].AllocValue?
    ensures steps[m][1].ts != steps[n][1].ts
  {
    PlacesInOrder(steps, actions, places, m + 1, n);
    ActionAt(steps, actions, places, m, 1);
    ActionAt(steps, actions, places, n, 1);
    NeverAllocatedTwice(ledgers, actions, places[m] + 1, places[n] + 1);
  }

  class Commitments {
    var allocations: map<Timestamp, Value>
    var ctr: map<ClientId, nat>
    var perm: map<ClientId, nat>
    var missing: Option<ClientId>

    function Contents(): Ledger
      reads this
    {
      Ledger(Counters(ctr, perm, missing), allocations)
    }

    constructor ()
      ensures Contents() == NEW_LEDGER && LedgerInv(Contents())
    {
      allocations, ctr, perm, missing := map[DEFAULT := None], map[0 := 1], map[0 := 1], None;
    }

    method LoginClient(c: ClientId)
      requires LedgerInv(Contents()) && Allowed(Contents(), Login(c))
      modifies this
      ensures LedgerInv(Contents()) && Contents() == Perform(old(Contents()), Login(c))
      ensures c !in old(ctr) && ctr == old(ctr)[c := 0] && perm == old(perm)[c := 0]
      ensures missing == old(missing) && allocations == old(allocations)
    {
      PerformKeeps(Contents(), Login(c));
      perm := perm[c := 0];
      ctr := ctr[c := 0];
    }

    /** The permission is at the client's counter. */
    method TakeOut(c: ClientId) returns (value: nat)
      requires LedgerInv(Contents()) && Allowed(Contents(), TakePermission(c))
      modifies this`perm, this`missing
      ensures LedgerInv(Contents()) && Contents() == Perform(old(Contents()), TakePermission(c))
      ensures c in ctr && value == ctr[c] && missing == Some(c) && perm == old(perm) - {c}
    {
      PerformKeeps(Contents(), TakePermission(c));
      value := perm[c];
      perm := perm - {c};
      missing := Some(c);
    }

    method Alloc(ts: Timestamp, value: Value, advanced: nat)
      requires LedgerInv(Contents()) && Allowed(Contents(), AllocValue(ts, value, advanced))
      modifies this
      ensures LedgerInv(Contents()) && Contents() == Perform(old(Contents()), AllocValue(ts, value, advanced))
      ensures ts !in old(allocations) && allocations == old(allocations)[ts := value] && missing.None?
      ensures ctr == old(ctr)[ts.clientId := advanced] && perm == old(perm)[ts.clientId := advanced]
      ensures ts.clientCtr < advanced
    {
      PerformKeeps(Contents(), AllocValue(ts, value, advanced));
      ctr := ctr[ts.clientId := advanced];
      perm := perm[ts.clientId := advanced];
      missing := None;
      allocations := allocations[ts := value];
    }

    method GiveBack(c: ClientId, advanced: nat)
      requires LedgerInv(Contents()) && Allowed(Contents(), ReturnPermission(c, advanced))
      modifies this`ctr, this`perm, this`missing
      ensures LedgerInv(Contents()) && Contents() == Perform(old(Contents()), ReturnPermission(c, advanced))
      ensures ctr == old(ctr)[c := advanced] && perm == old(perm)[c := advanced] && missing.None?
    {
      PerformKeeps(Contents(), ReturnPermission(c, advanced));
      ctr := ctr[c := advanced];
      perm := perm[c := advanced];
      missing := None;
    }

    method Remove(ts: Timestamp)
      requires LedgerInv(Contents()) && Allowed(Contents(), RemoveAllocation(ts))
      modifies this`allocations
      ensures LedgerInv(Contents()) && Contents() == Perform(old(Contents()), RemoveAllocation(ts))
      ensures allocations == old(allocations) - {ts}
    {
      PerformKeeps(Contents(), RemoveAllocation(ts));
      allocations := allocations - {ts};
    }
  }

  // ------------------------------------------------------------ request ids

  datatype Registry = Registry(counters: Counters, issued: map<RequestKey, Request>)

  const NEW_REGISTRY := Registry(Counters(map[], map[], None), map[])

  datatype Issue =
    | LoginRequests(client: ClientId)
    | TakeId(client: ClientId)
    | IssueRequest(key: RequestKey, request: Request, perm: nat)

  predicate CanIssue(r: Registry, a: Issue) {
    match a
    case LoginRequests(c) => CanEnter(r.counters, c)
    case TakeId(c) => CanTake(r.counters, c)
    case IssueRequest(key, _, perm) => CanPut(r.counters, key.0, perm) && key.1 == r.counters.ctr[key.0]
  }

  function DoIssue(r: Registry, a: Issue): Registry
    requires CanIssue(r, a)
  {
    match a
    case LoginRequests(c) => r.(counters := Enter(r.counters, c))
    case TakeId(c) => r.(counters := Take(r.counters, c))
    case IssueRequest(key, request, perm) => Registry(Put(r.counters, key.0, perm), r.issued[key := request])
  }

  ghost predicate RegistryInv(r: Registry) {
    && CountersInv(r.counters)
    && (forall key :: key in r.issued ==> key.0 in r.counters.ctr && key.1 < r.counters.ctr[key.0])
  }

  /** What was issued under an id stays what it was. */
  ghost predicate IssuedGrow(r: Registry, r1: Registry) {
    forall key :: key in r.issued ==> key in r1.issued && r1.issued[key] == r.issued[key]
  }

  lemma IssueKeeps(r: Registry, a: Issue)
    requires RegistryInv(r) && CanIssue(r, a)
    ensures RegistryInv(DoIssue(r, a)) && CountersGrow(r.counters, DoIssue(r, a).counters)
    ensures IssuedGrow(r, DoIssue(r, a))
    ensures a.IssueRequest? ==> a.key !in r.issued
  {
  }

  ghost predicate IsRegistryRun(rs: seq<Registry>, actions: seq<Issue>) {
    && |rs| == |actions| + 1
    && rs[0] == NEW_REGISTRY
    && forall n :: 0 <= n < |actions| ==> CanIssue(rs[n], actions[n]) && rs[n + 1] == DoIssue(rs[n], actions[n])
  }

  lemma {:induction false} RegistryRunKeeps(rs: seq<Registry>, actions: seq<Issue>, n: nat)
    requires IsRegistryRun(rs, actions) && n < |rs|
    ensures RegistryInv(rs[n])
  {
    if n > 0 {
      RegistryRunKeeps(rs, actions, n - 1);
      IssueKeeps(rs[n - 1], actions[n - 1]);
    }
  }

  lemma {:induction false} RegistryGrows(rs: seq<Registry>, actions: seq<Issue>, m: nat, n: nat)
    requires IsRegistryRun(rs, actions) && m <= n < |rs|
    ensures IssuedGrow(rs[m], rs[n])
    decreases n - m
  {
    if m < n {
      RegistryGrows(rs, actions, m, n - 1);
      RegistryRunKeeps(rs, actions, n - 1);
      IssueKeeps(rs[n - 1], actions[n - 1]);
      IssuedGrowTransitive(rs[m], rs[n - 1], rs[n]);
    }
  }

  lemma IssuedGrowTransitive(r0: Registry, r1: Registry, r2: Registry)
    requires IssuedGrow(r0, r1) && IssuedGrow(r1, r2)
    ensures IssuedGrow(r0, r2)
  {
  }

  /** A client never issues two requests under one id, and the request under an id is
      for ever the one that was issued. */
  lemma NeverReissued(rs: seq<Registry>, actions: seq<Issue>, m: nat, n: nat)
    requires IsRegistryRun(rs, actions) && m < |actions| && actions[m].IssueRequest?
    requires m < n < |rs|
    ensures actions[m].key in rs[n].issued && rs[n].issued[actions[m].key] == actions[m].request
    ensures n < |actions| && actions[n].IssueRequest? ==> actions[n].key != actions[m].key
  {
    RegistryGrows(rs, actions, m + 1, n);
    if n < |actions| {
      RegistryRunKeeps(rs, actions, n);
      IssueKeeps(rs[n], actions[n]);
    }
  }

  ghost predicate RegistryPath(r: Registry, actions: seq<Issue>, r1: Registry)
    decreases |actions|
  {
    if actions == [] then r1 == r
    else CanIssue(r, actions[0]) && RegistryPath(DoIssue(r, actions[0]), actions[1..], r1)
  }

  lemma {:induction false} ExtendRegistryRun(rs: seq<Registry>, actions: seq<Issue>, more: seq<Issue>, r1: Registry)
    returns (rs1: seq<Registry>)
    requires IsRegistryRun(rs, actions) && RegistryPath(rs[|actions|], more, r1)
    ensures IsRegistryRun(rs1, actions + more) && rs1[|actions + more|] == r1
    decreases |more|
  {
    if more == [] {
      assert actions + more == actions;
      rs1 := rs;
    } else {
      var next := DoIssue(rs[|actions|], more[0]);
      rs1 := ExtendRegistryRun(rs + [next], actions + [more[0]], more[1..], r1);
      assert actions + [more[0]] + more[1..] == actions + more;
    }
  }

  /** The actions of each step stand together, at their places, among all actions. */
  ghost predicate RegistryPlaced(steps: seq<seq<Issue>>, actions: seq<Issue>, places: seq<nat>, n: nat) {
    n < |steps| && n + 1 < |places| ==>
      places[n] <= places[n + 1] <= |actions| && actions[places[n]..places[n + 1]] == steps[n]
  }

  lemma RegistryStaysPlaced(steps: seq<seq<Issue>>, actions: seq<Issue>, places: seq<nat>, more: seq<Issue>, n: nat)
    requires 0 < |places| <= |steps| && places[|places| - 1] == |actions| && more == steps[|places| - 1]
    requires RegistryPlaced(steps, actions, places, n)
    ensures RegistryPlaced(steps, actions + more, places + [|actions| + |more|], n)
  {
    var places1 := places + [|actions| + |more|];
    if n + 1 < |places| {
      assert places1[n] == places[n] && places1[n + 1] == places[n + 1];
      assert (actions + more)[places[n]..places[n + 1]] == actions[places[n]..places[n + 1]];
    } else if n + 1 == |places| {
      assert (actions + more)[|actions|..] == more;
    }
  }

  /** Paths that follow one another make up a run. */
  lemma {:induction false} RegistryPathsMakeRun(ends: seq<Registry>, steps: seq<seq<Issue>>, n: nat)
    returns (rs: seq<Registry>, actions: seq<Issue>, places: seq<nat>)
    requires |ends| == |steps| + 1 && ends[0] == NEW_REGISTRY && n < |ends|
    requires forall k :: 0 <= k < |steps| ==> RegistryPath(ends[k], steps[k], ends[k + 1])
    ensures IsRegistryRun(rs, actions) && rs[|actions|] == ends[n]
    ensures |places| == n + 1 && places[n] == |actions|
    ensures forall k :: RegistryPlaced(steps, actions, places, k)
  {
    if n == 0 {
      rs, actions, places := [NEW_REGISTRY], [], [0];
    } else {
      rs, actions, places := RegistryPathsMakeRun(ends, steps, n - 1);
      var more := steps[n - 1];
      rs := ExtendRegistryRun(rs, actions, more, ends[n]);
      var actions1, places1 := actions + more, places + [|actions| + |more|];
      forall k: nat ensures RegistryPlaced(steps, actions1, places1, k) {
        assert RegistryPlaced(steps, actions, places, k);
        RegistryStaysPlaced(steps, actions, places, more, k);
      }
      actions, places := actions1, places1;
    }
  }

  /** Later steps stand at later places. */
  lemma {:induction false} IssuePlacesInOrder(steps: seq<seq<Issue>>, actions: seq<Issue>, places: seq<nat>, m: nat,
                                              n: nat)
    requires |places| == |steps| + 1 && m <= n < |places| && forall k :: RegistryPlaced(steps, actions, places, k)
    ensures places[m] <= places[n]
    decreases n - m
  {
    if m < n {
      IssuePlacesInOrder(steps, actions, places, m, n - 1);
      assert RegistryPlaced(steps, actions, places, n - 1);
    }
  }

  lemma IssueAt(steps: seq<seq<Issue>>, actions: seq<Issue>, places: seq<nat>, n: nat, i: nat)
    requires |places| == |steps| + 1 && n < |steps| && i < |steps[n]| && RegistryPlaced(steps, actions, places, n)
    ensures places[n] + i < places[n + 1] <= |actions| && actions[places[n] + i] == steps[n][i]
  {
    assert actions[places[n]..places[n + 1]][i] == actions[places[n] + i];
  }

  class RequestMap {
    var issued: map<RequestKey, Request>
    var ctr: map<ClientId, nat>
    var perm: map<ClientId, nat>
    var missing: Option<ClientId>

    function Contents(): Registry
      reads this
    {
      Registry(Counters(ctr, perm, missing), issued)
    }

    constructor ()
      ensures Contents() == NEW_REGISTRY && RegistryInv(Contents())
    {
      issued, ctr, perm, missing := map[], map[], map[], None;
    }

    method LoginClient(c: ClientId)
      requires RegistryInv(Contents()) && CanIssue(Contents(), LoginRequests(c))
      modifies this`ctr, this`perm
      ensures RegistryInv(Contents()) && Contents() == DoIssue(old(Contents()), LoginRequests(c))
      ensures c !in old(ctr) && ctr == old(ctr)[c := 0] && perm == old(perm)[c := 0]
    {
      IssueKeeps(Contents(), LoginRequests(c));
      perm := perm[c := 0];
      ctr := ctr[c := 0];
    }

    method TakeOut(c: ClientId) returns (value: nat)
      requires RegistryInv(Contents()) && CanIssue(Contents(), TakeId(c))
      modifies this`perm, this`missing
      ensures RegistryInv(Contents()) && Contents() == DoIssue(old(Contents()), TakeId(c))
      ensures c in ctr && value == ctr[c] && missing == Some(c) && perm == old(perm) - {c}
    {
      IssueKeeps(Contents(), TakeId(c));
      value := perm[c];
      perm := perm - {c};
      missing := Some(c);
    }

    method IssueProof(key: RequestKey, request: Request, advanced: nat)
      requires RegistryInv(Contents()) && CanIssue(Contents(), IssueRequest(key, request, advanced))
      modifies this
      ensures RegistryInv(Contents()) && Contents() == DoIssue(old(Contents()), IssueRequest(key, request, advanced))
      ensures key !in old(issued) && IssuedGrow(old(Contents()), Contents())
      ensures issued == old(issued)[key := request] && missing.None? && key.1 < advanced
      ensures ctr == old(ctr)[key.0 := advanced] && perm == old(perm)[key.0 := advanced]
    {
      IssueKeeps(Contents(), IssueRequest(key, request, advanced));
      ctr := ctr[key.0 := advanced];
      perm := perm[key.0 := advanced];
      missing := None;
      issued := issued[key := request];
    }
  }
}
