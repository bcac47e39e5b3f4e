# A multi-writer ABD register, verified

The system is a replicated register. Servers keep one value with the largest timestamp
they have seen. A client reads by asking a majority for value and timestamp and, unless a
majority already agrees on the largest, writes the largest back to those behind it; it
writes by asking a majority for timestamps, taking the next sequence number above them
together with its own id and a counter that it never uses twice, and pushing the value to
a majority. Messages may be delayed, reordered, duplicated or lost; operations may fail
half-way; a client may have several operations under way.

The main result is that **every finite run is linearizable**
(`Linearizability.EveryRunIsLinearizable`): the completed operations, together with some
of the unfinished or failed ones, have an order that respects real time and in which every
read returns the last value written before it. The order is that of a linearization queue,
shared by all clients, on which an operation is placed when it begins, under a prophecy of
what it will resolve to, and taken through by whichever client first gets that far. The
theorem itself needs no prophecy: the oracle is read off the end of the run.

Beside safety stands what makes it worth having: **no reachable state is stuck**
(`Availability.EveryRunCanBeCompleted`). Whatever failed before, any majority of the
servers suffices to bring every operation under way to return.

How the files build on one another:

| file | contents |
|---|---|
| `Timestamps.dfy`, `Quorums.dfy` | the order of timestamps; majorities, intersection, monotonicity |
| `ReadPhases.dfy`, `WritePhases.dfy` | the reply accumulators as values, and what a quorum of replies proves |
| `Accumulators.dfy` | the accumulators changed in place; any sequence of replies |
| `Protocol.dfy`, `ProtocolInv.dfy` | the step system, and what every step keeps |
| `StepEffects.dfy` | what each step does, told on the states before and after, and exactly when it can be taken |
| `LinQueueSpec.dfy`, `LinQueueProof.dfy`, `LinQueueTheorems.dfy`, `LinQueueFrames.dfy` | the linearization queue as a value: invariants, effects, what it leaves alone |
| `LinearizationQueue.dfy` | the queue changed in place |
| `SharedState.dfy`, `SharedSteps.dfy`, `SharedRuns.dfy` | the state all clients share, the global invariant, and that every step keeps it |
| `Linearizability.dfy`, `RunTheorems.dfy` | theorems about whole runs |
| `Permissions.dfy`, `Refinement.dfy` | commitments and request ids, and the protocol's steps as their actions |
| `ServerRegister.dfy` | a server's register, dispatch and polling round |
| `Channels.dfy`, `WaitFor.dfy` | receiving by tag, polling a pool, waiting for a quorum |
| `GivingUp.dfy` | exactly when a wait gives up, and when it does so too soon |
| `WaitSteps.dfy` | a wait's counted replies as steps of the protocol |
| `Availability.dfy` | any majority of the servers can bring every operation to return |
| `MonotonicTimestamps.dfy` | the resource algebra of timestamps that only grow |

The design: operations are functions on values, steps are predicates, and an invariant is a
family of predicates, one for each timestamp, token, message or operation, so that a step
is checked only where it changed something. What the code changes in place is a class
whose methods are proved equal to those functions.

Where the code and the claims about it differ, the code is followed. The
`cmp_spec` of timestamps (abd/src/timestamp.rs:38-40) calls two timestamps of one client
with one sequence number equal whatever their counters; the executable order and
`partial_cmp_spec` do not, and they are what is modelled. The errors of reads and writes are
documented as raised only when a quorum is known to be unattainable
(abd/src/client/error.rs:19-20, 39-40). The code gives up when replies and errors add up to
the number of channels, and one channel may be counted for both. `GivingUp.GivesUpTooSoon`
exhibits a wait that gives up without having heard from a channel that would have completed
the quorum at the next poll; `GivingUp.GivesUpIff`, `GivingUp.GivesUpUnheardIff` and
`GivingUp.GivesUpTooSoonIff` give the exact conditions on what the channels answer, and
`GivingUp.FinalErrorsJustifyGivingUp` proves the documented claim where no channel answers
both with a reply and with an error.

Nothing was executed; the statements below are theorems about the model.

## Model

| member | source | states |
|---|---|---|
| Linearizability.EveryRunIsLinearizable | abd/src/client/mod.rs:219-936 | for every finite run there is a log that is a legal sequential register history of operations of the run, each at most once, holding every completed operation with its result, respecting real-time order, and in timestamp order |
| Linearizability.RunAccompanied | abd/src/invariants/mod.rs:83-113 | for any oracle that agrees with the end of a run, the shared state has a run beside it whose every step is the client's own and in which the global invariant holds throughout |
| Linearizability.MarkedIsLinearization | specs/src/register.rs:102-217 | the log of applied linearizers linearizes the history, given where in the log each invocation and return happened |
| Linearizability.StaleReadsAreNotLinearizable | specs/src/register.rs:102-217 | the notion excludes what it should: no log linearizes a history in which a read begins after a write returned and still returns the initial value |
| Linearizability.MarkedRealTime | abd/src/client/mod.rs:229-255 | an operation that returned before another was invoked has its entry before the other's |
| Linearizability.ForetoldThroughout | abd/src/client/mod.rs:347-347 | what an operation resolves to never changes, so an oracle right about the end of a run was right all along |
| Availability.EveryRunCanBeCompleted | abd/src/client/mod.rs:219-936 | from every reachable state, with any majority of the servers and no further client or operation, the run goes on until every operation has ended, each one under way by returning, and the run that results is linearizable |
| Availability.EveryOperationCanReturn | abd/src/client/mod.rs:219-936 | from every reachable state any operation under way, whatever its phase, can be brought to return by its own steps and those of any majority of the servers: no other operation and no other server can prevent it |
| Availability.NewOperationsCanReturn | abd/src/client/mod.rs:219-936 | any client that has logged in can at any moment begin a read or a write, which any majority can bring to return |
| Availability.MajorityMakesReady | abd/src/client/mod.rs:313-484 | an operation that waits gets what it waits for from any servers that, with those already heard from or known to agree, make a majority |
| Availability.RequestsAreUnderWay | verdist/src/pool/broadcast_pool.rs:45-134 | at every moment of a run the request that an operation waits on is under way to every server it has not heard from and does not know to agree |
| Availability.ServeAndTake | abd/src/server/mod.rs:405-425 | each such server can answer it, and the operation, taking the answer, has heard from exactly one server more |
| RunTheorems.StepsHaveTheirEffects | abd/src/client/mod.rs:219-936 | every step of a run does this and nothing else, told without the functions that define the steps: to whom a request goes and what it asks, what a server answers, which reply is counted, which timestamp is chosen, what an event records |
| RunTheorems.WriteBacksReachThoseBehind | abd/src/client/mod.rs:467-475 | in every run a write-back is sent to exactly the servers that did not report the largest reading: those that reported less, and those that have not been heard |
| StepEffects.SendWriteBackEffect | abd/src/client/mod.rs:417-475 | under the client's next id the largest reading, with its value and timestamp, goes to every server not counted as agreeing and to no other |
| StepEffects.SendGetEffect | abd/src/client/mod.rs:256-318 | the get request goes to every server under the client's next id, with the snapshot of the beginning |
| StepEffects.SendQueryEffect | abd/src/client/mod.rs:630-694 | likewise the request for timestamps |
| StepEffects.SendWriteEffect | abd/src/client/mod.rs:790-869 | likewise the write, with the operation's own value and the chosen timestamp |
| StepEffects.ChooseEffect | abd/src/client/mod.rs:745-748 | the chosen timestamp has the client's id and the write's counter, and a sequence number one above that of a counted reply and above those of all |
| StepEffects.ServeEffect | abd/src/server/mod.rs:405-425 | the one new message is the server's reply to the client, under the request's id: value and timestamp as they are to a get, the timestamp to a query, and to a write a bound that covers it; no other server changes |
| StepEffects.TakeReadingEffect | abd/src/client/net_invs/read.rs:808-972 | only a delivered reply under the awaited id is taken; a server's first reading is counted, and becomes the largest exactly if it is larger than the one held |
| StepEffects.FinishReadEffect | abd/src/client/mod.rs:371-546 | a read that finishes returns the value and timestamp of its largest reading, and sends nothing more |
| StepEffects.ReadDecides | abd/src/client/mod.rs:371-417 | with the readings of a majority, and only then, a read returns at once if a majority agrees with the largest and writes back if not |
| StepEffects.WriteBackDecides | abd/src/client/mod.rs:473-506 | a write-back can finish if and only if a majority agrees, of either round |
| StepEffects.QueryDecides | abd/src/client/mod.rs:684-749 | a write can choose if and only if a majority has replied |
| StepEffects.AcksDecide | abd/src/client/mod.rs:856-936 | a write can finish if and only if a majority has acknowledged it |
| StepEffects.ServeDecides | abd/src/server/mod.rs:405-425 | a server can serve exactly what was ever sent to it |
| RunTheorems.LaterOperationsAreNewer | abd/src/client/mod.rs:372-749 | if an operation returned with timestamp t before another began, the other, if a read, returns a timestamp at or above t, and if a write, chooses one strictly above t, even if it later fails; reads may have finished in one round or two |
| RunTheorems.EveryRunIsAccompanied | abd/src/invariants/mod.rs:83-113 | every run has an oracle and a run of the shared state beside it under which the global invariant always holds; at every moment the register holds the value at the watermark and the last one logged, the queue's timestamps are the allocated ones, the watermark is at most the largest timestamp of every majority, and every replica's pair is allocated; the final log linearizes the history |
| RunTheorems.MajorityIsForever | abd/src/invariants/quorum/server_universe.rs:670-748 | once a majority is at or above t, it stays there and every majority has a timestamp at or above t in every later state of the run, for any server set |
| RunTheorems.ServersProgress | abd/src/server/register.rs:246-328 | between any two moments of a run no server's timestamp has gone down and the set of servers is the same |
| RunTheorems.TimestampsAreChosenOnce | abd/src/client/mod.rs:738-749 | in a run no two writes, each at any moment, have chosen the same timestamp, also not one that failed and its retry |
| RunTheorems.TimestampsDetermineValues | abd/src/invariants/committed_to.rs:278-571 | in every reachable state any two replicas, write requests or readings with equal timestamps carry equal values |
| RunTheorems.RepliesAnswerTheRequest | abd/src/proto/response.rs:297-313 | at every moment of a run a reply delivered to an operation under the id it waits for has the kind of that request, comes from a server of the snapshot, lies between the snapshot and the server, and if an acknowledgement covers the written timestamp |
| RunTheorems.ViewsAreLowerBounds | abd/src/invariants/quorum/server_universe.rs:872-930 | at every moment of a run a client's view is pointwise at or above the snapshot sent with its request, and at or below the servers of that and of every later moment |
| RunTheorems.HistoriesAreWellFormed | abd/src/client/mod.rs:219-936 | each operation has one invocation and afterwards at most one return or failure |
| RunTheorems.FailuresAreToldTheTruth | abd/src/client/mod.rs:318-732 | an operation that gives up and is given its linearizer back is in no log ever after, the linearization of the whole run included; one that is given the completion is in every log ever after |
| RunTheorems.CompletionsLeaveTheQueue | abd/src/invariants/lin_queue/mod.rs:924-1110 | at every moment of an accompanied run the queue holds no token of an operation that has returned, or failed and been given back what it put in, so each completion is handed out once |
| SharedRuns.GlobalStep | abd/src/client/mod.rs:219-936 | the global invariant is inductive: every client and server step whose resolution was prophesied has a matching step of the shared state that keeps it |
| SharedRuns.StepShape | abd/src/client/mod.rs:219-936 | a step begins, ends or moves one operation, never one that has ended, and never changes a resolution |
| SharedRuns.ForetoldBefore | abd/src/client/mod.rs:748-749 | an oracle that agrees with the state after a step agrees with the state before |
| SharedSteps.ResolvedWasInserted | abd/src/client/mod.rs:950-1022 | a write that chooses the timestamp it prophesied was not rejected when it began: its token is in the queue, uncommitted, and its timestamp is above the watermark of that moment |
| SharedSteps.BeginReadLinked | abd/src/client/mod.rs:230-254 | a read that begins is inserted under its prophesied value, and everything that links queue, servers and operations is kept |
| SharedSteps.BeginWriteLinked | abd/src/client/mod.rs:578-629 | a write that begins is allocated and inserted, or rejected when the watermark has passed its prophecy; its timestamp was never allocated before; all links are kept |
| SharedSteps.ReadingsReach | abd/src/client/net_invs/read.rs:466-485 | the largest reading of a majority is at least the watermark at the start of the read |
| SharedSteps.FinishUnanimousLinked | abd/src/client/mod.rs:371-416 | a read that finishes in one round may linearize everything up to its timestamp and always finds its own completion |
| SharedSteps.FinishWriteBackLinked | abd/src/client/mod.rs:506-546 | the same after a write-back, for the timestamp of the first round |
| SharedSteps.SendWriteBackLinked | abd/src/client/mod.rs:417-475 | what is written back goes to exactly the servers not known to agree, and is a value that can no longer be withdrawn, at or above the watermark of the start |
| SharedSteps.FailReadLinked | abd/src/client/mod.rs:318-500 | a read that fails in either round can always be taken out of the queue, is told the truth about its linearizer, and all links are kept |
| SharedSteps.FailQueryLinked | abd/src/client/mod.rs:691-732 | a write that fails before it chose can always be taken out and is told the truth, its allocation being removed exactly if it was still pending |
| SharedSteps.FailRejectedLinked | abd/src/client/mod.rs:714-719 | a write that was rejected and fails before it chose still has its own linearizer, of which the queue and the log hold nothing |
| SharedSteps.ChooseLinked | abd/src/client/mod.rs:738-790 | a write that chooses takes the sequence number one above the largest counted, and commits the very entry it prophesied, marking it and nothing else |
| SharedSteps.FailWriteLinked | abd/src/client/mod.rs:870-883 | a write that fails after it chose stays in the queue, committed, and may take effect later |
| SharedSteps.FinishWriteLinked | abd/src/client/mod.rs:884-935 | a write acknowledged by a majority may linearize everything up to its timestamp, and then is itself in the log |
| SharedSteps.ServeLinked | abd/src/server/register.rs:246-328 | a server's step keeps the watermark below every majority, and every value it stores or sends has been committed |
| SharedState.KeepLinked | abd/src/invariants/mod.rs:83-113 | serving one operation leaves every other operation's tokens, promises and committed values alone |
| SharedState.GoneStays | abd/src/invariants/lin_queue/mod.rs:749-773 | an operation of which the queue holds nothing is never put in the log on behalf of another |
| SharedState.InitialLinked | abd/src/invariants/mod.rs:135-197 | any non-empty set of servers at the default timestamp satisfies the global invariant with the initial queue |
| ProtocolInv.StepKeeps | abd/src/client/mod.rs:219-936 | every step keeps: views below servers, ids issued once and below their counter, replies truthful, counters of writes used once; and nothing known is taken back |
| ProtocolInv.ServeKeeps | abd/src/server/mod.rs:239-340 | a server that handles a request sends its reply, which answers the request truthfully, and no server goes back |
| ProtocolInv.ReadStepKeeps | abd/src/client/mod.rs:219-546 | the same for every step of a read |
| ProtocolInv.WriteStepKeeps | abd/src/client/mod.rs:548-936 | the same for every step of a write |
| ProtocolInv.RunKeeps | abd/src/client/mod.rs:219-936 | every reachable state satisfies these invariants |
| Timestamps.LtIsATotalOrder | abd/src/timestamp.rs:10-30 | timestamps are in a strict total order, decided by sequence numbers, then clients, then counters |
| Quorums.Intersection | abd/src/invariants/quorum/server_universe.rs:954-980 | two majorities share a server |
| Quorums.UnanimityReachesAll | abd/src/invariants/quorum/server_universe.rs:933-952 | a majority unanimously at t puts every majority at t |
| Quorums.ReachIsMonotone | abd/src/invariants/quorum/server_universe.rs:718-748 | what every majority has reached is still reached in any later view |
| Quorums.QuorumTimestampIsMonotone | abd/src/invariants/quorum/server_universe.rs:690-716 | a majority stays one and its largest timestamp does not decrease in any later view |
| Quorums.QuorumSizeIsMajority | abd/src/client/mod.rs:164-181 | a set of n/2+1 servers is a majority, and only such sets are |
| Quorums.QuorumTimestamp | abd/src/invariants/quorum/server_universe.rs:121-137 | the quorum's timestamp is held by a member and is an upper bound of all members |
| ReadPhases.InsertGetKeeps | abd/src/client/net_invs/read.rs:808-972 | a first-round reply keeps the maximum, the exact agreeing set and the view above the snapshot; the view only grows |
| ReadPhases.InsertWriteBackKeeps | abd/src/client/net_invs/read.rs:1038-1208 | a write-back reply keeps the reading, and adds only servers at or above it |
| ReadPhases.MaxIsAtLeastMin | abd/src/client/net_invs/read.rs:466-485 | with replies from a majority the largest reading is at least anything every majority had reached in the snapshot |
| ReadPhases.AgreementReachesAll | abd/src/client/net_invs/read.rs:487-504 | once a majority agrees, every majority of the servers as they are now has reached the reading's timestamp |
| WritePhases.InsertTimestampKeeps | abd/src/client/net_invs/write_read_phase.rs:548-677 | a timestamp reply keeps the maximum, the exact agreeing set and the view above the snapshot |
| WritePhases.MaxIsQuorumTimestamp | abd/src/client/net_invs/write_read_phase.rs:345-370 | with replies from a majority the result is that quorum's timestamp in the client's view and at least anything every majority had reached in the snapshot |
| WritePhases.InsertAckKeeps | abd/src/client/net_invs/write_write_phase.rs:391-448 | an acknowledgement puts its server at or above the written timestamp in the view |
| WritePhases.AcksReachAll | abd/src/client/net_invs/write_write_phase.rs:284-308 | acknowledgements from a majority put every majority of the present servers at the timestamp |
| Accumulators.ReadAccumulator.UpdateMaxRespAndQuorum | abd/src/client/net_invs/read.rs:731-806 | the reading stays the largest; the agreeing set restarts with a larger one and grows with an equal one |
| Accumulators.ReadAccumulator.InsertGetReply | abd/src/client/net_invs/read.rs:808-972 | in place: a server's first reply is counted, a repeated one ignored, and the accumulator's invariant is kept |
| Accumulators.ReadAccumulator.InsertWriteBackReply | abd/src/client/net_invs/read.rs:1038-1208 | in place: the same for a write-back reply |
| Accumulators.GetTimestampAccumulator.Insert | abd/src/client/net_invs/write_read_phase.rs:482-677 | in place: the same for a timestamp reply |
| Accumulators.WriteAccumulator.Insert | abd/src/client/net_invs/write_write_phase.rs:391-448 | in place: the same for an acknowledgement |
| Accumulators.GetsAreCounted | abd/src/client/net_invs/read.rs:731-972 | after any sequence of replies the accumulator holds a largest one among the servers' first replies, and exactly the servers whose first reply has its timestamp |
| Accumulators.GetsInAnyOrder | abd/src/client/net_invs/read.rs:731-972 | two sequences with the same first replies give the same accumulator, when equal timestamps carry equal values |
| Accumulators.WriteBacksGrowAgreement | abd/src/client/net_invs/read.rs:1038-1208 | any sequence of write-back replies keeps the reading and adds exactly the servers that answered, each known to be at or above it |
| Accumulators.WriteBackViews | abd/src/client/net_invs/read.rs:1038-1208 | after them the view holds, of a server not known to agree before, the larger of what was known and the first bound it reported, and of all others what it held |
| Accumulators.AckViews | abd/src/client/net_invs/write_write_phase.rs:391-448 | after any acknowledgements the view holds of each server the larger of its entry in the snapshot and the first bound it reported |
| Accumulators.ChosenIsAboveEveryReply | abd/src/client/mod.rs:738-749 | after any sequence of timestamp replies the maximum is one of them and the timestamp chosen, of the next sequence number, is strictly above all that count |
| Accumulators.AcksAreCounted | abd/src/client/net_invs/write_write_phase.rs:391-448 | after any sequence of acknowledgements each server counts once, and a majority of them puts every majority of any later view at the timestamp |
| LinQueueProof.InsertWriteKeeps | abd/src/invariants/lin_queue/mod.rs:499-579 | inserting a write above the watermark keeps queue and register consistent |
| LinQueueTheorems.InsertReadKeeps | abd/src/invariants/lin_queue/mod.rs:581-648 | inserting a read keeps them consistent, whether it is served on the spot or left pending |
| LinQueueTheorems.CommitKeeps | abd/src/invariants/lin_queue/mod.rs:650-700 | committing a write's value keeps them consistent; the write is completed or pending |
| LinQueueProof.ApplyReadsKeeps | abd/src/invariants/lin_queue/mod.rs:838-921 | serving the waiting readers turns the weak invariant, which allows for a reader of the watermark's value, into the full one |
| LinQueueProof.ApplyReadsEffect | abd/src/invariants/lin_queue/mod.rs:838-921 | it completes exactly the pending reads of the register's value, at the watermark, and writes nothing |
| LinQueueProof.ApplyUpToKeeps | abd/src/invariants/lin_queue/mod.rs:744-836 | applying writes up to a timestamp keeps every linearizer at most once in the log, in timestamp order, each read seeing the last write |
| LinQueueProof.ApplyUpToEffect | abd/src/invariants/lin_queue/mod.rs:744-836 | it completes exactly the pending writes up to the timestamp and leaves tokens alone |
| LinQueueTheorems.ApplyUpToIsFold | abd/src/invariants/lin_queue/mod.rs:744-836 | however those writes are listed in increasing order, the result is the fold over the list |
| LinQueueTheorems.ApplyUpToSummary | abd/src/invariants/lin_queue/mod.rs:749-773 | for a known timestamp the watermark ends at the larger of the two, the register at the value committed there, no timestamp gained or lost, none pending below |
| LinQueueTheorems.ApplyUpToAppliesExactly | abd/src/invariants/lin_queue/mod.rs:744-836 | the log grows by the entries of exactly those writes, in strictly increasing timestamp order, whether or not the timestamp is known |
| LinQueueTheorems.ReadsCompletedOnTheWay | abd/src/invariants/lin_queue/mod.rs:744-921 | a pending read is completed on the way if and only if one of those writes wrote its value |
| LinQueueTheorems.WriteCompletedIff | abd/src/invariants/lin_queue/mod.rs:165-206 | a write is completed, and logged, if and only if the watermark has reached its timestamp; otherwise it is pending |
| LinQueueTheorems.ReadCompletedIff | abd/src/invariants/lin_queue/mod.rs:253-274 | a read is completed, and logged, if and only if its value was current at some timestamp since it was inserted; otherwise it is pending |
| LinQueueTheorems.ExtractWriteKeeps | abd/src/invariants/lin_queue/mod.rs:924-962 | a write at or below the watermark has its completion in the queue; extracting it leaves nothing of the write but its committed value, and all else as it was |
| LinQueueTheorems.ExtractReadKeeps | abd/src/invariants/lin_queue/mod.rs:964-1009 | a read whose timestamp lies between its insertion and the watermark, with its value, has its own completion in the queue; extracting it leaves nothing of the read, and all else as it was |
| LinQueueTheorems.RemoveWriteKeeps | abd/src/invariants/lin_queue/mod.rs:1012-1065 | a client that gives up on a write gets its own linearizer back if it was not applied and the completion if it was; the timestamp is freed exactly if pending and uncommitted |
| LinQueueTheorems.RemoveReadKeeps | abd/src/invariants/lin_queue/mod.rs:1069-1110 | the same for a read |
| LinQueueFrames.ExtractReadSucceeds | abd/src/client/mod.rs:395-407 | after linearizing up to a read's timestamp, extraction cannot fail |
| LinQueueFrames.ApplyUpToFrame | abd/src/invariants/lin_queue/mod.rs:749-773 | helping others takes away no token and no value, and every new log entry belongs to a token |
| LinQueueFrames.CommittedPersists | abd/src/invariants/lin_queue/pending.rs:218-234 | the value of a committed write is in the queue for good |
| LinearizationQueues.LinearizationQueue.InsertWriteLinearizer | abd/src/invariants/lin_queue/mod.rs:499-579 | in place: refuses a write the watermark has passed, changing nothing, and otherwise hands out its token and leaves it pending, all else as it was |
| LinearizationQueues.LinearizationQueue.InsertReadLinearizer | abd/src/invariants/lin_queue/mod.rs:581-648 | in place: the read is completed and seen in the log if its value is the present one, pending if not; all else as it was, and queue and register stay consistent |
| LinearizationQueues.LinearizationQueue.CommitWrite | abd/src/invariants/lin_queue/mod.rs:650-700 | in place: hands out the value the timestamp is committed to, and marks the token and the pending entry, nothing else |
| LinearizationQueues.LinearizationQueue.ApplyReadLinearizersAtValue | abd/src/invariants/lin_queue/mod.rs:838-921 | in place: whichever reader is served first, the queue ends as described and the log only grows |
| LinearizationQueues.LinearizationQueue.ApplyLinearizersUpTo | abd/src/invariants/lin_queue/mod.rs:744-836 | in place: terminates, keeps queue and register consistent and leaves the queue the value-level function gives |
| LinearizationQueues.LinearizationQueue.ExtractWriteCompletion | abd/src/invariants/lin_queue/mod.rs:924-962 | in place: the completion is the owner's own and its write is in the log; afterwards token and completion are gone and every other entry is as it was |
| LinearizationQueues.LinearizationQueue.ExtractReadCompletion | abd/src/invariants/lin_queue/mod.rs:964-1009 | in place: the completion is there, is the owner's own, and its read is in the log; afterwards token and completion are gone and every other entry is as it was |
| LinearizationQueues.LinearizationQueue.RemoveWriteLin | abd/src/invariants/lin_queue/mod.rs:1012-1065 | in place: says truthfully whether the write was applied, and leaves nothing of it but what was committed |
| LinearizationQueues.LinearizationQueue.RemoveReadLin | abd/src/invariants/lin_queue/mod.rs:1069-1110 | in place: says truthfully whether the read was applied, and leaves nothing of it |
| LinearizationQueues.AnyReaderFirst | abd/src/invariants/lin_queue/mod.rs:894-921 | the queue does not depend on which waiting reader is chosen |
| LinearizationQueues.ApplyUpToIgnoresLog | abd/src/invariants/lin_queue/mod.rs:744-836 | nor on the order in which readers were served before |
| Permissions.NeverAllocatedTwice | abd/src/invariants/committed_to.rs:278-571 | in any run of logins, permissions taken and returned, allocations and removals, no timestamp is allocated twice, nor ever the default one |
| Permissions.PerformKeeps | abd/src/invariants/committed_to.rs:43-74 | every action keeps allocated timestamps below their client's counter; an allocation is of a new timestamp |
| Permissions.Commitments.LoginClient | abd/src/invariants/committed_to.rs:156-225 | in place: a new client gets counter zero |
| Permissions.Commitments.TakeOut | abd/src/invariants/committed_to.rs:227-276 | in place: the permission handed out is at the client's counter, and is missing from then on |
| Permissions.Commitments.Alloc | abd/src/invariants/committed_to.rs:278-405 | in place: the timestamp was free, and the advanced permission is back |
| Permissions.Commitments.GiveBack | abd/src/invariants/committed_to.rs:407-500 | in place: the permission is back, advanced, with nothing allocated |
| Permissions.Commitments.Remove | abd/src/invariants/committed_to.rs:538-560 | in place: forgets an allocation but not that its counter was used |
| Permissions.NeverReissued | abd/src/invariants/requests.rs:390-502 | in any run a client issues no two requests under one id, and what was issued under an id stays so for ever |
| Permissions.IssueKeeps | abd/src/invariants/requests.rs:203-227 | every action keeps issued ids below their client's counter and all issued requests as they are; an issued key is new |
| Permissions.RequestMap.TakeOut | abd/src/invariants/requests.rs:341-388 | in place: the permission handed out is at the client's counter |
| Permissions.RequestMap.IssueProof | abd/src/invariants/requests.rs:390-502 | in place: the key was free, and earlier requests are unchanged |
| Refinement.BeginWriteIsAllocation | abd/src/client/mod.rs:587-619 | a write that begins takes out its permission and puts it back with an allocation exactly if its prophecy is ahead of the watermark |
| Refinement.FailQueryIsRemoval | abd/src/client/mod.rs:697-714 | a write that fails before it chose removes its allocation exactly if it was not linearized meanwhile |
| Refinement.SendIsIssue | abd/src/client/mod.rs:265-281 | every request sent is a permission taken and put back one further with the request |
| Refinement.LoginIsLogin | abd/src/invariants/mod.rs:90-93 | a client logs in to commitments and request map together |
| Refinement.RunIsLedgerRun | abd/src/client/mod.rs:587-714 | every run of the protocol, with its shared state, is a run of the commitments: each step's actions, at most two, stand in order, and lead from the first ledger to the allocations and counters of the last state |
| Refinement.NoTimestampIsAllocatedTwice | abd/src/invariants/committed_to.rs:278-571 | no two steps of a run that begin a write allocate the same timestamp, even after the first write failed and its allocation was removed |
| Refinement.RunIsRegistryRun | abd/src/client/mod.rs:258-846 | every run of the protocol is a run of the request map that ends in the requests and counters of the last state |
| Refinement.NoIdIsUsedTwice | abd/src/invariants/requests.rs:390-502 | no two steps of a run send under one client and request id, and the request sent under it is on record at the end of the run |
| ServerRegister.ServesLargest | abd/src/server/register.rs:246-328 | after any sequence of requests the register holds the largest of its first timestamp and those written, with that write's value; each response fits its request and each acknowledgement covers it |
| ServerRegister.OrderDoesNotMatter | abd/src/server/register.rs:246-328 | the register ends the same for any order and any repetition of the same writes |
| ServerRegister.ServesEach | abd/src/server/mod.rs:239-340 | each response of a sequence answers its request from exactly where the register is at that moment, and the next request finds the register where this one left it |
| ServerRegister.ServerNeverGoesBack | abd/src/server/register.rs:434-462 | its timestamp never decreases over a sequence of requests |
| ServerRegister.MonotonicRegister.Write | abd/src/server/register.rs:434-462 | in place: the acknowledgement is the register's timestamp afterwards, at least the request's and at least the one before |
| ServerRegister.RegisterServer.HandleRequest | abd/src/server/mod.rs:239-340 | in place: a get is answered with the register's value and timestamp, a query with its timestamp, neither changing it; a write moves it if ahead and is answered with where it then is |
| ServerRegister.RegisterServer.ServeRound | abd/src/server/mod.rs:386-446 | in place: one round serves at most one request of each connection, in order; a connection stays if and only if in this round it neither broke nor left a response unsent |
| ServerRegister.RetainedMeans | abd/src/server/mod.rs:429-431 | a connection is retained, as often as it occurs, if and only if it was not dropped |
| ServerRegister.RetainedInOrder | abd/src/server/mod.rs:429-431 | the connections retained are those at exactly the places not dropped, in the order of the places |
| ServerRegister.RequestsInOrder | abd/src/server/mod.rs:405-425 | the requests served in a round are exactly those received, in the order of the connections |
| Channels.BufChannel.TryRecvTag | verdist/src/network/channel.rs:155-193 | in place: answers with the message buffered under the tag, or else with the one that arrives if it has the tag; with an error if and only if nothing is buffered and the channel breaks; otherwise with nothing, and what arrived for another tag is buffered under that tag |
| Channels.UndisturbedCall | verdist/src/network/channel.rs:155-193 | a caller's lookup, receive and store, with nobody in between, make exactly the call of the method |
| Channels.NothingVanishes | verdist/src/network/channel.rs:118-193 | over any interleaving of the lookups, receives and stores of any callers, each message taken from the channel was returned, is buffered under its tag, is held by a caller about to store it, or was overwritten, exactly as often as it arrived |
| Channels.NothingLostIff | verdist/src/network/channel.rs:181-187 | nothing is lost if and only if no message is ever stored while another of its tag still waits in the buffer |
| Channels.DistinctTagsLoseNothing | verdist/src/network/channel.rs:118-193 | with distinct tags, under any interleaving, none is lost and each is in exactly one place: returned, buffered, or on its way to the buffer |
| Channels.EqualTagsLoseOne | verdist/src/network/channel.rs:181-187 | with equal tags there is an interleaving in which the second message replaces the first in the buffer |
| WaitFor.FlawlessPool.Poll | verdist/src/pool/connection_pool.rs:244-291 | in place: every channel is asked once, in order, and its answer filed under its own id |
| WaitFor.WaitForReplies | verdist/src/rpc/request_context.rs:83-192 | in place: the loop comes to the verdict of the value-level wait: success before giving up, on exactly the replies and errors counted |
| WaitFor.CountResponses | verdist/src/rpc/request_context.rs:134-190 | in place: replies and errors are counted in the order polled |
| WaitFor.Count1 | verdist/src/rpc/replies.rs:169-206 | a reply is appended and adds its channel to those handled, leaving the errors alone; an error enters the errors under its channel, leaving the replies alone; silence changes nothing |
| WaitFor.CountedInOrder | verdist/src/rpc/request_context.rs:134-190 | the replies of a poll are appended in the order of the channels, each under its channel's id, and no other answer is |
| WaitFor.OnlyGoodRepliesCount | verdist/src/rpc/request_context.rs:83-192 | every counted reply carries the request's tag and came through a channel of the pool, and has whatever property all messages of that channel have |
| WaitFor.CountedRepliesAnswerTheRequest | verdist/src/rpc/request_context.rs:140-183 | on the network of a reachable state every counted reply answers the request issued under the tag, so no stale reply enters a quorum |
| GivingUp.PolledHears | verdist/src/rpc/request_context.rs:134-190 | after p polls the channels counted for a reply are exactly those that answer one of their first p calls for the tag with a reply, and likewise for errors: a matter of channels and tag alone |
| GivingUp.HeardByIff | verdist/src/network/channel.rs:155-193 | a channel is counted for a reply within p polls if and only if one is buffered or its first attempts bring a message of the tag, and for an error if and only if they break: told from its script and buffer alone |
| GivingUp.HealthyNeverErrs | verdist/src/network/channel.rs:181-189 | a channel that never breaks is never counted as failed, whatever stray replies it carries |
| GivingUp.WaitStopsAt | verdist/src/rpc/request_context.rs:105-133 | a wait hears exactly what unconditional polling hears up to the first poll that decides it |
| GivingUp.GivesUpIff | verdist/src/rpc/request_context.rs:112-133 | a wait for a quorum, of replies or of servers known to agree, gives up within a limit if and only if after some poll up to it the channels that replied and those that failed add up to all while too few have replied |
| GivingUp.GivesUpUnheardIff | verdist/src/rpc/request_context.rs:125-134 | it gives up with a channel it never heard from if and only if, at the first such poll, some channel has answered neither way |
| GivingUp.UnheardMeansCountedTwice | verdist/src/rpc/replies.rs:127-130 | then at least as many channels were counted for both a reply and an error as were not heard from |
| GivingUp.GivesUpTooSoonIff | abd/src/client/error.rs:17-41 | it gives up although polling on would have reached the quorum if and only if the counts are short at some poll up to the limit and enough have replied at a later one |
| GivingUp.GivesUpTooSoon | abd/src/client/error.rs:17-41 | a witness: of two channels one replies and then fails, the wait gives up after two polls having heard nothing of the other, which replies at the third |
| GivingUp.FinalErrorsJustifyGivingUp | abd/src/client/error.rs:17-41 | where no channel ever answers both with a reply and with an error, a wait that gives up could not have reached its quorum by any number of polls |
| WaitSteps.CountedRepliesAreSteps | verdist/src/rpc/request_context.rs:140-190 | taking the counted replies, in the order they were counted, is a continuation of the run, one protocol step a reply |
| WaitSteps.ReadingsAreFolded | abd/src/client/net_invs/read.rs:808-972 | the replies counted by the first wait of a read put the read accumulator in the state that folding them gives, having counted exactly the channels handled |
| WaitSteps.WriteBacksAreFolded | abd/src/client/net_invs/read.rs:1038-1208 | the same for the wait of a write-back, the agreeing servers being those known before and those that replied |
| WaitSteps.TimestampsAreFolded | abd/src/client/net_invs/write_read_phase.rs:548-677 | the same for the first wait of a write |
| WaitSteps.AcksAreFolded | abd/src/client/net_invs/write_write_phase.rs:391-448 | the same for its second wait |
| WaitSteps.EnoughEnablesTheNextStep | abd/src/client/mod.rs:313-318 | when a wait has enough, the run goes on by taking exactly the replies it counted to a state where the operation has what it waited for: a majority of readings, of agreeing servers, of timestamps or of acknowledgements |
| WaitSteps.ReadyEnables | abd/src/client/mod.rs:321-484 | and there the step that was waited for is enabled; a read returns at once if and only if a majority agrees, and otherwise writes back |
| MonotonicTimestamps.OpIsACommutativeMonoid | abd/src/resource/monotonic_timestamp.rs:32-124 | composition is associative and commutative with a unit, and parts of a valid whole are valid |
| MonotonicTimestamps.TotalMeans | abd/src/resource/monotonic_timestamp.rs:32-124 | a collection of pieces composes to the whole right at v if and only if it holds exactly one right or two halves and every piece agrees with v |
| MonotonicTimestamps.TakenMeans | abd/src/resource/monotonic_timestamp.rs:168-296 | a split makes two halves of the whole, a join one piece of two, an advance moves the whole right or both halves, an extraction hands out a bound at the very timestamp and a weakening one at its target; every other piece is as it was |
| MonotonicTimestamps.StepKeepsWhole | abd/src/resource/monotonic_timestamp.rs:168-296 | split, join, advance, extract and weaken keep the whole right; the timestamp moves only by an advance, and up |
| MonotonicTimestamps.RunsStayWhole | abd/src/resource/monotonic_timestamp.rs:154-296 | after any sequence of them both halves agree and every lower bound ever handed out is at most the timestamp |
| MonotonicTimestamps.WholeCanAdvance | abd/src/resource/monotonic_timestamp.rs:199-234 | whatever pieces there are, the whole right is in one hand or in two, and can be advanced to any later timestamp |
| MonotonicTimestamps.MonotonicTimestampResource.AdvanceTo | abd/src/resource/monotonic_timestamp.rs:199-213 | in place: valid with every frame it was valid with |
| MonotonicTimestamps.MonotonicTimestampResource.AdvanceHalvesTo | abd/src/resource/monotonic_timestamp.rs:215-234 | in place: both halves move together, valid with every frame |
| MonotonicTimestamps.HalfCannotAdvance | abd/src/resource/monotonic_timestamp.rs:215-234 | half a right advanced alone is incompatible with the other half |

## Left out

- Integer width: counters and sequence numbers are unbounded; the code assumes away the overflow of its 64-bit counters (abd/src/client/mod.rs:592-600, 742-745), so no wrap-around is modelled.
- In the step system a client may fail at any moment of a phase, which includes every moment at which the code gives up; when that is, is the subject of `GivingUp.dfy`.
- WaitFor.WaitForReplies: takes a bound on the number of polls and answers "still waiting" when it is used up, because the code's loop need not terminate when the network stays silent.
- Liveness: that an operation can always be brought to return is proved (`Availability.dfy`); that it does return depends on the network delivering and servers being scheduled, of which nothing is assumed.
- Message loss needs no step of its own: a sent message may simply never be delivered. Requests reach a server only if sent, and replies are never forged; the code's transport invariants assume the same.
- Every client is connected to every server, so that the pool's size is the number of servers, as the code's client invariant has it.
- Finding servers, server login and the halves of a server's timestamp held by the state (abd/src/server/register.rs:54-110): servers of the step system exist from the start; the split of rights is modelled in `MonotonicTimestamps.dfy` by itself.
- Ghost locations, namespaces and agreement of ghost maps are replaced by equality of values; `spec_eq` families are not modelled.
- LinearizationQueues.LinearizationQueue.ApplyLinearizersUpTo: the linearizer supplied by a caller is an identity with a place in the log; the user's own resource updates and masks are not modelled.
- Accumulators.GetsAreCounted: a reply is identified by its server; the client half of the channel id, the same for all channels of a client, is dropped.
- Server polling: accepting new connections is a single step; the bound of ten per poll and the error kinds of a listener are not modelled.
- Transports over TCP, UDP and threads, serialization, logging and the command-line examples: I/O and unseen libraries.
- The echo services: a single server with the same request map.
- `channel_seq_to_map`: channels of a pool are modelled as a sequence with distinct ids, which the map only indexes.
