# Request ownership in kafka-driver

A Dafny model of the code that holds a call from admission to its one terminal result in the Kafka driver:
the indexed wait queue and its five owners, the affine ledger of response contexts, the commit, outcome, close
and recovery paths of one lane, incremental framing and the gate that keeps replies ahead of end of stream,
metadata merging with causal evidence, version negotiation and selection, the lane index, and the budgeted
coordinator passes.

`dafny verify dfyconfig.toml` checks everything.

| file | models |
|---|---|
| `WaitQueueSpec`, `WaitQueue`, `WaitQueueRuns`, `ReleaseBuild`, `OrderedKeys` | the queue as a plain list, as two ordered maps, whole runs, and builds without debug assertions |
| `RouteWaiting`, `ScanSpec`, `TargetWaiters`, `WaiterRuns`, `PendingRequests` | the owners: byte accounting, failure sweep, resumable scans and their runs, expiry |
| `OperationContexts`, `LedgerRuns`, `Totals` | reservations and published contexts, and every interleaving of their operations |
| `Requests`, `Handover` | calls and their deadlines, and what a hand-over between queues keeps |
| `Engine`, `LaneBooks`, `Endings` | the connection engine as an environment, ownership of calls, what callers are told |
| `LaneSteps`, `LaneEvents`, `LaneLaws` | the steps of one lane as relations between what it shows before and after, and what they come to over a turn |
| `Lane`, `LaneRuns` | one lane, and whole runs of it |
| `Wire`, `FrameSpec`, `FrameDecoder`, `DecoderGate` | INT32 and correlation ids, framing, the chunk-fed decoder, the gate |
| `PartitionRange`, `MetadataSnapshot`, `MetadataRuns` | partition ranges, snapshot assembly, coherence over runs, topic views |
| `MetadataMachine`, `MetadataOwner` | refresh policy and withdrawals, evidence from stamp to count |
| `Negotiation`, `LaneIndex`, `LaneIndexRuns` | version selection, lane slots and identities, and whole runs |
| `CoordinatorDrive`, `CoordinatorFairness` | budgeted coordinator passes, and when they starve an entry |
| `Common`, `Filters`, `Sorting` | shared definitions |

## Environment

The connection engine, sockets, TLS sessions, the allocator, the clock and the session and broker machines are
unconstrained: their answers are chosen arbitrarily at every call. What a lane asks of its engine, its session
and its broker policy is recorded with the answer (`Engines.Record`), so that a contract can say what was asked
and how often, and that the answer decides. Three promises are used of the engine, and
they are the ones the driver configures or documents: an accepted operation id is new within its epoch; a
report or outcome that says "not sent" is the engine's own record of that; and match keys in a mismatch lie in
0..=i32::MAX, which is the configured key space (src/reactor/direct_plaintext/limits.rs:84) and all a
classified reply can name. Of whoever drives a transport it is used that bytes are read only while `can_read`
says so. Times, entropy and network results are parameters or arbitrary choices.

## Where the code falls short of a property

**Builds without debug assertions.** `remove_deadline` performs its removal inside `debug_assert_eq!`
(src/reactor/wait_queue.rs:129-132). The queue is modelled with the removal always performed, which is what
`take_due` and `next_deadline` rely on. Without debug assertions the key stays behind: `ReleaseMissesDueCall`
is a concrete queue whose due call is passed over, `ReleaseTakeDueExact` and `ReleaseNextDeadlineExact` say
exactly when the two answers are still right, and `ReleaseRunCovered` what every run of such a build keeps.

**Replies before the end of the stream.** The decoder gate holds end of stream, read failures and the terminal
failures of a driven TLS session back until every complete reply was decoded. `Step` says exactly what goes past
it: a complete reply is overtaken if and only if one is waiting and the step is one of three.

- A shutdown that hands out a failure, held back before (src/reactor/direct_plaintext/rustls_transport.rs:80-82) or
  of its own (line 83 there, and plaintext_transport.rs:55-60).
- A failed write, which neither transport gates (rustls_transport.rs:33-35, plaintext_transport.rs:30-32).
- A failure of a driven transport that is not held back: any on plaintext (plaintext_transport.rs:48-53), and on TLS
  one that `is_deferred_terminal` does not accept (rustls_transport.rs:62-72), such as a security failure.

`ShutdownOvertakesReply` and `StepOvertakesReply` are the inputs.

**Fairness of coordinator starts.** `start_requested` advances its cursor while it scans
(src/reactor/coordinator/drive.rs:72-95), so that positions are skipped. `StarvationExact`: in consecutive start
passes an entry that stays requested can be passed over for ever exactly from three entries and budget two on (or
with no budget at all). `TurnStarvationExact`: if retries and completions may come before every start pass, in any
pattern, two entries are enough whatever budget is left, since each of them moves the cursor too.

## Model

| member | source | states |
|---|---|---|
| `WaitQueueRuns.Run` | src/reactor/wait_queue.rs:26-161 | every sequence of operations on a new queue, renumbering at u64 exhaustion included, is answered exactly as a plain list of (value, deadline) with a scan position answers it |
| `WaitQueueRuns.Perform` | src/reactor/wait_queue.rs:26-161 | one operation of the two-map queue has the answer and the next list of the list semantics |
| `WaitQueueRuns.NumberingUnseen` | src/reactor/wait_queue.rs:135-161 | apart from scans no answer depends on how entries are numbered |
| `WaitQueues.WaitQueue.Push` | src/reactor/wait_queue.rs:26-28 | a full queue refuses and is unchanged; otherwise the entry is last and the deadline map is still exactly the index of the entries |
| `WaitQueues.WaitQueue.RotateBack` | src/reactor/wait_queue.rs:31-33 | putting an examined entry back has the effect of an insertion at the back |
| `WaitQueues.WaitQueue.InsertBack` | src/reactor/wait_queue.rs:35-45 | insertion keeps both maps in agreement and the scan position on the same entries |
| `WaitQueues.WaitQueue.ReserveSequence` | src/reactor/wait_queue.rs:135-143 | after at most one renumbering a sequence number above every queued one is available |
| `WaitQueues.WaitQueue.Resequence` | src/reactor/wait_queue.rs:145-161 | renumbering from zero leaves the list unchanged, rebuilds the deadline index and restarts the scan |
| `WaitQueues.WaitQueue.PopFront` | src/reactor/wait_queue.rs:47-51 | takes the oldest entry and moves the scan position with it |
| `WaitQueues.WaitQueue.PopBack` | src/reactor/wait_queue.rs:53-57 | takes the newest entry |
| `WaitQueues.WaitQueue.ScanOne` | src/reactor/wait_queue.rs:61-78 | examines the entry after the cursor, wrapping, and removes it only on a match |
| `WaitQueues.WaitQueue.TakeDue` | src/reactor/wait_queue.rs:84-93 | removes the entry with the earliest deadline, ties by queue position, if it is due |
| `WaitQueues.WaitQueue.NextDeadline` | src/reactor/wait_queue.rs:95-99 | the earliest deadline of any queued entry |
| `WaitQueues.WaitQueue.Drain` | src/reactor/wait_queue.rs:101-108 | hands out all values in queue order and resets numbering and cursor |
| `WaitQueueSpec.ExpireTakesEarliest` | src/reactor/wait_queue.rs:84-93 | consecutive expirations take due entries in deadline order, stop early only when nothing is due, and leave entries that are not due in order |
| `WaitQueueSpec.ExpireBreaksTiesByAdmission` | src/reactor/wait_queue.rs:84-93 | among equal deadlines expiry follows queue order and loses or repeats nothing |
| `WaitQueueSpec.NextDeadlineTells` | src/reactor/wait_queue.rs:95-99 | the reported deadline is due exactly when some entry is due |
| `ReleaseBuild.ReleaseKeepsIndexOnlyWhenEmpty` | src/reactor/wait_queue.rs:128-133 | without debug assertions the index agrees after a removal exactly when the queue was empty |
| `ReleaseBuild.ReleaseTakeDueExact` | src/reactor/wait_queue.rs:84-93 | in such a build `take_due` answers as intended exactly when the first index key belongs to a queued entry or no queued entry is due |
| `ReleaseBuild.ReleaseNextDeadlineExact` | src/reactor/wait_queue.rs:95-99 | in such a build `next_deadline` answers as intended exactly when some queued entry has the deadline of the first index key |
| `ReleaseBuild.ReleaseNextDeadlineEarly` | src/reactor/wait_queue.rs:95-99 | and where it does not, it is too early and never too late |
| `ReleaseBuild.RenumberHeals` | src/reactor/wait_queue.rs:145-161 | renumbering rebuilds the index and so removes every stale key |
| `ReleaseBuild.ReleaseMissesDueCall` | src/reactor/wait_queue.rs:128-133 | two queued calls, one popped: the second is due and `take_due` passes it over |
| `ReleaseBuild.ReleaseRunCovered` | src/reactor/wait_queue.rs:35-161 | what every run of such a build keeps: each queued entry has its key and no stale key names a queued entry |
| `RouteWaitingCalls.RouteWaiting.Admit` | src/reactor/route_waiting.rs:34-68 | refused with the reason the limits and the deadline give, or queued last with its deadline fixed in the request itself and its bytes and opt-ins counted |
| `Requests.DeadlineFixed` | src/request/deadline.rs:32-49 | a budget becomes an absolute deadline once, none if the clock cannot represent it, and an absolute deadline is never moved again |
| `RouteWaitingCalls.RouteWaiting.Pop` | src/reactor/route_waiting.rs:70-88 | the oldest call leaves once: expired, or handed out with its deadline fixed |
| `RouteWaitingCalls.RouteWaiting.ExpireDueBounded` | src/reactor/route_waiting.rs:90-106 | within both budgets, the due calls end earliest deadline first |
| `RouteWaitingCalls.RouteWaiting.FailBounded` | src/reactor/route_waiting.rs:120-135 | the oldest calls up to the budgets end with the given failure, in order |
| `RouteWaitingCalls.RouteWaiting.RejectFailedRouteOne` | src/reactor/route_waiting.rs:142-165 | one examination: an opted-in call under the cursor is settled, any other call is skipped, and nothing happens once no call is opted in |
| `RouteWaitingCalls.RouteWaiting.RejectFailedRoute` | src/reactor/route_waiting.rs:142-187 | repeated until it answers false, it needs at most as many examinations as calls, settles exactly the opted-in calls, and leaves the others in unchanged order with no opt-in left |
| `RouteWaitingCalls.NoWrap` | src/reactor/route_waiting.rs:142-165 | while opted-in calls remain the next one examined lies above the cursor, so the sweep cannot wrap |
| `TargetWaiting.TargetWaiters.Admit` | src/reactor/metadata/waiting.rs:34-73 | refused with its reason or queued last, its deadline fixed in the request itself; bytes stay the sum over waiters |
| `TargetWaiting.TargetWaiters.RetractLast` | src/reactor/metadata/waiting.rs:75-82 | undoes an admission if the newest call is the one named; the invariant survives exactly when a running scan does not cover that call |
| `TargetWaiting.TargetWaiters.BeginScan` | src/reactor/metadata/controller_waiting.rs:83-85 | a scan covers everything queued when it begins |
| `TargetWaiting.TargetWaiters.Scan` | src/reactor/metadata/waiting.rs:88-157 | expires due calls between scans; during one, examines the next calls within the budget and settles, routes or requeues each; requeueing never meets the capacity |
| `TargetWaiting.TargetWaiters.ExamineTurn` | src/reactor/metadata/controller_waiting.rs:87-153 | one turn over `n` calls leaves the unexamined ones in front and the held ones behind, in order |
| `TargetWaiting.TargetWaiters.WaitFor` | src/reactor/metadata/routing.rs:13-42 | admission and its query together: the call is queued, or ended with the reason of the refused place or query; exhausted identities are an error before anything happens, a failed interpretation one that leaves the call queued |
| `TargetWaiting.TargetWaiters.PopForScan` | src/reactor/coordinator/waiting.rs:97-116 | takes the front call of a running scan, ending it if it is due |
| `TargetWaiting.TargetWaiters.Retain` | src/reactor/coordinator/waiting.rs:118-126 | requeues a held call, refused exactly at capacity; the invariant survives exactly when the bytes fit and the call still carries the deadline it waits by |
| `TargetWaiting.TargetWaiters.ExpireDue` | src/reactor/coordinator/waiting.rs:128-143 | between scans due calls end earliest deadline first, up to the budget; during a scan nothing happens |
| `TargetWaiting.TargetWaiters.DrainWaiters` | src/reactor/coordinator/routing.rs:14-48 | the pop-and-retain loop of the coordinator does what one scan turn does |
| `TargetWaiting.TargetWaiters.FailAll` | src/reactor/coordinator/waiting.rs:166-173 | every waiter ends with the failure, in order, and the scan is over |
| `ScanSpec.ExaminedOnceEach` | src/reactor/metadata/waiting.rs:88-157 | the calls settled, routed on and kept by an examination are together exactly the calls examined, each once |
| `ScanSpec.FatesExact` | src/reactor/metadata/waiting.rs:88-157 | the completions of an examination are exactly those of due calls, as expired, and of others whose target is gone, as unavailable; the departures exactly those of calls not due whose route is known, with that route; and exactly the calls not due whose target is pending are kept |
| `ScanSpec.ScanCoversOriginals` | src/reactor/metadata/waiting.rs:84-157 | after `t` turns the first `t * budget` calls of the scan have been examined, each once and in order, and survivors keep their order, whatever was admitted meanwhile |
| `ScanSpec.ScanEndsWithinBudget` | src/reactor/metadata/waiting.rs:84-157 | the scan is over exactly when the budgets of its turns add up to the calls it began with |
| `ScanSpec.MarkedTurnIsTurn` | src/reactor/metadata/waiting.rs:88-157 | queue, remaining count, completions and departures of a marked turn are those of the turn the waiters really take |
| `WaiterRuns.Run` | src/reactor/metadata/waiting.rs:84-157 | for every script of turns, admissions and waits on a real queue of waiters: queue, remaining count, completions and departures are those of the pure scan over the script, so every call queued at its start is examined once and in order, and it is over exactly when the budgets of its turns add up; the completions are those of the scan and of refused admissions and nothing else; and every call waiting at the start or offered since is waiting, routed on or completed, exactly once |
| `ScanSpec.TurnConserves` | src/reactor/metadata/waiting.rs:88-157 | a turn loses and repeats no call |
| `PendingCalls.PendingRequests.Push` | src/reactor/direct_plaintext/pending.rs:28-54 | refused with its reason, or last in the queue with its deadline fixed in the request itself and its bytes counted |
| `Handover.RouteToLane` | src/reactor/route_waiting.rs:70-88 | a call handed from a route queue to the queue of a lane waits there by the deadline its first wait fixed, whenever that happens |
| `Handover.ScanToLane` | src/reactor/metadata/waiting.rs:88-157 | every call a scan routes on carries the deadline it waited by, and a lane queue that takes it keeps that deadline |
| `PendingCalls.PendingRequests.Pop` | src/reactor/direct_plaintext/pending.rs:56-60 | takes the oldest request |
| `PendingCalls.PendingRequests.ExpireDue` | src/reactor/direct_plaintext/pending.rs:62-77 | ends the due requests in deadline order within the budget, loses and repeats none, and reports whether more are due |
| `LedgerRuns.Run` | src/reactor/bornera/contexts.rs:34-187 | in every interleaving of reserve, bind, publish, abort, drop and release: reserved is the number of open reservations, charges are those of live and published contexts, both limits hold, poison is never reached, and each accepted context is held or was handed back exactly once, as last bound, by the operation on its own ticket or key |
| `Contexts.ContextState.Reserve` | src/reactor/bornera/contexts.rs:34-67 | refused exactly when a limit would be passed, with the first limit as the reason and nothing changed; otherwise a new ticket holds the context |
| `Contexts.ContextState.Release` | src/reactor/bornera/contexts.rs:69-74 | hands back the context of a key once and gives its charge back |
| `Contexts.ContextState.ReleaseNext` | src/reactor/bornera/contexts.rs:77-82 | hands back the context with the lowest epoch and operation |
| `Contexts.EndCharge` | src/reactor/bornera/contexts.rs:131-142 | a live ticket can always be rolled back: both counters hold at least its share, and the ledger without it still adds up, so the poisoning branches of rollback are not reached |
| `Contexts.ReleaseCharge` | src/reactor/bornera/contexts.rs:182-187 | a published context can always be released: the retained bytes hold at least its charge, and the ledger without it still adds up |
| `Contexts.ContextReservation.Bind` | src/reactor/bornera/reservation.rs:35-40 | binding changes the context, hands back what the closure returns, and changes nothing of the ledger |
| `Contexts.ContextReservation.Abort` | src/reactor/bornera/reservation.rs:43-50 | ends the ticket, restores both counters and hands the context back |
| `Contexts.ContextReservation.Publish` | src/reactor/bornera/contexts.rs:144-180 | moves context and charge under the key; refused exactly for a key in use, and then rolled back with the context handed back |
| `Contexts.ContextReservation.Drop` | src/reactor/bornera/reservation.rs:77-85 | an active reservation rolls back once, an inactive one does nothing |
| `Contexts.EmptyLedger` | src/reactor/bornera/contexts.rs:100-108 | with no reservation and nothing published no byte is charged |
| `LaneRuns.Run` | src/reactor/direct_plaintext/drive.rs:20-188 | after every script of submissions, turns, drains and refresh failures, with identities from one shared allocator, the lane has received exactly the calls submitted before identities ran out; each is queued, published or completed, exactly one of them and once; completions are never taken back; a terminal lane has completed every call; and no completion misstates delivery |
| `LaneRuns.ValidMeans` | src/reactor/direct_plaintext/settlement.rs:18-228 | what the lane invariant says of one call, of a terminal lane and of every delivery claim |
| `LaneRuns.Perform` | src/reactor/direct_plaintext/drive.rs:20-188 | each step keeps the lane invariant, and only submission gives the lane a call, under an identity never issued before |
| `LaneRuns.CallIds.Allocate` | src/api/identity.rs:39-46 | call identities are issued once and in order, until exhaustion changes nothing |
| `LaneBooks.OwnedExactlyOnce` | src/reactor/direct_plaintext/settlement.rs:83-228 | balanced ownership gives a call one owner if it was given to the lane and none otherwise |
| `LaneBooks.AllSettled` | src/reactor/direct_plaintext/invariant_failure.rs:104-126 | with nothing queued, in hand or published, the completions are exactly the calls given |
| `LaneBooks.Accept` | src/reactor/direct_plaintext/publication.rs:81-106 | a frame accepted under an operation id new to the epoch gives a key no context uses, so publication after acceptance is never refused |
| `LaneBooks.ReleasePublic` | src/reactor/direct_plaintext/settlement.rs:148-169 | a published call may end as not sent only with the engine's word for its key |
| `LaneBooks.SettleQueued` | src/reactor/direct_plaintext/pending.rs:62-89 | queued calls end as not sent without disturbing any other owner |
| `Lanes.Lane.constructor` | src/reactor/direct_plaintext/lane_construction.rs:135-160 | a new lane owns nothing |
| `Lanes.Lane.Submit` | src/reactor/direct_plaintext/admission.rs:21-36 | a terminal lane ends the call with its reason; a lane that is ready admits it at once, with everything that follows decided by the engine's answers as recorded; any other queues it last or ends it with the reason it has no place |
| `Lanes.Lane.Wait` | src/reactor/direct_plaintext/admission.rs:31-34 | the call stands last in the queue, or is ended with the deadline or capacity that refuses it |
| `Lanes.Lane.AdmitPending` | src/reactor/direct_plaintext/admission.rs:38-59 | queued calls leave oldest first, each admitted in turn, and the rest of the queue is as it was; nothing happens unless the lane is ready; the pass stops at the budget, at the end of the queue, at a captured recovery, or at an error, which is the end of the lane |
| `Lanes.Lane.AdmitReady` | src/reactor/direct_plaintext/admission.rs:82-120 | the call is prepared once; version, deadline and preparation errors, in this order, end it as not sent with nothing else changed, a full ledger ends it with its reason, and any other call is offered to the engine, whose recorded answers decide |
| `Lanes.Lane.CommitPreparation` | src/reactor/direct_plaintext/admission.rs:122-145 | the context is reserved before the engine is asked; a ledger full in number or bytes ends the call with its reason and the engine is not asked |
| `Lanes.Lane.OfferFrame` | src/reactor/direct_plaintext/admission.rs:146-197 | the engine is asked once for an operation; the correlation of its key is bound before the frame is offered; a key Kafka cannot express, or a frame that does not encode, ends the call with nothing else changed |
| `Lanes.BindsOnce` | src/response/public_context.rs:75-81 | a correlation is bound once: a second binding is refused and changes nothing |
| `Lanes.Lane.PermitRefused` | src/reactor/direct_plaintext/admission.rs:151-172 | the context is rolled back and the call ended with the error of the refusal; a stale connection ends the lane, a poisoned owner gives the connection up, any other refusal changes nothing else |
| `Lanes.Lane.CommitPublic` | src/reactor/direct_plaintext/publication.rs:18-79 | the frame is offered once over the live connection with the bound correlation, and the recorded answer decides: accepted, the call waits under the key of that operation with nobody told anything; accepted by a failed owner, it waits so and the generation is captured, or the lane is over; refused, it ends with the error of that refusal |
| `Lanes.Lane.CommitRefused` | src/reactor/direct_plaintext/publication.rs:46-77 | the call ends with the error of the refusal and never as possibly sent; a stale connection ends the lane, a failed owner gives the connection up, anything else changes nothing else |
| `Lanes.Lane.PublishPublic` | src/reactor/direct_plaintext/publication.rs:81-106 | the context is published under the accepted key; the conflict branch is dead |
| `LaneSteps.RefusalsTell` | src/reactor/direct_plaintext/publication.rs:46-77 | the errors of refused frames, refused operations, closed policies and terminal lanes, each written out with its delivery |
| `LaneSteps.LocalRefusalTells` | src/reactor/direct_plaintext/admission.rs:82-120 | a call is offered exactly while its deadline lies ahead and nothing was found against it; version errors come first, then the deadline |
| `LaneLaws.AllAdmittedKeeps` | src/reactor/direct_plaintext/admission.rs:38-59 | admitting n queued calls prepares n calls, takes exactly the n oldest from the queue, and leaves the lane as it was, its generation live or captured |
| `Lanes.Lane.JudgeOutcome` | src/reactor/direct_plaintext/public_settlement.rs:24-92 | what the call is told, case by case: a reply exactly for a decodable reply that could be stamped; an expired deadline, a mismatch with its two correlations or a local rejection with the engine's delivery; the end of the connection with the reason already known, else the one the engine and its diagnostic give |
| `Lanes.Lane.SettleReleased` | src/reactor/direct_plaintext/settlement.rs:83-146 | an outcome releases the context of its key for good and tells exactly its call what the outcome says; it is an error exactly when the completion could not be stamped, and asks for the session exactly when it is the session's or cannot be used |
| `Lanes.Lane.SettleOutcome` | src/reactor/direct_plaintext/settlement.rs:83-146 | the context is released, its call told, and the session run exactly when the outcome is its own or cannot be used; an outcome nobody waits for gives the generation up as diverged, and is an error without one |
| `Lanes.Lane.FailReleased` | src/reactor/direct_plaintext/settlement.rs:148-169 | ends exactly the public call of one key with the given error, and is an error exactly when a stamp was wanted and missing |
| `Lanes.Lane.FailRemaining` | src/reactor/direct_plaintext/settlement.rs:171-203 | ends every published call with one possibly-sent error and counts whether there was any |
| `Lanes.Lane.FailPending` | src/reactor/direct_plaintext/settlement.rs:205-228 | every queued call ends with the one error, oldest first |
| `Lanes.Lane.SettleEvent` | src/reactor/direct_plaintext/settlement.rs:18-81 | what each event comes to: the session runs when the transport opens; admission opens only in the available phase and closes with the connection; a draining close is noted and an unexpected one an error; a closed connection is settled; events of another epoch change nothing; without a connection every event is an error |
| `Lanes.Lane.SettleClosed` | src/reactor/direct_plaintext/settlement.rs:38-77 | the session hears of the end first and a reason it recorded counts; then every context left ends as possibly sent for the reason that counts, the connection retires, and the broker policy decides |
| `LaneEvents.ClosedCleanly` | src/reactor/direct_plaintext/settlement.rs:38-77 | a connection that closes without an error had no context left, and is gone |
| `Engines.ClosesTell` | src/reactor/direct_plaintext/failure_translation.rs:99-158 | what the reason of a close says, and exactly when the transport's own word is in it |
| `Lanes.Lane.Retire` | src/reactor/direct_plaintext/settlement.rs:58-77 | a stale retirement ends the lane; contexts that closing had to end complete the queue, oldest first, as not sent and, if every completion was stamped, end the lane; another refusal leaves everything as it was; otherwise the broker policy decides |
| `Lanes.Lane.FailEntries` | src/reactor/direct_plaintext/recovery_owners.rs:31-46 | every named key is released and its call ends, in order, with the delivery recorded for it; everything was found exactly when each key was published and named once |
| `Endings.EntryEndsItsCall` | src/reactor/direct_plaintext/recovery_owners.rs:31-46 | the call of a key named once ends with the delivery recorded beside that key |
| `Lanes.Lane.SettleRecoveredOwners` | src/reactor/direct_plaintext/recovery_owners.rs:16-52 | after recovery no context is left; the calls of reported outcomes are told what each says, recovered and discarded operations end with their recorded deliveries, the rest as possibly sent; it has diverged exactly when a completion could not be stamped or the report does not name every context once and nothing else |
| `Endings.NamesInParts` | src/reactor/direct_plaintext/recovery_owners.rs:16-52 | settling the three lists in turn finds every key and leaves nothing exactly when together they name each context once |
| `Lanes.Lane.SettleRecovery` | src/reactor/direct_plaintext/recovery_settlement.rs:19-127 | everyone is told as the report says, the session ends, and the broker policy decides if and only if nothing diverged, the owner is reusable, the report names every context once and nothing else, the session accepts and every completion was stamped; otherwise the queued calls end as not sent and the lane with them |
| `Lanes.Lane.SettlePendingRecovery` | src/reactor/direct_plaintext/drive.rs:178-188 | a captured recovery is consumed and settled so; without one nothing happens |
| `Lanes.Lane.CaptureRecovery` | src/reactor/direct_plaintext/owner.rs:139-157 | the first report is kept with its divergence and disturbs no call; a second one marks it diverged and ends everything it names at once |
| `Lanes.Lane.TotalizeDuplicateRecovery` | src/reactor/direct_plaintext/invariant_failure.rs:20-45 | the calls of its outcomes end as possibly sent, those of its operations and discarded writes with their recorded delivery, in order, and whatever is left as possibly sent |
| `Lanes.Lane.GenerationInvariantFatal` | src/reactor/direct_plaintext/invariant_failure.rs:104-126 | the session hears of the end, the published calls end as possibly sent and then the queued ones as not sent, all for the fallback reason, and the lane is terminal without connection |
| `Lanes.Lane.Recover` | src/reactor/direct_plaintext/invariant_failure.rs:59-90 | the engine is asked once to give the connection up: captured with its report and whether that diverged, with nothing else touched, or the lane is over |
| `Lanes.Lane.HostFatal` | src/reactor/direct_plaintext/reconnect.rs:177-193 | the published calls end as possibly sent and then the queued ones as not sent, all for the fallback reason; the lane is terminal and nothing else is changed |
| `Lanes.Lane.EndGeneration` | src/reactor/direct_plaintext/lifecycle.rs:65-126 | a generation ends exactly in a live phase and if the policy accepts, a permanent authentication failure only while connecting; drained or requested ends close by request, a permanent rejection for good, and the policy says whether to give up, refresh or back off |
| `Lanes.Lane.SettlePolicyClose` | src/reactor/direct_plaintext/reconnect.rs:153-165 | a closed broker policy ends the lane with every queued call told why, oldest first; an open one changes nothing |
| `Lanes.Lane.SettleGenerationLifecycle` | src/reactor/direct_plaintext/reconnect.rs:21-33 | the broker policy waits for the next generation with everything else as it was, or closes with every queued call told why; a refusal, and an effect that fails, make the lane terminal |
| `Lanes.Lane.OpenGeneration` | src/reactor/direct_plaintext/generation.rs:69-126 | refused exactly while a connection is not retired or the ledger holds anything; otherwise the engine is asked once, and an opened generation starts closed for admission |
| `Lanes.Lane.CleanRestart` | src/reactor/direct_plaintext/generation.rs:74-88 | whenever a generation may be opened the ledger is empty with no byte charged and no poison |
| `Lanes.Lane.OpenOrEnd` | src/reactor/direct_plaintext/reconnect.rs:67-89 | the ownership errors of opening are dead branches; the recorded answer decides: a new generation with nothing else changed, the end of the lane, or a failed endpoint that ends the generation again as the broker policy decides |
| `Lanes.Lane.Reconnect` | src/reactor/direct_plaintext/reconnect.rs:35-50 | a new generation is opened exactly when its timer is due in a waiting phase; a refused timer ends the lane, and otherwise nothing changes |
| `Lanes.Lane.RefreshFailed` | src/reactor/direct_plaintext/endpoint_refresh_completion.rs:39-57 | a failed endpoint refresh waits on with nothing changed, or closes the policy with every queued call told so |
| `Lanes.Lane.BeginDrain` | src/reactor/direct_plaintext/session_close.rs:13-24 | what was captured is settled first; then each queued call is told, oldest first, that the lane is draining; a live generation drains through its session, any other closes by request |
| `Lanes.Lane.DrainEngine` | src/reactor/direct_plaintext/drive.rs:86-146 | the engine is drained once; outcomes are settled in order before events, until a recovery takes over exactly the rest in front of its own; a failed step gives the generation up as diverged and ends the lane |
| `LaneLaws.DrainTells` | src/reactor/direct_plaintext/drive.rs:86-146 | whatever a drain comes to, the call of every outcome taken, unless an earlier one named it, was told what that outcome says, and the outcomes not taken stand in front of the recovery that took over |
| `LaneLaws.OutcomesGone` | src/reactor/direct_plaintext/drive.rs:124-134 | an accepted key whose outcome was settled is published no more |
| `Lanes.Lane.SettleOutcomes` | src/reactor/direct_plaintext/drive.rs:124-134 | outcomes are settled in order until there are no more, a recovery takes over exactly the rest, or one fails |
| `Lanes.Lane.Prepend` | src/reactor/direct_plaintext/drive.rs:191-195 | drained outcomes are put before the recovered ones, in order |
| `Lanes.Lane.TotalizeDriveFailure` | src/reactor/direct_plaintext/drive.rs:148-176 | the generation of the drive is given up and settled as diverged, with the outcomes not yet settled in front of its own; a lane with nothing to recover is over |
| `Lanes.Lane.ExpirePending` | src/reactor/direct_plaintext/drive.rs:29-31 | exactly the due queued calls, earliest deadline first and within the budget, end as not sent; the rest of the queue is as it was |
| `Lanes.Lane.Drive` | src/reactor/direct_plaintext/drive.rs:20-84 | a whole host turn: preparation, the turn of the selector, and admission only after successful preparation. After one that succeeds and does not end the lane the queue is what expiry left without the calls admitted, oldest first; a lane ready then has admitted all of them or all that expiry left of the budget; a lane still connected drained its engine exactly once, and no context of an outcome it got is left; no captured recovery is left unsettled |
| `Lanes.Lane.PrepareDrive` | src/reactor/direct_plaintext/drive.rs:20-38 | reconnection, the session timer, expiry and a captured recovery, in this order and up to the first failure; admission gets exactly what expiry left of the budget |
| `Lanes.Lane.FinishDrive` | src/reactor/direct_plaintext/drive.rs:51-73 | a captured recovery is settled, queued calls are admitted unless the lane is terminal, and what that captured is settled too |
| `LaneLaws.PreparedKeeps` | src/reactor/direct_plaintext/drive.rs:20-38 | preparation takes from the queue exactly what expired, if it succeeds and the lane is not over |
| `LaneLaws.FinishedKeeps` | src/reactor/direct_plaintext/drive.rs:51-73 | finishing takes exactly the oldest calls; a lane ready afterwards has admitted as many as it may or has none left |
| `LaneLaws.DrivenKeeps` | src/reactor/direct_plaintext/drive.rs:20-73 | the two together over a whole turn; nothing given, told or accepted is taken back, and no released context returns |
| `LaneLaws.DrivenGone` | src/reactor/direct_plaintext/drive.rs:40-49 | a lane still connected after its turn drained its engine once and is done with every outcome it was given |
| `Lanes.Lane.TakeTurn` | src/reactor/direct_plaintext/set_drive.rs:63-134 | the turn is recorded and decides: a connected lane drains its engine, or gives the connection up and settles what was captured if the turn failed; a lane without a connection is unchanged, or over if the failed turn says it was connected |
| `Lanes.Lane.StartExchange` | src/reactor/direct_plaintext/negotiation.rs:77-154 | a session exchange needs a place in the ledger; without one the session is closed |
| `Lanes.Lane.CommitExchange` | src/reactor/direct_plaintext/negotiation.rs:156-211 | the engine is asked once for an operation; an accepted session operation is published under its new key with nothing else changed; a stale answer ends the lane, a poisoned or failed owner gives the connection up, anything else closes the session |
| `Lanes.Lane.ApplyEffect` | src/reactor/direct_plaintext/session_progress.rs:25-123 | what each session effect comes to; without a connection every effect but a deadline change is an error |
| `Lanes.Lane.SessionInput` | src/reactor/direct_plaintext/session_progress.rs:13-23 | whatever effects the session machine gives, recorded, are applied in order up to the first that fails |
| `Engines.OperationKeepsDelivery` | src/reactor/direct_plaintext/failure_translation.rs:64-85 | translation keeps the engine's delivery exactly when the failure is no mismatch of keys beyond i32::MAX, or was not sent anyway |
| `Engines.CausalSequence.Reserve` | src/reactor/causality.rs:23-29 | each position is issued once and in order, until exhaustion changes nothing |
| `Wire.KeysRoundTrip` | src/reactor/bornera/identity.rs:32-46 | match keys and correlation ids are inverse exactly on 0..=i32::MAX |
| `Wire.ReplyKeyInDomain` | src/reactor/bornera/classifier.rs:44-57 | a classified reply always names a key that is a correlation id |
| `Wire.ReplyKeyOfCorrelation` | src/reactor/bornera/classifier.rs:44-57 | a reply is recognised by the correlation id its request carried |
| `FrameDecoders.LimitsAdmitEveryFrame` | crates/kafka-driver-transport/src/frame/limits.rs:20-47 | limits are accepted exactly when a frame of every permitted length can be received under them |
| `FrameDecoders.Configure` | src/reactor/bornera/frame.rs:73-126 | with buffer `B` and quantum `Q` the bounds are `B + Q` and `B + 2Q`, refused exactly when they overflow |
| `FrameDecoders.KafkaFrameDecoder.EnsureCapacity` | src/reactor/bornera/frame.rs:146-166 | whatever the allocator grants, a successful capacity stays within `B + Q` and an excess latches failure |
| `FrameDecoders.KafkaFrameDecoder.Feed` | src/reactor/bornera/frame.rs:173-204 | each error for exactly its condition; a drained decoder never sees the buffer limit |
| `FrameDecoders.KafkaFrameDecoder.NextFrame` | src/reactor/bornera/frame.rs:206-231 | answers what the head of the buffer says, keeps the rest, and latches a bad prefix |
| `FrameDecoders.KafkaFrameDecoder.Drain` | src/reactor/bornera/frame.rs:206-231 | decoding until nothing is left yields the frames of the buffer and its undecoded rest |
| `FrameDecoders.KafkaFrameDecoder.Stream` | src/reactor/bornera/frame.rs:173-231 | fed in chunks and drained after each, it yields the frames of the whole stream; any failure is a bad prefix of the stream or an allocation |
| `FrameSpec.HeadStable` | crates/kafka-driver-transport/src/frame/decoder.rs:55-87 | later bytes change nothing about a head that is decided |
| `FrameSpec.DecodeConcat` | crates/kafka-driver-transport/src/frame/decoder.rs:38-87 | decoding in two parts is decoding at once |
| `FrameSpec.ChunkingIndependence` | src/reactor/bornera/frame.rs:173-231 | for every split into chunks, frames, error and undecoded suffix depend on the stream alone |
| `FrameSpec.RoundTrip` | src/reactor/bornera/frame.rs:173-231 | every list of frames within the limit survives every split of its encoding, leaving an unfinished tail buffered |
| `FrameSpec.DecodeEncode` | crates/kafka-driver-transport/src/frame/decoder.rs:55-87 | decoding an encoding gives the frames back |
| `DecoderGates.GatedConnection.ClearGateMeansSeen` | src/reactor/direct_plaintext/decoder_gate.rs:70-85 | a clear gate means every complete frame received was handed on |
| `DecoderGates.GatedConnection.SeenUnlessWaiting` | src/reactor/direct_plaintext/decoder_gate.rs:70-85 | every complete frame was handed on exactly when none is waiting in an unfailed decoder |
| `DecoderGates.GatedConnection.Feed` | src/reactor/direct_plaintext/decoder_gate.rs:70-77 | accepted bytes raise the gate; a refusal leaves it clear, which loses nothing exactly when no complete reply was waiting |
| `DecoderGates.GatedConnection.NextFrame` | src/reactor/direct_plaintext/decoder_gate.rs:79-85 | the gate falls only when no complete frame is left |
| `DecoderGates.GatedConnection.DriveTransport` | src/reactor/direct_plaintext/rustls_transport.rs:51-74 | a held failure surfaces exactly when the gate is clear; truncation and the I/O kinds of a lost peer, each named, are held back on a deferring transport while it is not; every other failure passes on at once |
| `DecoderGates.GatedConnection.Step` | src/reactor/direct_plaintext/rustls_transport.rs:51-104 | an end of the stream, whatever its kind, is seen before some complete reply exactly when one is waiting and the step goes past the gate: a shutdown with a failure held or of its own, a failed write, or a transport failure that is not held back; reads, held failures and writes are answered as the transports answer them |
| `DecoderGates.GatedConnection.Schedule` | src/reactor/direct_plaintext/plaintext_transport.rs:78-80 | under every schedule the replies seen before an end are exactly the complete frames received before it, unless its last step went past the gate while one was waiting; a schedule without such steps never cuts one off |
| `DecoderGates.ShutdownOvertakesReply` | src/reactor/direct_plaintext/rustls_transport.rs:76-84 | one reply, one truncation, one shutdown: the held failure is handed out while the reply is undecoded |
| `DecoderGates.StepOvertakesReply` | src/reactor/direct_plaintext/rustls_transport.rs:32-84 | on a new connection with one reply fed, every step that goes past the gate overtakes it |
| `DecoderGates.GatedConnection.ClearGate` | src/reactor/direct_plaintext/decoder_gate.rs:79-85 | finitely many decode steps clear the gate |
| `PartitionRange.ValidateLogicalRange` | src/metadata/partition_snapshot.rs:114-141 | accepts exactly the permutations of 0..n-1 with n > 0, and names a real defect otherwise |
| `PartitionRange.CheckIndices` | src/metadata/partition_snapshot.rs:124-140 | sorting, equal neighbours and positions: a duplicate is reported exactly when there is one, a gap names an absent partition |
| `PartitionRange.SortedRange` | src/metadata/partition_snapshot.rs:124-140 | indices are the range exactly when sorting them gives the range |
| `Metadata.Canonicalize` | crates/kafka-driver-core/src/metadata/topic.rs:97-117 | a bounded set is accepted exactly when it fits and no two elements share a rank |
| `Metadata.DirectoryExact` | src/metadata/broker_snapshot.rs:13-33 | accepted exactly when every broker is well formed, none is repeated and all fit; it then holds exactly the brokers of the response, in order |
| `Metadata.LeaderSet` | crates/kafka-driver-core/src/metadata/partition/set.rs:15-51 | accepted exactly when the leaders fit and no partition is repeated; the leaders given, sorted |
| `Metadata.LeadersExact` | src/metadata/partition_snapshot.rs:95-112 | the leaders collected are exactly those that an error-free partition of this response names, and one malformed partition refuses them all |
| `Metadata.CollectLeaders` | src/metadata/partition_snapshot.rs:95-112 | the loop collects exactly those leaders or the first defect |
| `Metadata.FactsAgree` | src/metadata/partition_snapshot.rs:22-65 | accepted facts about a topic carry its own evidence, the count is the number of its partitions and not zero, and every leader lies below the count |
| `Metadata.FactsExact` | src/metadata/partition_snapshot.rs:22-65 | accepted exactly when the answer is about the expected topic alone, fits, and is well formed; the count is then exactly that of the response, or none if the topic reports an error, and a leader is collected exactly when a partition of the response names it |
| `Metadata.TopicMerge` | src/metadata/snapshot.rs:69-100 | after a topic response the leaders are those of other topics whose broker stayed plus the response's own, and the counts those of other topics plus the response's own |
| `MetadataRuns.AssembleCoherent` | src/metadata/snapshot.rs:37-104 | every accepted response leaves a coherent snapshot |
| `MetadataRuns.MergeTouchesOnlyItsTopic` | src/metadata/snapshot.rs:69-100 | another topic's count is unchanged and its leaders go only with their broker; a cluster response keeps all counts |
| `MetadataRuns.MergeStampsItsTopic` | src/metadata/snapshot.rs:69-100 | after an accepted topic response the count of its topic is the one the response gives, with the evidence, or none; its leaders are exactly those a partition of the response names |
| `MetadataRuns.MergeTakesMembership` | src/metadata/snapshot.rs:37-104 | members and controller are exactly those of the response, and generation and evidence those of the fetch |
| `MetadataRuns.ClusterAccepted` | src/metadata/snapshot.rs:37-68 | a cluster response is accepted exactly when its members are and the counts kept still fit |
| `MetadataRuns.TopicAccepted` | src/metadata/snapshot.rs:69-104 | a topic response is accepted exactly when its members and its facts are, every leader it names is a member, and what it names fits together with what stays of other topics |
| `MetadataRuns.RunCoherent` | src/metadata/snapshot.rs:37-104 | for every sequence of responses and withdrawals the snapshot stays coherent |
| `MetadataRuns.RunKeepsCount` | src/metadata/snapshot.rs:56-101 | a count is carried unchanged through every run of events about other topics |
| `MetadataRuns.RevokeCoherent` | crates/kafka-driver-core/src/metadata/snapshot.rs:124-130 | withdrawing a route removes it alone and keeps coherence |
| `MetadataRuns.FromSnapshot` | src/api/topic_view.rs:79-118 | no view without a count, malformed exactly when a leader lies outside the count, and never of a coherent snapshot; otherwise exactly the leaders of the topic, in order |
| `MetadataRuns.ViewAscends` | src/api/topic_view.rs:79-118 | the leaders a view of a coherent snapshot lists ascend by partition, all below the count |
| `MetadataMachines.Admit` | crates/kafka-driver-core/src/metadata/admission.rs:32-66 | a fetch is asked for exactly when none was active and a next generation exists, one ahead of what is installed; otherwise the query is coalesced exactly when it is asked for already and need not follow, queued last exactly when there is room, or refused, and nothing else changes |
| `MetadataMachines.FailureSparesGeneration` | crates/kafka-driver-core/src/metadata/outcome.rs:70-101 | a failed refresh uses up no generation: the oldest queued query, or the next one admitted, asks for the same |
| `MetadataMachines.WithdrawKeeps` | crates/kafka-driver-core/src/metadata/revocation.rs:54-77 | a withdrawal is lifted if and only if the response is about it and rests on evidence newer than it requires; every other one stays as it was and is in force in the snapshot shown, which loses exactly the withdrawn routes; counts are kept |
| `MetadataMachines.ServesExact` | crates/kafka-driver-core/src/metadata/admission.rs:99-126 | a snapshot serves a route exactly when the leader it lists for that partition is that broker, at that epoch, on evidence no newer than the failure |
| `MetadataMachines.RegressionExact` | crates/kafka-driver-core/src/metadata/outcome.rs:19-50 | a response is rejected as a regression exactly when some partition it names has an older epoch than before, or the same one with another leader |
| `MetadataMachines.PartitionInvalidated` | crates/kafka-driver-core/src/metadata/admission.rs:99-126 | unless refused the route is withdrawn until evidence newer than the failure, every other withdrawal stays, and the snapshot loses that route alone; it is ignored as stale exactly when the route is neither served nor withdrawn already, refused otherwise only without room, and then nothing changes; counts are kept and the topic is asked for again |
| `MetadataMachines.ControllerInvalidated` | crates/kafka-driver-core/src/metadata/admission.rs:68-97 | the same for the controller |
| `MetadataOwners.RouteInvalidated` | src/reactor/metadata/invalidation.rs:16-89 | either kind of failed route: withdrawn with nothing else lost and covered by a query that follows, or refused with nothing changed |
| `MetadataOwners.WithdrawalsStay` | crates/kafka-driver-core/src/metadata/revocation.rs:54-77 | whatever a fetch brings, a withdrawal stays in force unless the fetch is about it and was stamped later |
| `MetadataOwners.Run` | src/reactor/metadata/owner.rs:73-177 | in every run, errors included, a view accepted as newer than an outcome rests on a count whose own request was submitted after that outcome was stamped; a route once withdrawn is not served again until a request about it, submitted with later evidence, was answered; and the log of stamps and submissions is never rewritten |
| `MetadataOwners.Fresh` | src/reactor/metadata/topic_routing.rs:133-142 | the causal argument on the log of stamps and submissions |
| `MetadataOwners.MetadataOwner.ViewIsFresh` | src/reactor/metadata/topic_routing.rs:133-149 | the same for the owner itself: the request standing later in its log carries the evidence of the installed count |
| `MetadataOwners.NewerNeedsAnswer` | src/reactor/metadata/topic_routing.rs:133-149 | a view newer than the one shown is what an accepted answer brings, and nothing else does |
| `MetadataOwners.MetadataOwner.NextStamp` | src/reactor/host/topic_view.rs:93-93 | evidence is stamped before the owner is called, later than everything installed |
| `MetadataOwners.MetadataOwner.Submit` | src/reactor/metadata/owner.rs:144-177 | submission records the request after its evidence; a failure leaves nothing pending |
| `MetadataOwners.MetadataOwner.Interpret` | src/reactor/metadata/owner.rs:107-142 | there is one outstanding fetch exactly while the machine refreshes, so a second effect is impossible |
| `MetadataOwners.MetadataOwner.Ask` | src/reactor/metadata/owner.rs:95-104 | a query that must follow the current one is covered for every outcome stamped before |
| `MetadataOwners.MetadataOwner.Complete` | src/reactor/metadata/completion.rs:16-47 | what was covered stays covered, or the fetch that covered it ended without a count; the snapshot shown is the answer without its withdrawn routes, if it was accepted and does not regress, and otherwise the one before; withdrawals it does not supersede stay in force |
| `MetadataOwners.MetadataOwner.Drive` | src/reactor/metadata/owner.rs:73-105 | a turn keeps provenance, coverage and withdrawals, parked fetches included; the scans of the waiters begin exactly when a fetch was submitted or answered, and without one the snapshot and the fetch under way are the same |
| `MetadataOwners.MetadataOwner.WaitForTopicView` | src/reactor/metadata/topic_routing.rs:15-55 | an admitted wait after an outcome is covered by a query that follows it; withdrawals are kept |
| `MetadataOwners.MetadataOwner.Invalidate` | src/reactor/metadata/invalidation.rs:16-89 | a failed route, to a partition leader or the controller, is withdrawn and no longer served, unless no query has room; it is stale, and changes nothing, exactly when the snapshot does not rely on it and it is not withdrawn already; the snapshot loses nothing else, coverage and other withdrawals are kept, and a new withdrawal is covered by a query that follows the failure |
| `MetadataOwners.CompletedKeeps` | src/reactor/metadata/completion.rs:49-86 | a completed fetch keeps coherence, withdrawals, provenance and the order of evidence |
| `Negotiation.Negotiate` | src/negotiation/intersection.rs:9-50 | succeeds exactly for an acceptable advertisement whose overlaps fit, with exactly those overlaps in key order |
| `Negotiation.Overlaps` | src/negotiation/intersection.rs:24-47 | refused exactly for an invalid range or a repeated key, and with that as the reason |
| `Negotiation.LocalDescriptor` | src/negotiation/intersection.rs:52-57 | binary search finds the descriptor of a key exactly when there is one |
| `Negotiation.StableOverlap` | src/negotiation/intersection.rs:59-64 | offers exactly the versions both sides share as stable |
| `Negotiation.Capabilities` | crates/kafka-driver-core/src/capability/set.rs:17-41 | accepted exactly when the list climbs and fits |
| `Negotiation.OrderIndependence` | src/negotiation/intersection.rs:9-50 | success and result do not depend on the order of the advertisement |
| `Negotiation.SelectsMaximum` | src/request/version.rs:32-85 | selection is the largest version negotiated and allowed, fails exactly when there is none, and reports reversed bounds exactly for reversed bounds |
| `Negotiation.NegotiatedWhenShared` | src/negotiation/intersection.rs:9-64 | an API is usable exactly when some version is locally stable and advertised |
| `Negotiation.NegotiatedSelection` | src/request/version.rs:32-85 | end to end, the version sent is the maximum of local stable range, broker range and caller bounds |
| `LaneIndexRuns.Run` | src/reactor/direct_plaintext/cluster_runtime.rs:120-188 | over every run that starts owners as the allocator issues them, each operation is answered as what happened before demands; no key is issued twice, and those issued are what the allocator has issued since; the reuse check never fires; and the index holds exactly the lanes inserted and not removed |
| `LaneIndexRuns.ClusterLanes.InsertOne` | src/reactor/direct_plaintext/cluster_runtime.rs:120-141 | the next owner reserved is in no slot when it is inserted |
| `LaneIndexes.LaneSlots.Insert` | src/reactor/direct_plaintext/cluster_runtime.rs:120-141 | appended and indexed, or refused without effect |
| `LaneIndexes.LaneSlots.RemoveAt` | src/reactor/direct_plaintext/cluster_runtime.rs:163-169 | exactly one lane leaves, the last one takes its place and is found there |
| `LaneIndexes.LaneSlots.Index` | src/reactor/direct_plaintext/cluster_runtime.rs:183-188 | found exactly when present, at its own position |
| `LaneIndexes.LaneSlots.Remove` | src/reactor/direct_plaintext/cluster_runtime.rs:144-161 | refused for the seed, for a lane of a family and for a stale owner, in this order; otherwise it leaves exactly when it is reclaimable |
| `LaneIndexes.LaneSlots.RemoveFamily` | src/reactor/direct_plaintext/cluster_runtime/family_removal.rs:14-25 | all started lanes of a family leave or none does: refused exactly when family and index disagree, kept exactly when one is not reclaimable |
| `LaneIndexes.LaneSlots.RemovePlaces` | src/reactor/direct_plaintext/cluster_runtime/family_removal.rs:21-24 | taking places highest first removes exactly the named lanes, although each removal moves another lane |
| `LaneIndexes.IdentityAllocator.ReserveEndpointLanes` | src/reactor/bornera/lane_identity.rs:76-106 | no endpoint and no lane is issued twice, lanes of a group ascend, and a refused reservation changes nothing |
| `CoordinatorDrives.CoordinatorOwner.Drive` | src/reactor/coordinator/drive.rs:11-35 | the passes never exceed the turn budget, no subtraction underflows, and budget left over clears a flag when the broker is ready |
| `CoordinatorDrives.CoordinatorOwner.FireDueRetries` | src/reactor/coordinator/drive_retry.rs:12-53 | the entries fired were due, all others are untouched, at most the budget fires, and none fires only if none is due |
| `CoordinatorDrives.CoordinatorOwner.ObserveCompletions` | src/reactor/coordinator/drive.rs:37-58 | the entries taken in had a result, all others are untouched, at most the budget completes, and none does only if none has a result |
| `CoordinatorDrives.CoordinatorOwner.StartRequested` | src/reactor/coordinator/drive.rs:60-97 | clears as many flags as it starts, at least one if any is set, and visits positions as the moving cursor dictates |
| `CoordinatorDrives.CoordinatorOwner.ClearFlags` | src/reactor/coordinator/drive.rs:60-97 | without new requests as many passes as flags clear them all |
| `CoordinatorFairness.StarvationExact` | src/reactor/coordinator/drive.rs:60-97 | in consecutive start passes some requested entry can be passed over for ever, under some pattern of renewed requests, exactly with three entries or more and budget two or more, or without budget |
| `CoordinatorFairness.OuterStarves` | src/reactor/coordinator/drive.rs:72-95 | for every such size and budget, asking again for the first and last entry starves the second |
| `CoordinatorFairness.FairWithin` | src/reactor/coordinator/drive.rs:72-95 | with budget one, or at most two entries, a requested entry starts within as many passes as there are entries, whatever is requested meanwhile |
| `CoordinatorFairness.MiddleOfThreeStarves` | src/reactor/coordinator/drive.rs:72-95 | the smallest instance: three entries and budget two |
| `CoordinatorFairness.TurnStarvationExact` | src/reactor/coordinator/drive.rs:11-97 | in whole turns, where retries and completions move the cursor before the start pass, exactly from two entries on, whatever budget is left to it, or without budget |

## Left out

- Submit: the call's identity is required to be new to the lane, as the shared allocator guarantees; `LaneRuns.Run` has no such requirement.
- TurnStarvationExact: leaves every start pass the same budget; which retries and completions the machine behind an entry can produce is arbitrary.
- Step: establishment of a connection precedes every reply and is not a step; flushing is a write.
- RemoveFamily: a family's identities are required to be distinct, as one reservation issues them; retirement flags, refresh cursor and routes are not part of this model.
- AdmitReady: version selection, measuring and encoding of the request body are recorded answers; a version or preparation error is one that was found before anything was sent.
- DrainedByEngine: whether the session was draining, and an unexpected effect, are recorded answers of the session machine.
- LocalDescriptor: the generated descriptor table is a parameter required to be sorted without repeated keys.
- EnsureCapacity: the allocator may grant any capacity from the requested one upwards; the memory itself is not modelled.
- SessionInput: the negotiation and authentication machines are replaced by recorded effects; SASL and SCRAM steps share the one session exchange.
- EndGeneration: back-off times, retry limits and endpoint exhaustion are recorded answers of the broker policy.
- Lanes of a cluster, route installation, seed rotation, resolver permits and name resolution.
- Topic-view waiters as a queue of their own: they repeat the resumable scan; only their causal requirement is modelled.
- Invalidation subscribers of metadata and coordinators: counting only.
- The metadata owner's partition and controller waiters are modelled as queues, not joined to its machine.
- Selector waits and runnable marks, TLS byte movement, worker threads, wake handles, shutdown joins, configuration setters and observation counters.
- Host names and endpoints of brokers beyond their being well formed, and error payloads that only describe a failure.
