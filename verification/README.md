# Verified model of a durable workflow engine

This project models the core of the durable-task engine in Go and proves what the engine promises
over all inputs, all replays and all interleavings. `dafny verify dfyconfig.toml` checks it.

The engine re-executes workflow code against its history. The model follows its parts:

- **Replay.** `Numbering`, `ExternalEvents` and `Replay` give the state of one replay as a value and
  every handler as a function; `NumberingTheorems`, `Outcomes`, `Arrival`, `Alignment`,
  `Determinism`, `ReplayTheorems`, `EventPairing` and `Waits` state what holds over whole replays.
  `WorkflowContext` is the engine's mutable object: its fields, loops and linked lists of waiters,
  each method proved against those functions (`Shifting` and `ContextFacts` hold facts about values
  that it needs). User code is an arbitrary sequence of calls; awaiting only pulls events, so
  completing a task never re-enters it.
- **Patches and retries.** `Patches` relates the turns of any deterministic workflow; `Retry`
  relates the retry chain to the recursive form it replaced.
- **Completion protocol.** `Completion`, `CompletionTheorems` and `CompletionProgress`: Execute
  calls, stream handlers, completion RPCs and Shutdown as a state machine of fine steps that
  interleave freely.
- **Stateful history.** `StatefulHistory` (server), `HistoryCache` (worker) and `Delta` (both ends).
- **Runtime state.** `RuntimeState`, `Applier`, `ApplierTheorems` and `Processor`: from actions to
  history and outboxes, continue-as-new, enforced termination and its cascade.
- **Purge, lineage, lifecycle.** `Purge`, `Lineage`, `TaskHub`, `Worker` and
  `HubDrain`, which composes the hub with its two workers.

Three promises do not hold of the code in general. For each the model keeps the code as it is,
gives failing inputs, and proves exactly when the promise holds:

- External events are conserved. An accepted resume forgets what it holds behind a held suspension;
  a resume that is refused keeps what it has already handed out, and the next one hands it out again;
  and an event that arrives after a refused resume overtakes what is still held.
  `ReplayTheorems.EventsConservedIff` says that there is no other way to lose, repeat or reorder an
  event, and tells these steps from the state before them.
- Patch answers are stable. They are not if the WorkflowStarted event of a turn is lost in such a
  resume while workflow code can run at the end of the turn. `Patches.StableIff` is the exact
  condition, and three histories show the ways in which it fails.
- A recorded detached workflow is matched. Its handler drops one optional timer where the others
  loop, so that it fails behind two of them (`Alignment.DetachedMatchedIff`).

## Model

| member | source | states |
|---|---|---|
| `Numbering.DeliverKeepsInv` | task/orchestrator.go:987-1119 | whatever resolution event arrives, in whatever state, the tables stay mutually consistent (key equals action id, optional ids are exactly the optional pending actions, all keys below the sequence number, resolved ids below every optional timer) and no buffered result is left beside a confirmed task it matches |
| `Numbering.ScheduleKeepsInv` | task/orchestrator.go:416-441 | scheduling any work keeps that invariant, including the immediate redelivery of an early result |
| `Numbering.ConsumeEachKeepsInv` | task/orchestrator.go:914-928 | redelivering over any list of numbers keeps the tables consistent and leaves no lost wake-up at the numbers visited |
| `Numbering.ShiftKeepsInv` | task/orchestrator.go:1308-1362 | removing an optional timer and moving all later numbers down is free of collisions and keeps every table consistent; only moved tasks may have a result waiting |
| `Numbering.DropAtKeepsInv` | task/orchestrator.go:1308-1362 | dropping one optional timer keeps the invariant and removes exactly one position of the numbering |
| `Numbering.DropAllKeepsInv` | task/orchestrator.go:843-861 | the drop loop keeps the invariant and ends with no optional timer under the recorded number |
| `Numbering.ConfirmTimerKeepsInv` | task/orchestrator.go:1082-1103 | confirming a timer keeps the invariant, so no result that waited for it is left behind |
| `Numbering.OnScheduledKeepsInv` | task/orchestrator.go:1025-1044 | every recorded schedule event, accepted or refused, keeps the invariant |
| `NumberingTheorems.NumberingStable` | task/orchestrator.go:905-912 | over any run of schedules, results, recorded schedules and withdrawals no settled number is reassigned, no result is revised and no resolved key is forgotten |
| `NumberingTheorems.ResolvedIsFinal` | task/orchestrator.go:987-1119 | in every reachable state a resolved id lies below the sequence number and below every optional timer, belongs to one kind only, and keeps its work and result in every continuation, where a further resolution of it changes nothing |
| `NumberingTheorems.DeliverDeliverCommute` | task/orchestrator.go:987-1119 | resolutions of different keys can arrive in either order |
| `Outcomes.EachKeyCompletesOne` | task/orchestrator.go:987-1119 | in every reachable state resolved keys and completed tasks correspond one to one: each key completed the task of its own kind under its number, each completed task was completed by one key |
| `Outcomes.OutcomesAsReported` | task/orchestrator.go:987-1119 | in every reachable state a completed task shows exactly what the first report of its key said, as a result or as a failure; every other reported key is held back with its first report, and nothing settled and pending awaits it |
| `Outcomes.SchedulesKeepIdentity` | task/orchestrator.go:979-985 | in every reachable state a pending schedule whose activity was resolved early carries the identity its first report recorded, and every other carries none |
| `Arrival.CallDelivered` | task/orchestrator.go:416-441 | a resolution delivered before or after the next schedule call leads to the same state, whatever is provisional |
| `Arrival.RecordDeliverCommute` | task/orchestrator.go:843-861 | a recorded schedule, with the drops and confirmations it causes, is accepted or refused alike and leads to the same state before or after a delivery |
| `Arrival.EarlyEqualsLate` | task/orchestrator.go:869-928 | a resolution delivered before or after any run of schedule calls, other results, recorded schedules and withdrawals leads to the same state, provisional numbers or not |
| `Arrival.FirstResolutionCounts` | task/orchestrator.go:869-928 | only the first resolution of a key counts, whenever it arrives: over any run of steps all later ones of the same kind and number are ignored, and the replay ends as if the first had come last |
| `Alignment.RecordAligned` | task/orchestrator.go:843-861 | a recorded schedule finds its own work: the drop loop brings exactly the recorded item to the recorded number, whichever optional timers history lacks |
| `Alignment.RunAligned` | task/orchestrator.go:1025-1044 | the alignment of program and history is kept by every step of a deterministic replay, and every recorded schedule is accepted |
| `Alignment.ResolvedIsRecorded` | task/orchestrator.go:905-912 | in an aligned replay a result is only ever given to the work history recorded under its number |
| `Alignment.ReplayAligns` | task/orchestrator.go:1308-1362 | replaying any history that lacks some or all optional timers numbers all recorded work as recorded and gives each result to the recorded work |
| `Alignment.LegacyReplay` | task/orchestrator.go:1082-1103 | for a history of a release without optional timers every number means what numbering without optional timers would have given it |
| `Alignment.ModernNeverDrops` | task/orchestrator.go:1291-1300 | replaying a history that records every optional timer never drops or renumbers anything |
| `Alignment.DetachedMatchedIff` | task/detached.go:178-206 | a detached schedule is matched if and only if at most one optional timer is outstanding in front of it |
| `Alignment.DetachedBehindTwoWaits` | task/detached.go:180-184 | the failing case: two waits without a timeout before a detached schedule, replayed from an older history, are rejected |
| `Determinism.RecordAcceptedIff` | task/orchestrator.go:843-861 | a recorded schedule is accepted if and only if the work behind the optional timers it may drop is pending and of the recorded kind: an activity, a child, a timer of its sort, a detached workflow of the same instance |
| `Determinism.AcceptedHistoryIsOwn` | task/orchestrator.go:1025-1044 | if every recorded schedule of a run is accepted, each recorded number holds to the end work of the recorded kind that is no longer pending |
| `ExternalEvents.RaiseKeepsInv` | task/orchestrator.go:1121-1146 | an event goes to the oldest waiter or to the end of the buffer; what was raised under the name grows by it, and no other name changes |
| `ExternalEvents.WaitKeepsInv` | task/orchestrator.go:712-763 | waiting raises nothing and touches no other waiter; it takes the oldest buffered event if there is one, gives up at once on a zero timeout, and is queued otherwise |
| `ExternalEvents.ExpireKeepsInv` | task/orchestrator.go:744-760 | firing timers cancel exactly their own waiters that still wait, keep the order of the others, revise no finished wait and lose no event |
| `Waits.WaitsEndByTimer` | task/orchestrator.go:672-763 | in every replay whoever waits has a timer of its own, for the event and the time it asked for; it is cancelled only once that timer has fired, and does not wait any longer then |
| `Replay.CallKeepsInv` | task/orchestrator.go:416-441 | a call from user code keeps the whole state consistent and advances the numbering monotonically |
| `Replay.WaitForKeepsInv` | task/orchestrator.go:672-763 | a wait with its backing timer does too, including a timer that has already fired |
| `Replay.DispatchKeepsInv` | task/orchestrator.go:292-354 | every event kind keeps the invariant, and only a raised event adds to what was raised |
| `Replay.ArriveKeepsInv` | task/orchestrator.go:292-354 | every event that arrives keeps the invariant; after termination it is ignored, while suspended it is held |
| `Replay.ResumeOutcome` | task/orchestrator.go:1153-1162 | what any resume does, told from the state before it: whether it is accepted, which held events reach a handler, what is held and what was raised afterwards |
| `Replay.ResumeReachesAllIff` | task/orchestrator.go:1153-1162 | a resume hands every held event to its handler and keeps none back if and only if no held suspension precedes another held event and no held event is refused |
| `Replay.ResumeLosesEvent` | task/orchestrator.go:1153-1162 | a failing case: an event held behind a held suspension is neither delivered nor kept |
| `Replay.ResumeRepeatsEvent` | task/orchestrator.go:1155-1159 | a failing case: a resume that is refused after it has handed out an event keeps that event held, so that the next resume hands it out again |
| `Replay.RefusedResumeCompletes` | task/orchestrator.go:1153-1162 | a resume can complete an awaited task and then be refused, so that whoever awaits it is given the error |
| `ReplayTheorems.ReplayStable` | task/orchestrator.go:259-354 | a whole replay, user code and events interleaved, never renumbers settled work and never revises a result |
| `ReplayTheorems.TerminationWins` | task/orchestrator.go:1164-1182 | once a terminate event is processed, in any replay and even while suspended or with provisional numbers, exactly one completion is returned and it is not a continue-as-new |
| `ReplayTheorems.TerminationDecides` | task/orchestrator.go:1164-1182 | the completion returned after a termination is the one the workflow had returned before, if that ends it for good, and otherwise a completion as terminated |
| `ReplayTheorems.TerminationFindsOne` | task/orchestrator.go:1164-1182 | until the engine gives up, a replay never holds two pending completions, so a termination finds at most one |
| `ReplayTheorems.EventsConserved` | task/orchestrator.go:712-763 | for each name, what arrived in a lossless replay is what waiters received followed by what is buffered followed by what is held; in every replay buffer and waiters are never both non-empty, and the queue holds exactly the waiters that are not done, oldest first |
| `ReplayTheorems.NextConservesIff` | task/orchestrator.go:292-354 | a single step of user code or engine conserves events if and only if it is lossless, which can be told from the state before it |
| `ReplayTheorems.EventsConservedIff` | task/orchestrator.go:1121-1162 | a replay conserves events after every step if and only if each of its steps is lossless |
| `ReplayTheorems.NestedSuspendReachable` | task/orchestrator.go:1148-1162 | a replay that suspends twice before an event arrives reaches a resume that loses it |
| `ReplayTheorems.RefusedResumeReachable` | task/orchestrator.go:1153-1162 | a replay in which one event arrives once and is handed out twice |
| `EventPairing.RaisePaired` | task/orchestrator.go:1121-1146 | a raised event completes the waiter of its name that has waited longest, and that keeps the pairing in order |
| `EventPairing.EventsMeetWaitersInOrder` | task/orchestrator.go:712-763 | in every replay and under every name, waiters in the order they began to wait received the events in the order they were handed out, and nobody still waiting was overtaken |
| `WorkflowContexts.WorkflowContext.constructor` | task/orchestrator.go:200-230 | a fresh context is valid and empty and stands at the start of its history |
| `WorkflowContexts.WorkflowContext.OnWaitTimerFired` | task/orchestrator.go:744-760 | through its own reference to the list it joined, the callback cancels exactly its own waiter and unlinks the list if that empties it |
| `WorkflowContexts.WorkflowContext.ResolutionIDProvisional` | task/orchestrator.go:905-912 | true exactly if some optional timer at or below the id is outstanding |
| `WorkflowContexts.WorkflowContext.BufferResolution` | task/orchestrator.go:869-883 | keeps the first undelivered resolution of each key |
| `WorkflowContexts.WorkflowContext.CompleteTask` | task/orchestrator.go:987-1005 | completes the pending task, runs the callback of the timer behind a wait, restores the activity identity |
| `WorkflowContexts.WorkflowContext.OnResolved` | task/orchestrator.go:987-1119 | the five resolution handlers refine the delivery function |
| `WorkflowContexts.WorkflowContext.ConsumeBufferedResolution` | task/orchestrator.go:889-899 | redelivers the buffered resolution of one key, unless its id is provisional |
| `WorkflowContexts.WorkflowContext.ConsumeReadyBufferedResolutions` | task/orchestrator.go:914-928 | redelivers to all pending tasks in ascending order |
| `WorkflowContexts.WorkflowContext.ShiftActions` | task/orchestrator.go:1319-1335 | the in-place loop over the actions equals the simultaneous renumbering |
| `WorkflowContexts.WorkflowContext.ShiftTasks` | task/orchestrator.go:1337-1348 | so does the loop over the tasks, which also returns the moved numbers in order |
| `WorkflowContexts.WorkflowContext.DropOptionalExternalEventTimerAt` | task/orchestrator.go:1308-1362 | drops exactly when an optional timer is pending there, and then refines the drop function |
| `WorkflowContexts.WorkflowContext.DropOptionalTimersAt` | task/orchestrator.go:844-851 | the drop loop terminates with no optional timer at the number |
| `WorkflowContexts.WorkflowContext.OnWorkScheduled` | task/orchestrator.go:843-861 | recorded activities and children: accepts, drops and refuses as the specification does |
| `WorkflowContexts.WorkflowContext.OnDetachedWorkflowCreated` | task/detached.go:178-206 | recorded detached workflows: one drop at most, and the instance must agree |
| `WorkflowContexts.WorkflowContext.OnTimerCreated` | task/orchestrator.go:1082-1103 | recorded timers: an optional one is confirmed without dropping, any other after the drop loop |
| `WorkflowContexts.WorkflowContext.Schedule` | task/orchestrator.go:416-441 | allocates the next number, registers action and task, and hands over an early result |
| `WorkflowContexts.WorkflowContext.OnExternalEventRaised` | task/orchestrator.go:1121-1146 | refines raising on the lists of waiters, which are objects of their own |
| `WorkflowContexts.WorkflowContext.OnCompleted` | task/task.go:93-102 | a callback attached to a completed timer runs at once |
| `WorkflowContexts.WorkflowContext.WaitForSingleEvent` | task/orchestrator.go:712-763 | refines waiting: buffered event, zero timeout, and a queued waiter behind a timer |
| `WorkflowContexts.WorkflowContext.FindCompletion` | task/orchestrator.go:1166-1180 | finds a pending completion if there is one |
| `WorkflowContexts.WorkflowContext.OnExecutionTerminated` | task/orchestrator.go:1164-1182 | a recorded completion wins, a continue-as-new is replaced, otherwise the termination completes, whichever pending completion the iteration finds first |
| `WorkflowContexts.WorkflowContext.HandleEvent` | task/orchestrator.go:292-354 | ignores after termination, holds while suspended, dispatches otherwise |
| `WorkflowContexts.WorkflowContext.OnExecutionResumed` | task/orchestrator.go:1153-1162 | replays the held events in order, stops at a failing one, then clears them |
| `WorkflowContexts.WorkflowContext.ProcessEvent` | task/orchestrator.go:292-354 | refines the processing of any event in any valid state |
| `WorkflowContexts.HistoryReader.GetNextHistoryEvent` | task/orchestrator.go:273-290 | the next event, old ones first, with the position advanced and the replay flag set; at the end nothing changes |
| `WorkflowContexts.WorkflowContext.ProcessNextEvent` | task/orchestrator.go:259-271 | takes and processes the next event of the history, and says when there is none |
| `ContextFacts.ArrivesUnique` | task/orchestrator.go:1164-1182 | where at most one completion is pending, which is so in every state a replay reaches, what the methods may do is exactly what the specification does |
| `WorkflowContexts.WorkflowContext.ActionIDProvisional` | task/orchestrator.go:933-948 | true exactly if an optional timer at or below the id has a buffered result at or above it |
| `WorkflowContexts.WorkflowContext.CarryoverEvents` | task/orchestrator.go:1379-1388 | every buffered event once, in order under each name |
| `WorkflowContexts.WorkflowContext.Actions` | task/orchestrator.go:1364-1394 | returns exactly the actions that may be emitted, in ascending order and without skipping pending work in front of new work; nothing while suspended and not terminated, everything pending if no result is held back or no optional timer is outstanding; all buffered events are carried over by a completion that keeps them |
| `Patches.ReplayStable` | task/orchestrator.go:781-801 | for any deterministic workflow, everything a turn let it observe, patch answers included, is observed first in the replay of the stamped and extended history |
| `Patches.SameAnswer` | backend/orchestration.go:129-139 | an answer given in a turn, true or false, is given at the same point of the next replay |
| `Patches.EveryLaterTurn` | task/orchestrator.go:773-801 | and so in every later turn, however many there are |
| `Patches.StableIff` | task/orchestrator.go:781-801 | a turn is stable for all workflows and all continuations if and only if its WorkflowStarted event was handled whenever workflow code can run at its end |
| `Patches.UnstableOtherwise` | task/orchestrator.go:781-801 | wherever that fails, a workflow that waits for what the last step of the turn completes and then asks gets a different answer in the next replay |
| `Patches.StartHandledWhen` | task/orchestrator.go:307-317 | the condition holds whenever suspensions are not nested and no event is refused |
| `Patches.ResuspendedForgetsStart` | task/task.go:59-73 | a failing history: a resume completes the awaited activity and suspends again, so that code runs at the end of a turn whose start was forgotten |
| `Patches.NestedSuspendForgetsStart` | task/orchestrator.go:1153-1162 | a failing history: the start of a turn is forgotten behind a second suspension, and the activity completes later in the turn |
| `Patches.RefusedResumeForgetsStart` | task/orchestrator.go:1155-1159 | a failing history: a resume is refused in front of the start of the turn, and code that sees the error runs on |
| `Patches.DecisionsStay` | task/orchestrator.go:781-801 | within a turn a decision once made is never revised |
| `Patches.EncounteredAreTrue` | task/orchestrator.go:781-801 | only patches answered with true are reported for stamping |
| `Retry.SameUnlessDiverges` | task/retry.go:35-80 | the iterative chain does the same as the recursive form if and only if no attempt on the way retries an undecodable success, retries an error of an incomplete attempt, or loses the identity of a cancelled attempt |
| `Retry.SuccessRunsAgainIff` | task/retry.go:39-75 | a successful attempt runs again if and only if the step that completed it failed afterwards, the policy retries that error and the retry timer fires; in the recursive form also if its result cannot be decoded and that error is retried |
| `Retry.SameOnRecordedOutcomes` | task/orchestrator.go:578-612 | so it does wherever no success is undecodable, every cancelled attempt recorded its identity and no error reaches an incomplete attempt |
| `Retry.AttemptsBounded` | task/retry.go:35-80 | no chain schedules more attempts than the policy allows |
| `Retry.AttemptsExact` | task/retry.go:35-80 | as long as attempts fail, delays are not zero and timers fire, the chain waits the delay of the policy and tries again under the identity of the failed attempt; it ends with the first attempt that does not, and has its result |
| `Retry.AllAttemptsMade` | task/retry.go:35-80 | a chain whose attempts all fail makes exactly as many as the policy allows and fails as the last one did |
| `Retry.RetryTask.Advance` | task/retry.go:36-75 | one pass of the loop does what the chain prescribes for the current attempt |
| `Retry.RetryTask.Await` | task/retry.go:35-80 | awaiting schedules exactly what the chain prescribes, and nothing more once it has finished, however often it is awaited |
| `Completion.NextKeepsCore` | backend/executor_transport.go:31-92 | every step of every goroutine keeps the tables of attempts, waiters and locks consistent |
| `Completion.OwnWaiter` | backend/local/task.go:63-87 | an attempt that registers its waiter never finds another one in its place |
| `Completion.WaiterIsRegistered` | backend/executor.go:136-197 | a waiter belongs to the attempt registered under its key and has no answer yet |
| `Completion.AdmittedIsLive` | backend/executor_transport.go:61-75 | an RPC that passed its checks works on an attempt that is still registered, not drained, and whose token it has |
| `CompletionTheorems.CompletionIsolated` | backend/executor_transport.go:61-75 | in every interleaving each accepted delivery reaches the waiter of the attempt that owns the token (or none is required), and no attempt receives two |
| `CompletionTheorems.ReturnsOwnResponse` | backend/executor.go:136-197 | at the step that makes an Execute call return, its response was accepted from an RPC on its own attempt, with its token where tokens are required |
| `CompletionTheorems.SuccessMeansDelivered` | backend/executor.go:520-543 | an RPC reports success if and only if its response was delivered, and its attempt is then terminal |
| `CompletionTheorems.OnlyOwnerReleases` | backend/executor.go:136-197 | a registration ends only through its own attempt, so a finishing attempt never removes its successor |
| `CompletionTheorems.OnlyOwnWaiterRemoved` | backend/local/task.go:135-160 | a waiter leaves the table only through its own call, an RPC on its own attempt, or the cancellation of its task |
| `CompletionTheorems.DrainsCompletely` | backend/executor.go:298-324 | once Shutdown has returned every attempt ever registered is terminal, and once a stream handler has returned every attempt it claimed is |
| `CompletionTheorems.NothingRegistersLater` | backend/executor_transport.go:81-92 | after shutdown has begun nothing is registered any more |
| `CompletionProgress.NothingBeforeDispatch` | backend/executor_transport.go:52-66 | every accepted delivery is for an attempt whose work item the handler of a stream had taken and then claimed, while the attempt was still pending |
| `CompletionProgress.CompletionAccepted` | backend/executor_transport.go:61-75 | in every reachable state a claimed attempt that waits accepts an RPC under its token (or none where not required): the RPC succeeds and the Execute call returns exactly its response |
| `CompletionProgress.RefusedForReason` | backend/executor_transport.go:61-75 | in every interleaving an RPC is refused if and only if it met a terminal or unclaimed attempt, a token that does not fit, or nobody waiting |
| `CompletionProgress.AttemptServed` | backend/executor.go:136-197 | in every reachable state before Shutdown a free key can be served through any idle stream, from registration to the returned response, and is then free again |
| `CompletionProgress.ShutdownResponsive` | backend/executor.go:295-324 | whatever is under way, Shutdown returns by its own steps alone |
| `CompletionProgress.CloseResponsive` | backend/executor.go:332-427 | whatever is under way, an idle stream's handler closes by its own steps alone |
| `HistoryCaches.FindExecutionID` | client/worker_history.go:86-93 | the execution id of the first start event, empty if there is none |
| `HistoryCaches.WorkflowHistoryCache.Get` | client/worker_history.go:171-184 | a hit needs an entry of the requested, non-empty execution; it returns the stored events and refreshes the age |
| `HistoryCaches.WorkflowHistoryCache.LruExcept` | client/worker_history.go:229-242 | an entry other than the kept one with the oldest access, or none if there is no other |
| `HistoryCaches.WorkflowHistoryCache.EvictToFit` | client/worker_history.go:214-227 | terminates within both budgets or with the kept entry alone; every evicted entry was accessed no later than every surviving one, and no more were evicted than needed |
| `HistoryCaches.WorkflowHistoryCache.PutForExecution` | client/worker_history.go:190-208 | the stored entry survives, older entries make room, accounting stays exact |
| `HistoryCaches.WorkflowHistoryCache.RemoveEntry` | client/worker_history.go:244-249 | removes one entry and its bytes |
| `HistoryCaches.WorkflowHistoryCache.SweepExpired` | client/worker_history.go:265-274 | drops exactly the entries older than the time to live |
| `HistoryCaches.WorkflowHistoryCache.Reset` | client/worker_history.go:257-262 | empties cache and byte total |
| `StatefulHistory.OwnerUnique` | backend/executor_stateful.go:103-118 | at most one stream owns an instance, so the order of iteration does not matter |
| `StatefulHistory.AddingMovesToNewcomer` | backend/executor_stateful.go:103-118 | a new stream changes an owner only to itself |
| `StatefulHistory.RemovingOthersKeepsOwner` | backend/executor_stateful.go:103-118 | the departure of a stream that is not the owner changes nothing |
| `StatefulHistory.AffinityStreamOwner` | backend/executor_stateful.go:103-118 | the loop finds the owner among the capable streams, or none if there are none |
| `StatefulHistory.StreamState.EvictWarm` | backend/executor_stateful.go:166-179 | terminates with the cap met or the kept instance alone, forgets no more than needed, and changes no surviving record |
| `StatefulHistory.StreamState.ApplyStatefulHistory` | backend/executor_stateful.go:140-180 | a delta is what is left of the history after the prefix it names; the stream then records the full length |
| `Delta.ResolveWorkflowHistory` | client/worker_history.go:53-84 | refines the choice between sent, cached and fetched history, with the refusal of another execution's history |
| `Delta.RefreshCache` | client/worker_grpc.go:281-292 | an ended execution leaves the cache, any other is in it as replayed, and no other entry changes |
| `Delta.DeltaRefinesFullSend` | client/worker_history.go:53-84 | in every run of commits, sends, turns, misses, evictions and reconnects, first turns included, the worker replays exactly the history the server started from after a full send or a hit, and that history or an extension of it by the same execution after a miss |
| `Delta.ResolvedExactlyWhen` | client/worker_history.go:53-84 | in every reachable state a full send is replayed as sent, a delta from the cache if the named prefix is there, else from the fetched history of its execution; it is abandoned exactly if prefix and fetch both fail |
| `Delta.NextTurnIsHit` | backend/executor_stateful.go:140-180 | whatever went before, the turn after a turn is sent as a delta of exactly what was committed in between and is replayed from the cache |
| `Delta.DeltaBuildsOnSend` | backend/executor_stateful.go:140-165 | a delta builds on an earlier send of the same instance and execution over the same connection, and names exactly as many events as were committed then |
| `Delta.CacheHoldsPrefixes` | client/worker_grpc.go:281-292 | every cache entry of a named execution is a prefix of what it committed |
| `RuntimeStates.HistoryResolvesOnce` | backend/runtimestate/runtimestate.go:59-107 | whatever arrives in whatever order, no work is recorded as resolved twice |
| `RuntimeStates.RecordedExactly` | backend/runtimestate/runtimestate.go:43-107 | whatever arrives, exactly the events that repeat no start, completion or resolution are recorded, in order |
| `RuntimeStates.SummaryExact` | backend/runtimestate/runtimestate.go:59-98 | the first start and the first completion stay, and the last suspend or resume decides |
| `RuntimeStates.DedupSet.Has` | backend/runtimestate/dedup/set.go:46-52 | on ids of 32 bits, true exactly if the events the set was made for hold a resolution of the key, although the set holds packed keys only |
| `RuntimeStates.DedupSet.Add` | backend/runtimestate/dedup/set.go:55-65 | adds the key and says whether it was present |
| `RuntimeStates.DedupSet.Populate` | backend/runtimestate/dedup/set.go:67-73 | after populating, the set detects exactly what the events resolve |
| `RuntimeStates.RuntimeState.IsPresent` | backend/runtimestate/dedup/key.go:57-64 | the scan finds a resolution exactly if there is one |
| `RuntimeStates.RuntimeState.Add` | backend/runtimestate/runtimestate.go:36-38 | accepts exactly what is not a duplicate and appends it |
| `RuntimeStates.RuntimeState.AddAll` | backend/runtimestate/runtimestate.go:43-53 | the batch form with a set refines adding one by one with scans, verdict by verdict |
| `Applier.ApplyAppends` | backend/runtimestate/applier.go:63-504 | history and the three outboxes grow independently: one record per recorded action, one entry per piece of work that was not resolved when the pass began |
| `Applier.Actions` | backend/runtimestate/applier.go:63-504 | the loop over the actions refines applying them in order, ending at a continue-as-new or a refused action |
| `Applier.ApplyAction` | backend/runtimestate/applier.go:73-500 | one action: completed, restarted, refused, or recorded and dispatched |
| `Applier.DispatchAction` | backend/runtimestate/applier.go:222-500 | fills exactly one outbox, unless the dedup set knows the work as resolved |
| `Applier.CompleteWorkflow` | backend/runtimestate/applier.go:156-221 | records the completion and reports to the parent, as a result on success and as a failure otherwise |
| `Applier.Regenerate` | backend/runtimestate/applier.go:88-155 | a new generation replaces the state |
| `Applier.Replace` | backend/runtimestate/applier.go:506-523 | copies every field of the new state |
| `ApplierTheorems.WorkRecorded` | backend/runtimestate/applier.go:222-474 | history records exactly the activities, timers, children, detached workflows and sent events that were asked for, in order and with all that was asked |
| `ApplierTheorems.TasksDispatched` | backend/runtimestate/applier.go:261-297 | exactly the activities that were not resolved yet are dispatched, in order, as they were asked for |
| `ApplierTheorems.TimersSet` | backend/runtimestate/applier.go:222-260 | exactly the timers that had not fired yet are set, in order, as they were asked for |
| `ApplierTheorems.MessagesSent` | backend/runtimestate/applier.go:298-474 | exactly the starts of unresolved children and of detached workflows, the events and the terminations that were asked for are sent, in order; a child is told the way back to its parent |
| `ApplierTheorems.PassEndsAt` | backend/runtimestate/applier.go:63-504 | a pass is applied if and only if it gets past every action; otherwise the first it does not get past starts a new generation, if that is a continue-as-new of a started workflow, and is refused if not |
| `ApplierTheorems.ParentToldOnce` | backend/runtimestate/applier.go:170-220 | a pass that completes a child sends exactly one result, any other pass none |
| `ApplierTheorems.ChildReportsBack` | backend/runtimestate/applier.go:156-221 | whichever generation of a child completes, its report goes to the instance and application that created it under the number it was created with; it carries the result of a success and the failure of any other end |
| `ApplierTheorems.FirstCompletionWins` | backend/runtimestate/applier.go:81-87 | nothing after the first completion completes differently, restarts or resets anything |
| `ApplierTheorems.LaterCompletionsIgnored` | backend/runtimestate/applier.go:81-87 | on a completed state a pass equals the pass without its completions |
| `ApplierTheorems.RestartLeavesNewGeneration` | backend/runtimestate/applier.go:88-155 | a continue-as-new leaves the new generation only, with empty outboxes, whatever comes before or after it |
| `ApplierTheorems.NewGenerationHistory` | backend/runtimestate/applier.go:99-151 | that generation consists of the two started events followed by the carried-over events in order, and is neither completed nor suspended |
| `ApplierTheorems.NoRestartWithoutRequest` | backend/runtimestate/applier.go:88-155 | no pass resets the history without being asked to |
| `Processor.ForceCompletes` | backend/orchestration.go:198-221 | forced termination appends one completion, drops the pending work and tells the parent once, as a failure |
| `Processor.TerminatingLoop` | backend/orchestration.go:144-155 | with a terminate event in the work item the history is extended, never reset |
| `Processor.TerminationEnds` | backend/orchestration.go:94-226 | an executed and committed work item that carries a terminate event ends completed and never continued as new |
| `Processor.TurnRecorded` | backend/orchestration.go:94-196 | a work item without termination or continue-as-new is one turn: its start, the new events that repeat nothing and the records of its actions, in this order; unresolved work is dispatched |
| `Processor.LastGenerationCommitted` | backend/orchestration.go:170-196 | after up to 20 generations within one work item the first that does not continue as new is committed with its records |
| `Processor.TruncateAtRestart` | backend/orchestration.go:144-155 | all actions before the first continue-as-new, and no other |
| `Processor.FindTermination` | backend/orchestration.go:96-102 | the first terminate event, or none if there is none |
| `Processor.ChildrenRecorded` | backend/backend.go:316-342 | the collected children are exactly the recorded ones, each under the router of the first event that records it |
| `Processor.GetChildWorkflowInstances` | backend/backend.go:316-342 | each recorded child once, with the router of its first record |
| `Processor.CascadeMessages` | backend/backend.go:288-308 | exactly one terminate message for each distinct child, whatever the order of iteration |
| `Processor.AppendCascadeTerminateMessages` | backend/backend.go:288-308 | appended only for a recursive termination; nothing else changes |
| `Processor.ExecuteLoop` | backend/orchestration.go:107-196 | the in-place loop refines its functional form; it calls the executor at most 21 times, once only in a terminating work item, and a workflow that always continues as new is abandoned after the 21st call |
| `Processor.ForceTermination` | backend/orchestration.go:198-221 | refines the forced completion |
| `Processor.ProcessWorkItem` | backend/orchestration.go:78-227 | a new or started, uncompleted instance is executed and records its turn; one that has events without a start, or is completed, keeps history, tasks and timers; otherwise abandoned on error, or committed and cascaded |
| `Purge.DescendantsGone` | backend/backend.go:198-260 | with a purged instance every local descendant, at any depth, is purged |
| `Purge.Store.PurgeChildren` | backend/backend.go:223-252 | children in any order, absent children ignored; the count is exact on every path, only descendants are removed, and it succeeds if nothing below fails |
| `Purge.Store.PurgeWorkflowState` | backend/backend.go:198-260 | on any acyclic child graph the recursion terminates, the count is what was removed however it ends, an instance goes only after its local children, and only the root and its local descendants go; if nothing below fails and all may be purged, it succeeds and all of them are gone |
| `Lineage.AssembleProtoPropagatedHistory` | backend/runtimestate/propagation.go:39-94 | the received chunks for a lineage, then the own events if there are any |
| `Lineage.PropagatedHistoryFromProto` | api/propagation.go:347-384 | decodes all chunks or refuses the whole |
| `Lineage.ValidatePropagatedHistory` | api/propagation.go:389-399 | accepts exactly if every chunk is present and names its application |
| `Lineage.LineageRoundTrip` | api/propagation.go:347-384 | through a chain of any depth, what arrives decodes to the events of the contributing hops, oldest first |
| `Lineage.RestartsKeepLineage` | backend/runtimestate/propagation.go:24-29 | after any number of continue-as-new generations the next one decodes all that the first received followed by what each generation recorded, or in own scope what the last one recorded |
| `Lineage.ContributorsAreSuffix` | backend/runtimestate/propagation.go:39-94 | the contributing hops are the last ones without a gap, back to the last hop of own scope |
| `Lineage.DecodedPartition` | api/propagation.go:347-384 | the decoded ranges partition the event list and describe their chunks |
| `Lineage.ChunkHoldsItsEvents` | api/propagation.go:138-156 | clamping never changes anything, and each range holds exactly the events of its own chunk |
| `Lineage.GetEvents` | api/propagation.go:104-134 | the queries return the events of the matching chunks in order |
| `Lineage.InstanceQuery` | api/propagation.go:115-123 | asking for an instance returns all it recorded and nothing else |
| `TaskHub.LifecycleSafe` | backend/taskhub.go:65-212 | in every interleaving at most one finisher per epoch and one at work, every done channel closed at most once, the backend stopped only after both workers drained without error, and no start while stopping |
| `HubDrain.BackendStopsUnderQuietWorkers` | backend/taskhub.go:178-201 | in every interleaving of hub, finishers and both workers, when the backend is stopped every item either worker ever fetched is over and no poll loop is left |
| `TaskHub.FailedDrainIsFinal` | backend/taskhub.go:203-212 | after a failed drain the hub neither starts nor stops again |
| `TaskHub.WholeEpoch` | backend/taskhub.go:65-212 | in every reachable state a hub that is down starts and stops again: after a clean drain the backend is stopped once and the hub is down, after any other the backend keeps running and the hub stays stopping |
| `Worker.WorkerSafe` | backend/worker.go:112-221 | in every interleaving the items in flight never exceed the capacity, no slot is lost or given back twice, one generation is live, and drainDone closes only after its poll loop and items are over |
| `Worker.ItemServed` | backend/worker.go:112-180 | in every reachable state an idle poll loop gets a slot if one is free; the item it fetches is processed, and then the slots are as before |
| `Worker.WorkerDrains` | backend/worker.go:182-221 | from every reachable state a running worker drains by its own steps alone, and can then be started again |
| `Worker.DrainedStaysDrained` | backend/worker.go:182-221 | nothing is fetched for a drained generation afterwards |

## Left out

- EventsConserved: conservation is stated for lossless replays; `ReplayTheorems.EventsConservedIff` shows that it fails in every other.
- EveryLaterTurn: assumes that no turn loses its start; `Patches.StableIff` shows that stability fails otherwise.
- DeltaRefinesFullSend: one stream and the worker behind it; several workers share nothing but the committed histories.
- StableIff: the workflow function is entered when its ExecutionStarted event is taken; one that is held back by a suspension, which would enter user code from within a resume, is not modelled.
- ReplayAligns: a detached schedule is recorded only where at most one optional timer precedes it; `Alignment.DetachedMatchedIff` is the exact condition.
- AddAll: requires ids of 32 bits, the width of the source's type; sequence numbers and event counts are otherwise unbounded and do not wrap around.
- Actions: an action that needs the start event of a state without one is modelled as refused, where the code would panic; the propagated history attached to messages is the subject of `Lineage` alone.
- LineageRoundTrip: marshalling is a datatype of bytes that decode or do not, with decoding as its inverse; the byte format is not modelled.
- DrainsCompletely: ranging over a concurrent map visits at least the keys present when it begins, each once; a key registered later may or may not be visited.
- AttemptServed: from every reachable state the steps that serve a key are there; that a scheduler takes them is not modelled. So it is for `CompletionAccepted`, `ShutdownResponsive`, `CloseResponsive`, `Worker.ItemServed`, `Worker.WorkerDrains` and `TaskHub.WholeEpoch`.
- AcceptedHistoryIsOwn: a recorded number is followed to the end while only higher numbers are recorded, as a history does.
- PurgeWorkflowState: another application's answer to a purge request is a parameter.
- Default instance ids of detached workflows and the parent information on retried children.
- Upper-casing of event names: names are taken as normalised.
- The version name stamped on a turn (patches are stamped in `Patches`), custom status and timestamps.
- Failures while encoding inputs and results, and JSON and protobuf encoding in general.
- The floating-point part of the retry delay: a function of the attempt and its error.
- Rendezvous hashes, UUIDs and the derivation of child instance ids: functions and fresh values given as parameters.
- Tracing, logging, gRPC setup, reconnect and backoff loops, and wall-clock time beyond an abstract `now`.
- The activity and child-workflow queries on propagated histories, and the list of application ids.
- Client option builders, deprecated aliases and the `workflow` package, which forward their arguments.
- SQLite and PostgreSQL storage; a backend is what its callers rely on.
