# Proofs about the OBCX actor runtime

OBCX is an actor runtime. Its hard part is a handful of concurrent protocols and the sequential algorithms around them.
Each protocol is modelled as a state machine: one step is one critical section or one atomic operation, steps of all
threads interleave freely, and a *run* is any sequence of enabled steps from the initial state. The theorems hold in
every state of every run (`IsRun`), for every number of workers, mailboxes, calls and requests. What the environment
answers (how a coroutine hands control back, what an actor emits, whether a write succeeds, whether a drain times out)
is left open and quantified over.

The source updates these structures in place. So beside each protocol there is an object model (`*Objects.dfy`,
`Routing.dfy`, `DependencyOrder.dfy`, `Staging.dfy`, `Tasks.dfy`) whose methods have the source's loops and field updates
and are proved to do what the functions of the protocol say. What such a function means is stated apart from it: as
relations between the state before and after that name none of these functions (`MailboxLaws`, `ExecutorOrder`,
`ReloadSteps` and the `ensures` of the methods), and over runs as the cause of every result (`SchedulerResults`,
`WriteQueueResults`).

| files | part of the system |
|---|---|
| Mailboxes, Metrics, MailboxLaws | one critical section of the scheduler on one mailbox; accumulated totals; what each section says about its result |
| Boxes, BoxProofs, Accounting | a mailbox with everything in flight for it; its invariant; what a section conserves |
| Scheduler, SchedulerProofs, SchedulerInvariant, SchedulerTheorems, SchedulerHistory | the whole scheduler |
| SchedulerResults, SchedulerSteps | where every result and total comes from; what each kind of step decides |
| SchedulerObjects | mailbox and tables as objects |
| Tasks | nested tasks that forward an I/O epoch; the state of an asynchronous operation |
| Executor, ExecutorInvariant, ExecutorProofs, ExecutorShutdown, ExecutorTheorems, ExecutorOrder, ExecutorObjects | the work-stealing executor |
| Reload, ReloadInvariant, ReloadProofs, ReloadTheorems, ReloadSteps, ReloadObjects | hot reload: gate, leases, cutover, shutdown |
| Graphs, DependencyOrder | dependency graphs: Kahn's search, the builder's ordering |
| Pipelines, Routing | the orchestrator |
| WriteQueue, WriteQueueResults, WriteQueueObjects, Cancellation | smaller protocols |
| CommandTable, Commands, Partitions | the command routing table, the dispatch of commands, partition keys |
| Identities, Packages, Staging | process-owned identities, the order of discovery, the staged dependency closure |

## Findings

- `reload` records no result when preparing a candidate throws, so requests = succeeded + failed + busy + running holds
  exactly when none threw there (`RequestsAccountedFor`, `EscapedRequestIsUncounted`).
- The stager inserts process-owned identities without replacing an empty digest. Its conflict check compares with the
  first identity of a name only and depends on the order, unlike `merge_process_dependency`
  (`EmplaceSucceedsIffFirstDecides`, `EmplaceDependsOnOrder`).
- The executor's drain guarantee does not cover an external submission that races the shutdown request: `enqueue` can
  accept an item that no worker executes (`RacingSubmissionIsLost`). The guarantee that does hold is
  `DrainExecutesEverythingOwed`.
- Two different actors can share a mailbox, for suitable partitions, exactly if one name followed by a colon begins the
  other (`KeysCollideIff`); "a:b" in partition "c" and "a" in partition "b:c" are such a pair (`KeysCanCollide`).
- Pipelines and commands resolve one partition expression differently: the coordinator looks past booleans, nulls and
  objects, keeps the empty piece after a final colon and omits separators in front. They agree on all messages exactly if
  the expression is empty, "global" or a single envelope field (`PartitionKeysAgree`).

## Model

| member | source | states |
|---|---|---|
| SchedulerTheorems.ExactlyOneCompletion | src/core/native_actor_scheduler.cpp:426-516 | under every interleaving of run, cancel, start failure, yield, I/O wake and shutdown, an admitted invocation either still is in a mailbox or has produced its completion event, never both; no event is produced twice or for anything else |
| SchedulerTheorems.Conservation | src/core/native_actor_scheduler.cpp:291-326 | accepted = completed + failed + cancelled + pending, and `pending_tasks` equals queued plus active invocations over all mailboxes |
| SchedulerTheorems.SerialExecution | src/core/native_actor_scheduler.cpp:518-777 | at most one worker is inside a mailbox, and it always finds its own invocation active when it returns |
| SchedulerTheorems.OneTicket | src/core/native_actor_scheduler.cpp:337-371 | a mailbox with an active invocation has exactly one ticket of its generation in flight when Runnable and none otherwise |
| SchedulerHistory.GenerationsRise | src/core/native_actor_scheduler.cpp:446-473 | over any stretch of any run a mailbox's generation never falls, and every new activation has a strictly greater one |
| SchedulerTheorems.AdmissionOrder | src/core/native_actor_scheduler.cpp:807-866 | invocations of one mailbox key become active in admission order, across reclamation and re-creation of the mailbox |
| SchedulerHistory.OnlyCancelledAreMissing | src/core/native_actor_scheduler.cpp:426-516 | an invocation ends without having become active only if it was cancelled or its actor is not registered; whatever was admitted before an activated invocation was activated, ended like that, or waits under another key |
| SchedulerTheorems.NoLostWakeup | src/core/native_actor_scheduler.cpp:373-424 | no mailbox is Suspended on an epoch whose completion has been delivered, wherever the delivery fell |
| SchedulerTheorems.NeverResumedEarly | src/core/native_actor_scheduler.cpp:688-704 | when a task may be resumed, the operations of all epochs it began have completed |
| SchedulerTheorems.NothingStranded | src/core/native_actor_scheduler.cpp:719-758 | a mailbox for which nothing is in flight is empty or waits for an undelivered epoch |
| SchedulerTheorems.IdleIsEmptyOrClaimed | src/core/native_actor_scheduler.cpp:719-758 | an Idle mailbox has no active invocation; unclaimed it has an empty queue, claimed it has exactly one claim holder with attempts left |
| SchedulerTheorems.ClaimIsReleased | src/core/native_actor_scheduler.cpp:728-757 | an attempt of the idle handoff releases the claim unless the queue is empty and an attempt is left |
| SchedulerTheorems.ShutdownLeavesNothing | src/core/native_actor_scheduler.cpp:926-987 | after `shutdown` every mailbox is empty and every admitted invocation has its completion event |
| SchedulerTheorems.RefusalIsHarmless | src/core/native_actor_scheduler.cpp:505-516 | when the executor refuses a ticket its generation is already gone, so nothing is completed and the dropped request list is empty |
| SchedulerHistory.DrainCancelsNothing | src/core/native_actor_scheduler.cpp:926-987 | in a run without a cancelling shutdown and without cancel requests, drains included, the reported cancellations are zero and none is due; everything accepted completes, fails or is pending |
| SchedulerTheorems.Backpressure | src/core/native_actor_scheduler.cpp:264-289 | under positive limits neither all mailboxes nor those of one actor or key ever hold more than the limit |
| SchedulerTheorems.KeyCounterIsLoad | src/core/native_actor_scheduler.cpp:291-326 | a key's counter is its live mailbox's queued plus active count |
| SchedulerTheorems.ReclaimLosesNothing | src/core/native_actor_scheduler.cpp:212-248 | a mailbox is reclaimed exactly if it is empty, idle, unclaimed and waits for nothing; that changes no reported total or histogram and drops only a counter that is zero |
| SchedulerTheorems.KeysIdentify | src/core/native_actor_scheduler.cpp:134-140 | for actor names without colons, mailbox keys agree exactly when actor and effective partition do |
| SchedulerTheorems.KeysCollideIff | src/core/native_actor_scheduler.cpp:134-140 | two different actors share a mailbox key for some partitions exactly if one name followed by a colon begins the other |
| SchedulerResults.EveryResultHasItsCause | src/core/native_actor_scheduler.cpp:476-503 | every completion has the result that the action ending its invocation gave: what the finished task returned, why it could not start or was suspended wrongly, that it was cancelled, or that its actor is unknown |
| SchedulerResults.TotalsCountTheLog | src/core/native_actor_scheduler.cpp:476-503 | in every reachable state `completed` and `failed` count the successes and the failures among the uncancelled completions, `cancelled` the cancelled ones |
| SchedulerSteps.SubmitDecides | src/core/native_actor_scheduler.cpp:807-866 | a submission is accepted exactly if no shutdown has begun and all limits leave room; it gets the next admission number and lands in the mailbox of its key or is completed at once |
| SchedulerSteps.ActorsAreRegistered | src/core/native_actor_scheduler.cpp:799-805 | an actor is known exactly if it was registered before |
| SchedulerSteps.ResumeDecides | src/core/native_actor_scheduler.cpp:638-724 | in every run, what a returning worker reports: cancelled exactly if cancellation was asked for, otherwise the own result of a finished task, an invalid suspension for a task that left the runtime, nothing for one that yields or waits |
| SchedulerSteps.StartFailureDecides | src/core/native_actor_scheduler.cpp:579-605 | in every run, a task that cannot start ends its invocation with that error, first of all events |
| SchedulerSteps.CancelDecides | src/core/native_actor_scheduler.cpp:868-924 | in every run, whom a cancel request ends or marks, and that it touches no other mailbox |
| SchedulerSteps.MarkedEndsCancelled | src/core/native_actor_scheduler.cpp:660-666 | a running invocation that was marked stays marked until it is reported as cancelled |
| SchedulerSteps.SweepDecides | src/core/native_actor_scheduler.cpp:945-980 | the sweep cancels everything in a mailbox but a running invocation, which it marks |
| SchedulerSteps.ShutdownDecides | src/core/native_actor_scheduler.cpp:926-944 | a shutdown closes the admission, and a cancelling one is to sweep every live mailbox |
| SchedulerSteps.SweptHoldNothing | src/core/native_actor_scheduler.cpp:926-987 | after the sweep nothing waits in any mailbox, and what still runs is marked |
| Metrics.MergeAdds | src/core/native_actor_scheduler.cpp:45-53 | merged totals are the sums, merged maxima the larger ones |
| MailboxLaws.NextIs | src/core/native_actor_scheduler.cpp:426-474 | the unregistered invocations in front fail in order, unless everything is being cancelled, and the first registered one becomes active in the next generation with a ticket |
| MailboxLaws.EndSays | src/core/native_actor_scheduler.cpp:638-724 | the section after a resume as a relation of mailbox, events and ticket |
| MailboxLaws.CancelSays | src/core/native_actor_scheduler.cpp:868-924 | a cancel request as a relation of mailbox, events and ticket |
| MailboxLaws.RefuseSays | src/core/native_actor_scheduler.cpp:505-516 | a refused ticket ends its invocation as stopped exactly if it is current, and is ignored otherwise |
| SchedulerInvariant.RunHolds | src/core/native_actor_scheduler.cpp:63-132 | the inductive invariant of the scheduler holds in every state of every run |
| BoxProofs.StepKeeps | src/core/native_actor_scheduler.cpp:328-777 | every section on a mailbox keeps the invariant that ties status, generation, tickets, workers, claim and epochs |
| Accounting.StepConserves | src/core/native_actor_scheduler.cpp:426-516 | under any weighing of invocations, a section moves weight only from the mailbox to completion events |
| SchedulerObjects.RecordDuration | src/core/native_actor_scheduler.cpp:32-43 | the bucket loop adds one sample, to the only bucket whose bounds enclose it |
| SchedulerObjects.NativeActorMailbox.PrepareNextLocked | src/core/native_actor_scheduler.cpp:426-474 | the in-place loop equals `PrepareNext`: unregistered invocations fail in order, the first registered one is activated with a new generation |
| SchedulerObjects.NativeActorMailbox.CompleteActiveLocked | src/core/native_actor_scheduler.cpp:476-503 | reports exactly the given result for the active invocation first, counts it as completed, failed or cancelled, and prepares the next |
| SchedulerObjects.NativeActorMailbox.BeginRun | src/core/native_actor_scheduler.cpp:529-545 | a worker enters the mailbox exactly when its ticket is current |
| SchedulerObjects.NativeActorMailbox.SettleLocked | src/core/native_actor_scheduler.cpp:645-717 | for each way in which a resume ends: the first event is the cancellation exactly if one was asked for, else the task's own result if it is done, else an invalid suspension if it left the runtime; a yield gets a new ticket, an awaited epoch suspends unless it was notified already |
| SchedulerObjects.NativeActorMailbox.EndRun | src/core/native_actor_scheduler.cpp:638-724 | the whole section after a resume: a stale worker changes nothing; the current one reports as `SettleLocked`, adds one sample to the durations and claims the idle mailbox |
| SchedulerObjects.NativeActorMailbox.TryHandoff | src/core/native_actor_scheduler.cpp:728-758 | one attempt of the idle handoff |
| SchedulerObjects.NativeActorMailbox.FailStart | src/core/native_actor_scheduler.cpp:590-605 | a task that cannot be started fails its own invocation only, and the next one is prepared |
| SchedulerObjects.NativeActorMailbox.OnExternalReady | src/core/native_actor_scheduler.cpp:373-424 | an I/O notification in each mailbox state, and when it is late |
| SchedulerObjects.NativeActorMailbox.FailScheduleRequest | src/core/native_actor_scheduler.cpp:505-516 | a refused ticket cancels its invocation only while it is current |
| SchedulerObjects.NativeActorMailbox.CancelLocked | src/core/native_actor_scheduler.cpp:868-924 | cancels the first queued match, else marks or completes the active one |
| SchedulerObjects.NativeActorMailbox.SweepLocked | src/core/native_actor_scheduler.cpp:945-980 | one mailbox of the cancelling shutdown |
| SchedulerObjects.NativeActorScheduler.Enqueue | src/core/native_actor_scheduler.cpp:807-866 | accepts exactly when admission is open and no limit is reached; a refusal changes only the rejection count |
| SchedulerObjects.NativeActorScheduler.CancelMessage | src/core/native_actor_scheduler.cpp:868-924 | finds the mailbox, cancels there and lowers the counters once per event |
| SchedulerObjects.NativeActorScheduler.ReclaimIdle | src/core/native_actor_scheduler.cpp:225-248 | drops exactly a reclaimable live mailbox and keeps its totals |
| Tasks.ActorTaskChain.Resume | include/core/reflected_actor.hpp:258-292 | one resume begins at most one epoch; if so, every task up to the root is suspended on that newest epoch |
| Tasks.ResumeEndsWith | include/core/reflected_actor.hpp:258-292 | a resume ends with the first step that does not let it go on, as that step asks |
| Tasks.ActorTaskChain.Forward | include/core/actor_task.hpp:298-331 | a suspension and its epoch reach the root unchanged through all nested tasks |
| Tasks.ActorAsioOperation.Complete | include/core/actor_asio.hpp:65-126 | every completion stores its value and error; of any completions, only the one that finds the operation pending notifies, once, on the attached epoch |
| Tasks.ActorAsioOperation.CompleteException | include/core/actor_asio.hpp:73-76 | completing with an exception stores the error, leaves the value as it is, and notifies like a completion |
| Tasks.ActorAsioOperation.TakeResult | include/core/actor_asio.hpp:101-113 | after the notification the result is there, before it taking it fails |
| ExecutorTheorems.CoalescingIsLossless | src/core/actor_work_stealing_executor.cpp:145-158 | while an item is queued and a worker sleeps or is about to, another worker is alert or a producer still owes a decision or a notification that will wake one |
| ExecutorTheorems.NeverAllAsleep | src/core/actor_work_stealing_executor.cpp:236-294 | once all calls of `enqueue` have returned, the remaining workers are never all blocked beside a queued item |
| ExecutorTheorems.ShutdownNeverHangs | src/core/actor_work_stealing_executor.cpp:253-306 | after a shutdown request, while a worker is left, one is awake or somebody is still going to wake one |
| ExecutorTheorems.CountersAreExact | src/core/actor_work_stealing_executor.cpp:161-219 | active equals the items in workers' hands, runnable the queued ones plus the two transfer windows; neither underflows |
| ExecutorTheorems.ItemsNeitherLostNorDuplicated | src/core/actor_work_stealing_executor.cpp:96-234 | an accepted item is queued, held, executed or cancelled: one of them, and once |
| ExecutorTheorems.DrainExecutesEverythingOwed | src/core/actor_work_stealing_executor.cpp:327-360 | when a draining shutdown has joined, every item queued before the request or rescheduled by a running item has been executed exactly once |
| ExecutorTheorems.DrainCancelsNothing | src/core/actor_work_stealing_executor.cpp:327-339 | without a cancelling shutdown no item is cancelled |
| ExecutorTheorems.RacingSubmissionIsLost | src/core/actor_work_stealing_executor.cpp:96-131 | a run in which an external submission is accepted during a drain and never executed |
| ExecutorTheorems.RefusalsHaveAReason | src/core/actor_work_stealing_executor.cpp:102-109 | only an executor that no longer accepts refuses, and a refusal leaves no item |
| ExecutorTheorems.RunHolds | src/core/actor_work_stealing_executor.cpp:236-360 | the inductive invariant of the executor holds in every state of every run |
| ExecutorOrder.TakesInOrder | src/core/actor_work_stealing_executor.cpp:161-219 | in every run a worker takes the newest item of its own deque and the oldest of the injector or of another worker's deque |
| ExecutorOrder.PushesAtTheEnd | src/core/actor_work_stealing_executor.cpp:116-143 | an accepted item goes to the end of the injector, or of the deque on which its target number falls |
| ExecutorOrder.RefusalsAreExact | src/core/actor_work_stealing_executor.cpp:102-109 | exactly when a call is refused: from outside once nothing is accepted any more, by a running item only while everything is cancelled, by other continuations from the request of a shutdown on |
| ExecutorOrder.IdleWorkersExit | src/core/actor_work_stealing_executor.cpp:253-306 | with a shutdown requested and nothing queued or running, an idle worker is gone within five looks |
| ExecutorOrder.ExitsForAReason | src/core/actor_work_stealing_executor.cpp:253-306 | a worker exits only after a shutdown request and when it sees nothing queued or nothing running |
| ExecutorOrder.CancelClearsEverything | src/core/actor_work_stealing_executor.cpp:308-339 | an undisturbed cancelling shutdown cancels every queued item |
| ExecutorObjects.ActorWorkStealingExecutor.TryPopLocal | src/core/actor_work_stealing_executor.cpp:161-176 | a worker takes the newest item of its own deque |
| ExecutorObjects.ActorWorkStealingExecutor.TryPopInjector | src/core/actor_work_stealing_executor.cpp:178-188 | takes the oldest item of the injector |
| ExecutorObjects.ActorWorkStealingExecutor.TrySteal | src/core/actor_work_stealing_executor.cpp:190-219 | takes the oldest item of the first non-empty deque of another worker in ring order, and fails only after all were empty |
| ExecutorObjects.ActorWorkStealingExecutor.TryTakeWork | src/core/actor_work_stealing_executor.cpp:221-234 | own deque before injector before stealing; on a positive counter it fails only when every queue is empty |
| ExecutorObjects.ActorWorkStealingExecutor.Enqueue | src/core/actor_work_stealing_executor.cpp:96-159 | refuses by the flags, appends to the chosen queue and decides on the notification |
| ExecutorObjects.ActorWorkStealingExecutor.ClearQueuedWork | src/core/actor_work_stealing_executor.cpp:308-325 | empties every queue, removes each item once and lowers the counter by their number |
| ExecutorObjects.TookIsTake | src/core/actor_work_stealing_executor.cpp:161-219 | taking an item from a queue object is a step of the protocol |
| ReloadTheorems.OpenGateAdmits | src/core/actor_runtime_reload_controller.cpp:174-216 | with the gate open nobody waits and the next call is admitted to the active generation |
| ReloadTheorems.WaitersAreTold | src/core/actor_runtime_reload_controller.cpp:98-114 | a parked call is registered, about to be told or told; once the gate is open or closing it is one of the last two |
| ReloadTheorems.FlightsFallWhileClosed | src/core/actor_runtime_reload_controller.cpp:479-495 | while the gate stays closed no generation's in-flight count rises |
| ReloadTheorems.DownedAtZero | src/core/actor_runtime_reload_controller.cpp:523-541 | a reload shuts the previous generation down only at in-flight zero |
| ReloadTheorems.RetiredAreIdle | src/core/runtime_generation.cpp:401-503 | a generation replaced by a reload has no route left, and none ever comes back |
| ReloadTheorems.StagesRunUnderLease | src/core/orchestrator.cpp:339-386 | a route with a coroutine left, terminal stages included, holds a lease and keeps its generation from being retired |
| ReloadTheorems.OutcomeIsTrue | src/core/actor_runtime_reload_controller.cpp:455-572 | unless a shutdown began, a failed reload leaves the gate open and the same generation active as when it took the slot, a successful one the candidate that it built itself after that |
| ReloadTheorems.CandidatesEndActiveOrDown | src/core/actor_runtime_reload_controller.cpp:455-605 | with no reload under way every generation but the active one is shut down or about to be |
| ReloadTheorems.OneReload | src/core/actor_runtime_reload_controller.cpp:23-39 | at most one reload is under way |
| ReloadTheorems.RequestsAccountedFor | src/core/actor_runtime_reload_controller.cpp:621-651 | requests = succeeded + failed + busy + running + escaped; without the last term exactly if no `reload` threw while preparing its candidate |
| ReloadTheorems.EscapedRequestIsUncounted | src/core/actor_runtime_reload_controller.cpp:218-241 | a run whose request is recorded nowhere |
| ReloadTheorems.RunHolds | src/core/actor_runtime_reload_controller.cpp:174-605 | the inductive invariant of the reload protocol holds in every state of every run |
| ReloadSteps.ClosedGateParks | src/core/actor_runtime_reload_controller.cpp:184-216 | in every run a call that reaches a gate closed without shutdown is parked and registered, and nothing else happens |
| ReloadSteps.ParkedCallsTryAgain | src/core/actor_runtime_reload_controller.cpp:199-216 | a parked call leaves only to try again, after it was told |
| ReloadSteps.RefusedMeansClosing | src/core/actor_runtime_reload_controller.cpp:184-190 | no reload costs a message: calls are refused only after a shutdown has begun |
| ReloadSteps.FlightsAreRoutes | src/core/runtime_generation.cpp:401-503 | a generation's in-flight count is the number of calls that hold a route of it |
| ReloadSteps.ReloadGoesThrough | src/core/actor_runtime_reload_controller.cpp:455-572 | an undisturbed reload with a ready candidate and no route left ends with the candidate active behind an open gate, the previous generation shut down, the success counted and the slot free |
| ReloadSteps.TimeoutReopens | src/core/actor_runtime_reload_controller.cpp:498-523 | a drain that times out ends with the candidate shut down, the gate open to the previous generation, the waiters taken out, failure and timeout counted and the slot free |
| ReloadSteps.CountersCountResults | src/core/actor_runtime_reload_controller.cpp:621-651 | each counter is the number of requests that ended so, reloads stopped by a shutdown being failures |
| ReloadSteps.AcceptedCountsClaims | src/core/actor_runtime_reload_controller.cpp:23-39 | the accepted counter is the number of times that the slot was taken |
| ReloadObjects.RuntimeGeneration.AdmitRoute | src/core/runtime_generation.cpp:401-417 | admits exactly while accepting, and counts the route |
| ReloadObjects.RuntimeGeneration.ReleaseRoute | src/core/runtime_generation.cpp:477-503 | the last route hands out the drain waiters, and only it |
| ReloadObjects.RuntimeGeneration.LookForDrain | src/core/runtime_generation.cpp:438-475 | drained exactly at in-flight zero, otherwise registered |
| ReloadObjects.RuntimeGeneration.Shutdown | src/core/runtime_generation.cpp:505-514 | stops admission, once |
| ReloadObjects.ActorRuntimeReloadController.PassGate | src/core/actor_runtime_reload_controller.cpp:184-206 | a shutdown refuses the call, a gate closed for a cutover parks and registers it, an open gate admits it to the active generation exactly if there is one that accepts |
| ReloadObjects.ActorRuntimeReloadController.CloseGate | src/core/actor_runtime_reload_controller.cpp:479-489 | closes the gate exactly when the cutover may go on |
| ReloadObjects.ActorRuntimeReloadController.ReopenUndrained | src/core/actor_runtime_reload_controller.cpp:500-523 | reopens after a timeout unless shutting down, and hands out the waiters |
| ReloadObjects.ActorRuntimeReloadController.Swap | src/core/actor_runtime_reload_controller.cpp:525-538 | makes the candidate active exactly when the previous generation still is |
| ReloadObjects.ActorRuntimeReloadController.OpenGate | src/core/actor_runtime_reload_controller.cpp:544-563 | opens the gate to the candidate and hands out the waiters |
| ReloadObjects.ActorRuntimeReloadController.BeginShutdown | src/core/actor_runtime_reload_controller.cpp:580-597 | closes the gate for good, once |
| ReloadObjects.ActorRuntimeReloadController.TakeActive | src/core/actor_runtime_reload_controller.cpp:599-605 | takes the active generation out for shutdown |
| Graphs.StuckIsCyclic | src/common/config_loader.cpp:122-140 | a finite set of names each of which depends on one of them contains a cycle |
| Graphs.OrderedIsAcyclic | src/common/config_loader.cpp:122-140 | a graph whose dependencies all come earlier in some order has no cycle |
| DependencyOrder.CountDependencies | src/common/config_loader.cpp:97-120 | the maps count every dependency with its multiplicity and skip unknown ones |
| DependencyOrder.Release | src/common/config_loader.cpp:129-137 | lowers each dependent's degree once per edge and queues exactly those that reach zero |
| DependencyOrder.HasCycle | src/common/config_loader.cpp:97-140 | reports a cycle exactly when the graph has one, duplicate edges, repeated names and unknown dependencies included |
| DependencyOrder.HasActorDependencyCycle | src/common/config_loader.cpp:142-183 | the same on the enabled actors |
| DependencyOrder.CirclesAreCycles | src/common/config_loader.cpp:142-183 | the graph of enabled actors has a cycle exactly if enabled actors require each other in a circle |
| DependencyOrder.MissesDependency | src/common/config_loader.cpp:656-671 | reports a missing dependency exactly when one is not declared |
| DependencyOrder.OrderedActors | src/core/runtime_generation.cpp:73-96 | succeeds exactly on uniquely named actors without missing dependencies and cycles, with a permutation in which dependencies come first |
| DependencyOrder.ValidateAndOrder | src/core/runtime_generation.cpp:618-621 | on uniquely named actors the builder's ordering fails only after validation reported an error |
| Pipelines.RoutesAreShort | src/core/orchestrator.cpp:148-162 | a route has at most as many nodes as there are configured stages |
| Pipelines.CostIsGeometric | src/core/orchestrator.cpp:403-608 | the bound on stage runs equals the sum over i = 1..limit of S^i (E+1)^(i-1) |
| Pipelines.OnlyStarvationBlocks | src/common/config_loader.cpp:716-780 | in a validated pipeline every stage left over has, or waits for a stage that has, no input message |
| Pipelines.PhasesSettle | src/core/orchestrator.cpp:420-441 | what the first phase leaves over is still excused when the second has ended |
| Pipelines.CompletionsFit | src/core/orchestrator.cpp:418-441 | a pass completes at most as many stages as the pipeline has |
| Pipelines.ReportsDependencyError | src/common/config_loader.cpp:752-776 | reports an error exactly when a dependency is missing or the stages have a cycle |
| Routing.EnterRouteNode | src/core/orchestrator.cpp:148-162 | rejects exactly a repeated node or an exhausted hop limit, otherwise appends the node |
| Routing.Orchestrator.TryStage | src/core/orchestrator.cpp:426-441 | a stage has its turn exactly when it is uncompleted, of this phase, unblocked and has input, namely the first message of its type; it is of the second phase exactly if its mode is "async" and no stage of its pipeline comes after it or consumes its outputs |
| Routing.Orchestrator.FindInput | src/core/orchestrator.cpp:426-441 | the stage's input is the first available message of its type |
| Routing.Orchestrator.RunStage | src/core/orchestrator.cpp:443-600 | a stage is refused, fails for want of its actor, is posted or runs, as its route, its actor and the consumers of its outputs decide, and what it answers is routed on |
| Routing.Orchestrator.RunPhase | src/core/orchestrator.cpp:420-604 | a phase ends in a fixpoint, completing each stage at most once and after its `after` stages |
| Routing.Orchestrator.RunPipeline | src/core/orchestrator.cpp:410-604 | a pass ends; with all actors registered and a validated pipeline only starved stages are left, and whatever its events entail has happened |
| Routing.Orchestrator.HandleAnswer | src/core/orchestrator.cpp:574-597 | a failure envelope, exactly on failure, and every emitted message become available and are routed on |
| Routing.Orchestrator.ProcessMessage | src/core/orchestrator.cpp:403-608 | a pass over every pipeline whose source is the message's type, within the cost bound of its route |
| Routing.Orchestrator.RunTerminalStage | src/core/orchestrator.cpp:348-386 | one posted stage is taken and run, and its messages are routed within their bound |
| Routing.Orchestrator.Process | src/core/orchestrator.cpp:666-672 | routing one message ends for all pipelines and all answers, terminal stages included, within the bound on stage runs; every message that any stage emitted, and every failure, has been passed to every pipeline whose source it is, and every terminal stage whose posting was accepted has run exactly once |
| Routing.EventsRouteSoundly | src/core/orchestrator.cpp:148-162 | along every event, hops equal the route's length, its nodes are distinct and both limits hold; a stage is posted exactly if its mode is "async" and no stage of its pipeline lists it in `after` or consumes one of its outputs, and awaited otherwise |
| WriteQueue.FinishedExactlyOnce | src/network/websocket_write_queue.cpp:19-27 | a request's completion is delivered once if it is finished and not before |
| WriteQueue.NothingForgotten | src/network/websocket_write_queue.cpp:86-168 | an accepted request is queued, in somebody's hands or finished |
| WriteQueue.StopFinishesEverything | src/network/websocket_write_queue.cpp:139-168 | once `stop` is done every accepted request is finished, except at most one that the writer holds outside a write |
| WriteQueue.WriterFinishesIt | src/network/websocket_write_queue.cpp:117-129 | on a stopped queue the writer finishes that request within three steps of its own and starts no write |
| WriteQueue.OthersLeaveTheWriter | src/network/websocket_write_queue.cpp:106-168 | nobody else moves the writer, and finished requests stay finished |
| WriteQueue.WriterExitsOnlyWhenStopped | src/network/websocket_write_queue.cpp:106-137 | the writer gives up only on a stopped queue |
| WriteQueue.SuccessMeansWritten | src/network/websocket_write_queue.cpp:126-129 | success implies that the write returned |
| WriteQueue.WritesInOrder | src/network/websocket_write_queue.cpp:106-137 | writes start in channel order, each at most once |
| WriteQueueResults.ResultsAreTrue | src/network/websocket_write_queue.cpp:117-129 | while nobody stops the queue a request is reported as a success exactly if it was written, and a failure is that of its own write |
| WriteQueueResults.EveryResultHasItsCause | src/network/websocket_write_queue.cpp:75-168 | every result was given once, by a write that ended so, a stop or a drain |
| WriteQueueResults.WrittenFailsOnlyByStop | src/network/websocket_write_queue.cpp:139-168 | a written message is reported as failed only if a stop finished its request first |
| WriteQueueResults.SendsAreAccountedFor | src/network/websocket_write_queue.cpp:86-104 | every send was accepted, waits for room or gave up on a closed channel |
| WriteQueueResults.WriteGoesThrough | src/network/websocket_write_queue.cpp:106-137 | undisturbed, the writer writes the oldest request, reports success and is ready for the next |
| WriteQueueResults.FailedWriteStops | src/network/websocket_write_queue.cpp:126-136 | after a failed write the writer stops the queue and is gone |
| WriteQueueResults.OnlyTheFirstStopActs | src/network/websocket_write_queue.cpp:139-150 | a stop acts exactly if none came before it |
| WriteQueueResults.StopsComeToAnEnd | src/network/websocket_write_queue.cpp:139-168 | every step of a stop brings it nearer to its end |
| WriteQueueObjects.WriteRequest.Finish | src/network/websocket_write_queue.cpp:19-27 | only the first call sends a completion |
| WriteQueueObjects.WebsocketWriteQueue.DrainQueued | src/network/websocket_write_queue.cpp:75-84 | finishes every queued request with a failure and leaves finished ones alone |
| WriteQueueObjects.WebsocketWriteQueue.Stop | src/network/websocket_write_queue.cpp:139-168 | the first stop finishes the active and all queued requests, later ones do nothing |
| Cancellation.NeverEarlyNeverTwice | include/core/actor_task.hpp:31-115 | no callback runs before a request, none twice |
| Cancellation.LiveCallbacksRunOnce | include/core/actor_task.hpp:31-115 | a callback never removed has run exactly once when request and registration are over |
| Cancellation.RemovedStaysSilent | include/core/actor_task.hpp:40-46 | once removed, a callback never runs again |
| Cancellation.NotifyingEnds | include/core/actor_task.hpp:69-85 | every notification leaves the requester one less, and it is done after the last |
| Cancellation.EnlistingDecides | include/core/actor_task.hpp:92-109 | a registration is in the requester's list exactly if it comes before the request, otherwise it notifies itself |
| Identities.MergeSucceedsIffConsistent | src/core/runtime_generation.cpp:110-123 | merging succeeds exactly when all identities of a name that have a digest are equal, and the table then holds them |
| Identities.MergeIsOrderFree | src/core/runtime_generation.cpp:110-123 | success does not depend on the order |
| Identities.IdentityTable.MergeEach | src/core/runtime_generation.cpp:670-684 | merging entry by entry in place decides consistency |
| Identities.EmplaceSucceedsIffFirstDecides | src/core/actor_package_stager.cpp:466-473 | the stager's insertion succeeds exactly when every identity with a digest equals the first of its name, if that has one |
| Identities.EmplaceDependsOnOrder | src/core/actor_package_stager.cpp:466-473 | the same entries pass or fail with their order, and a conflict that merging reports is missed |
| Identities.EmplacedIsMergedIff | src/core/actor_package_stager.cpp:466-473 | on one table insertion and merging differ exactly on a different identity over one without a digest |
| Identities.MergeIsStricter | src/core/runtime_generation.cpp:110-123 | what merging accepts insertion accepts; they accept the same lists if every name's first identity has a digest |
| Staging.BuildClosure | src/core/actor_package_stager.cpp:410-474 | a package is staged exactly if every discovered file lists only acceptable dependencies and every identity with a digest equals the first of its name in discovery order, if that has one; the objects are then the least set closed under private dependencies, in that order and fully indexed, and a reported problem is one that the package has |
| Packages.StageableForAnySize | src/core/actor_package_stager.cpp:410-474 | which packages can be staged does not depend on the bound on the number of files by which discovery is cut off |
| Staging.ClosureIsUnique | src/core/actor_package_stager.cpp:410-474 | any two results consist of the same files |
| Staging.RewriteEdges | src/core/actor_package_stager.cpp:520-533 | fails exactly on an edge without an object, which a closure does not have |
| Staging.RewritingVerifies | src/core/actor_package_stager.cpp:551-567 | the final verification of an object holds exactly if no new identity is one of its original dependency names |
| Staging.WiredIsResolved | src/core/actor_package_stager.cpp:423-474 | in a finished closure each dependency of a file leads to the object of the private file or is a process-owned identity of the table |
| CommandTable.BuildTable | src/core/command_coordinator.cpp:393-587 | a table is built exactly when every route is sound, no key or pattern of a bot is claimed twice and no adapter rejects the catalog of a configured bot; its keys are then exactly the configured (platform, bot, command) triples, each entry has the actor and fallback of its route and the first declaration of its command, its bots are the configured ones, each catalog the sorted duplicate-free list of its bot's commands, and the patterns exactly those declared for the bot |
| CommandTable.AddRoutes | src/core/command_coordinator.cpp:417-568 | the loops over routes succeed exactly on buildable configurations and enter every entry |
| CommandTable.AddEntry | src/core/command_coordinator.cpp:508-562 | one command of one bot is added exactly when neither its key nor its pattern is taken and its matcher is supported and compiles |
| CommandTable.CheckRoute | src/core/command_coordinator.cpp:418-507 | succeeds exactly on acceptable routes: a known actor with a non-empty catalog, and platforms, commands and bots named once, known and covering each other |
| CommandTable.FineIsAcceptable | src/core/command_coordinator.cpp:418-507 | the nested checks of a route amount to one readable condition |
| CommandTable.BeforeIsLexicographic | src/core/command_coordinator.cpp:569-572 | catalogs are sorted lexicographically |
| CommandTable.KeysAreConfigured | src/core/command_coordinator.cpp:503-530 | the keys of the table are the configured triples |
| Commands.MatchPatterns | src/core/command_coordinator.cpp:290-323 | ambiguous exactly when two patterns match, otherwise the only match |
| Commands.TimedActorOperation.Finish | src/core/command_coordinator.cpp:206-218 | of result and timeout only the first reaches the handler |
| Commands.CommandCoordinator.Process | src/core/command_coordinator.cpp:602-768 | a message that leads to no command is handed on untouched; a dispatched one gets a transaction of its own and is handed on exactly if its actor's proper completion or the route's fallback lets it continue: once, after what the actor emitted, with six headers about the dispatch, otherwise unchanged, and leading to no command any more |
| Commands.CommandCoordinator.ProcessAll | src/core/command_coordinator.cpp:331-347 | over any sequence of messages and answers, stops included, only given messages without the processed header are dispatched to a command, and those with it are handed on unchanged |
| Commands.CommandCoordinator.ProcessAgain | src/core/command_coordinator.cpp:602-768 | what was handed on after its command may come back anywhere among other messages and is not dispatched again |
| Commands.CommandCoordinator.FindRoute | src/core/command_coordinator.cpp:602-645 | the route is that of the detected name, else of the only matching pattern, for unprocessed raw messages of known bots that look like a command |
| Commands.CommandCoordinator.HandOthers | src/core/command_coordinator.cpp:697-707 | everything emitted except completions is handed on, in order |
| Commands.Judge | src/core/command_coordinator.cpp:727-750 | a completion is proper exactly if it decodes and names the transaction, actor, generation and reply of its dispatch |
| Commands.CompletionDecides | src/core/command_coordinator.cpp:709-758 | the command decides itself exactly if it is in time, succeeds and emits exactly one completion, and that is proper; its propagation is then the decision |
| Commands.Decide | src/core/command_coordinator.cpp:709-758 | any failure makes it the route's fallback, and each failure has its own code |
| Partitions.PartitionKeysAgree | src/core/command_coordinator.cpp:127-150 | pipelines and commands partition all messages alike exactly if the expression is empty, "global" or a single envelope field |
| Partitions.JoinsAgreeIff | src/core/orchestrator.cpp:242-264 | on a message on which the lookups agree, and without a final colon, the keys agree exactly for one field or a non-empty first value |
| Partitions.FieldsAgreeIff | src/core/command_coordinator.cpp:71-125 | exactly when the two lookups of a field agree |
| Partitions.PiecesAreLines | src/core/orchestrator.cpp:248-253 | the tokenisers differ exactly by the empty piece after a final colon |
| Partitions.PiecesJoin | src/core/command_coordinator.cpp:134-146 | the coordinator's pieces are free of colons and joined with colons the expression again |
| Partitions.FieldsByName | src/core/command_coordinator.cpp:71-125 | which field of the envelope each name reads, and in which order headers, payload and raw event are searched |
| Partitions.KeysAreGlued | src/core/orchestrator.cpp:242-264 | both keys as the values of the tokens with colons between them |
| Partitions.ResolveForPipeline | src/core/orchestrator.cpp:242-264 | the orchestrator's loops compute its key |
| Partitions.ResolveForCommand | src/core/command_coordinator.cpp:127-150 | the coordinator's loop computes its key |

## Left out

- Atomics are sequentially consistent single steps; memory orders, object lifetimes and coroutine frames are not modelled.
- Time: deadlines and timers are nondeterministic events; slow-resume diagnostics, sleep and steal counters are left out.
- Scheduler premises: an I/O operation notifies at most once per epoch (`Tasks.ActorAsioOperation`), a task begins at most
  one epoch in a resume (`Tasks.ActorTaskChain`) and does not yield after beginning it, the executor refuses a ticket only
  once its own shutdown was requested, and completion handlers and actors are not executed (their results are inputs).
- The scheduler's protocol submits work to an abstract executor: tickets in flight form a bag, and the placement hint
  `preferred_worker` is ignored. A worker that goes on with its own follow-up request takes that ticket from the bag.
- SchedulerObjects.NativeActorScheduler.Enqueue: the object methods are single sections; the loops of `shutdown` over all
  mailboxes appear only as protocol steps.
- ExecutorObjects.ActorWorkStealingExecutor.TrySteal: the loop releases one queue mutex before it takes the next; the
  object has no other thread in between, the protocol takes from any queue at any time instead.
- ExecutorTheorems.RefusalsHaveAReason: the flag check of `enqueue` and the exit test of a worker are one step each, where
  the source does several atomic loads.
- Tasks.ActorAsioOperation.Complete: nothing comes between storing the value and the exchange of the phase; cancelling the
  operation is left out.
- The executor's thread creation failure in `start`, its destructor and its metrics.
- ReloadTheorems.OpenGateAdmits: the candidate of a reload is always a fresh running generation. The public `reload_to`
  accepts any candidate, also the active generation or one that has been shut down; such calls are not modelled.
- ReloadTheorems.OutcomeIsTrue: exceptions during the cutover itself (allocation failures) are not modelled; only preparing
  a candidate may throw. A wakeup of the drain waiter may be lost, which only delays the recheck, so the wait is
  modelled by its result: true only at in-flight zero, false at any time.
- ReloadObjects.ActorRuntimeReloadController.PassGate: the objects' list of generations is fixed; building one is a
  protocol step only.
- Candidate preparation (configuration, staging, building) is a choice among missing, failing, throwing and ready;
  command catalogs, snapshot publication and result texts are left out.
- Routing.Orchestrator.Process: posted terminal stages are executed one after another in any order; the bound does not
  depend on their interleaving. The returned record of stages, emissions and failures and the database names are left
  out; partition keys are modelled apart.
- The text of configuration errors, and the checks that are not about dependencies.
- WriteQueue.StopFinishesEverything: of a closed channel only this is used: no new send is accepted, buffered requests
  are still handed out, and sends that were waiting for room may or may not still enter. A write may start after `stop`
  has begun.
- Commands.CommandCoordinator.Process: platform adapters, RE2, the decoding of a completion and the rendering of numbers
  are functions; the command request itself (its payload and headers) and failure records are left out.
- CommandTable.BuildTable: which code is reported is left out, so the checks of a route come before its insertions, where
  the source interleaves them bot by bot. The two checks that cannot fail (target metadata of one bot, duplicates in a
  catalog) are omitted, and patterns are not sorted.
- Staging.BuildClosure: the file system, digests and inspection tools are functions, and rewriting a dependency list is a
  replacement in that list; copying files and cleaning up are left out.
- Network clients, adapters, bots, SQLite, logging, CLI, dynamic loading and everything else outside these protocols.
