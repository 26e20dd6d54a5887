# Verified model of the AgentFactory gateway

A Dafny model of the parts of the gateway that keep state: the task queue and the gateway
steps that drive it, the message throttler, crash recovery and shutdown, the two state
stores behind it, and the debounce of progress writes. `dafny verify dfyconfig.toml` checks
all of it.

## How it is organised

* **Queue.** `Tasks` and `TaskQueueClass` hold the mutable classes. `QueueSpec` says what
  each locked section of the queue does to a queue value, and `Scheduler` composes these
  sections into the recursive functions behind `MarkDone`: a completion dequeues a task,
  whose worker completes tasks in turn. Every method of the class `TaskQueue` is proved equal
  to such a function. The worker, the clock and the dequeue callback are a parameter `Env`: any list of
  callback calls followed by any return value.
* **Runs of the queue.** `QueueRuns` is a step relation in which one step is one locked
  section, in any order, so it covers every interleaving of the threads. `Lifecycle` adds what
  happens to one task, and `MetricLaws` splits the steps further into the single atomic adds of
  the metric counters. `SchedulerRuns` proves that one call of the recursive scheduler is
  such a run, so the run laws hold of the class. `Drain` computes what one completion sets off,
  `Dispatches` what each call and the return value of a worker mean for its task.
* **Gateway.** `GatewayRuns` interleaves mentions (look and action are two steps) with the
  terminal calls, deletions, dequeues and start events of the workers. `GatewayWorkers` says
  which worker completes which task, `GatewayChannels` what is true of a channel over a run.
  `RecoveredTasks` follows a task recovered as still running. `GatewayClass` is the gateway
  object; `GatewaySteps` and `GatewayCalls` prove that any sequence of its calls is a gateway
  run.
* **Throttler.** `Throttler` is a transition system with pushes, flushes, stops, timer
  expiries and deliveries in any order; `StreamWorker` is the class proved against it and the
  loop that drives it.
* **Stores and recovery.** `Stores` holds the two store classes, `StoreRuns` their meaning
  over runs of `Set`, `Timestamps` the text order behind `ORDER BY updated_at`, `Recovery`
  the recovery loop and the store half of shutdown, `Debounce` the progress cache, and
  `Persistence` what the stream callbacks and shutdown write to the store, in any interleaving.
  A callback's store half and its queue half touch disjoint state, so each is modelled by
  itself.

## What the code does not promise

Where the code and its comments or documents disagree, the model follows the code.

* `ChannelHasActiveTask` is documented as "has a running or queued task"
  (gateway/task_queue.go:26 and 259). It is true exactly when the channel was run directly, in
  the run or before it, and wrong exactly when besides all tasks of the channel have been
  completed (`GatewayChannels.ActiveMeansRegistered`). So a mention runs at once only on a
  channel that was never run directly (`GatewayChannels.MentionRunsAtOnce`). Otherwise it is
  queued, even when nothing runs; it then waits until some task completes or a late start
  event marks it, whatever else happens (`GatewayChannels.WaitsUntilCompletion`, and
  `GatewayChannels.IdleChannelStillQueues` for a run from an empty gateway to this state).
* `releaseTerminalTask` keeps the counter of a task that came through the queue correct exactly
  when its channel has nothing waiting and no direct registration
  (`QueueRuns.ReleaseOfQueuedTask`; `QueueRuns.ReleaseTakesForeignSlot` is a run where it
  does not).
* `MarkRunning` keeps the order of a channel exactly when its task is the first of the channel
  (`QueueRuns.OutOfTurnBreaksOrder`, with the run `QueueRuns.OutOfOrderRun`), and its
  `Transition` fails for every queued task, contrary to the comment at
  gateway/task_queue.go:100 (`Lifecycle.MarkRunningTransitionFails`).
* The active gauge is the number of running tasks exactly when no absent ID was completed
  (`MetricLaws.QuietCounters`). A worker that reports done and then fails completes an absent
  ID (`SchedulerCounters.CompletedTwice`).
* The throttler reorders a stream exactly when a waiting event is overtaken by an immediate one
  and then let out without being replaced (`StreamWorker.StreamInPushOrder`, with the input
  progress, done in `StreamWorker.ProgressAfterDone`).
* A task whose last event reports its end is stored as over exactly when no waiting event is
  written after it and its own write took effect (`Persistence.FinalStatusStays`). After
  progress, done the record says running (`Persistence.DoneThenRunning`).
* A task recovered as still running has no worker in the new process, so nothing completes it:
  its channel is blocked for good, and every later mention of it waits
  (`RecoveredTasks.RecoveredTaskBlocksChannel`).
* When nobody else writes, a `Stop` leaves running exactly the records that the SQLite store
  failed to write (`Recovery.StopThenRestart`). But it does not wait for the workers: a marked
  task stays interrupted exactly when no event delivered after its mark is written
  (`Persistence.StopWithLateDeliveries`), and a late progress event sets it running again
  (`Persistence.RunningAfterStop`).
* Within one run, too, the SQLite store loses the prompt and user with the first event written
  after start, and the channel with a progress event (`Persistence.LaterDeliveryAndPrompt`).
* SQLite `Set` replaces the whole row, so recovery loses the prompt and user, and shutdown also
  the channel and message timestamp, exactly when the store is SQLite, the write succeeds and
  the field was not empty (`Recovery.RecoveryAndPrompts`, `Recovery.StopAndChannels`).
* docs/ARCHITECTURE.md:271 says recovery lists running and paused tasks; both stores list
  only running ones.

## Model

| member | source | states |
|---|---|---|
| Tasks.QueuedTask.NewQueuedTask | gateway/queued_task.go:47-56 | a new task is queued, has no start time and carries the given fields |
| Tasks.QueuedTask.Transition | gateway/queued_task.go:60-71 | succeeds exactly on the transitions of the table; then sets the status and, if still unset, the start time; otherwise changes nothing |
| Tasks.TransitionsAreSteps | gateway/queued_task.go:19-32 | the valid transitions are exactly the steps from one stage to the next and the one from dispatching to error |
| Tasks.QueuedTask.StartDirectly | gateway/task_queue.go:184-190 | a queued task becomes running with its start time kept if set; any other task is left alone |
| QueueSpec.IndexOf | gateway/task_queue.go:238-245 | the least position with the given ID, and the length when there is none |
| QueueSpec.FirstFree | gateway/task_queue.go:333-339 | the least waiting position whose channel is not busy: everything before it is busy |
| QueueLemmas.DequeueMovesLeastEligible | gateway/task_queue.go:288-340 | selecting by eligibility and then deleting by ID moves exactly the least-index eligible task, keeps the order of the rest, and moves something if and only if an eligible task exists |
| QueueLemmas.EnqueueKeepsConsistent | gateway/task_queue.go:66-76 | an accepted Enqueue keeps waiting IDs distinct and every running key equal to its task's ID |
| QueueLemmas.PromoteKeepsConsistent | gateway/task_queue.go:90-106 | moving any waiting task to the running ones keeps IDs distinct, and keeps waiting and running disjoint |
| QueueLemmas.EnqueuePosition | gateway/task_queue.go:76-81 | the position returned for an accepted task is the new length of the queue |
| QueueLemmas.EnqueueAccepts | gateway/task_queue.go:59-74 | a task is accepted if and only if its ID is not empty and no running or waiting task has it; the empty ID is reported first, then a running one |
| QueueLemmas.DispatchedOnce | gateway/task_queue.go:158-169 | MarkDispatched never succeeds twice in a row on the same task |
| TaskQueueClass.TaskQueue.constructor | gateway/task_queue.go:31-44 | an empty queue; a non-positive limit becomes 5 and a non-positive per-channel limit 1 |
| TaskQueueClass.TaskQueue.Position | gateway/task_queue.go:231-245 | the 1-based position of the ID, 0 when it does not wait |
| TaskQueueClass.TaskQueue.Enqueue | gateway/task_queue.go:55-82 | rejects nil, an empty ID, a running and a waiting ID, in this order, without any effect; otherwise appends, counts the channel and both metrics, and returns the position |
| TaskQueueClass.TaskQueue.MarkRunning | gateway/task_queue.go:86-109 | the whole new state: nothing if the ID does not wait, else the task with that ID moves to running and its channel slot is given back |
| TaskQueueClass.TaskQueue.Promote | gateway/task_queue.go:93-104 | the move shared by MarkRunning and tryDequeue: out of waiting, channel counter down or deleted, into running, status advanced if allowed, two metrics |
| TaskQueueClass.TaskQueue.GiveBack | gateway/task_queue.go:94-97 | the counter drops by one, and the key disappears when it would not stay positive |
| TaskQueueClass.TaskQueue.TakeSlot | gateway/task_queue.go:192-194 | counts a direct registration on its channel and in both metrics |
| TaskQueueClass.TaskQueue.FindNextEligibleLocked | gateway/task_queue.go:320-340 | nil exactly when no task is eligible, else the task object the specification selects |
| TaskQueueClass.TaskQueue.Locate | gateway/task_queue.go:293-298 | deleting by ID finds the very object that was selected |
| TaskQueueClass.TaskQueue.MoveNext | gateway/task_queue.go:289-309 | the locked half of tryDequeue: the selected task moves with counters and metrics, or nothing changes |
| TaskQueueClass.TaskQueue.TryDequeue | gateway/task_queue.go:288-314 | the state after the whole recursion through the callback is the scheduler function of the state before |
| TaskQueueClass.TaskQueue.MarkDone | gateway/task_queue.go:112-119 | terminates for every worker, and the final state, metrics and dispatch log are those of the recursive scheduler |
| TaskQueueClass.TaskQueue.MarkError | gateway/task_queue.go:122-129 | has the same effect as MarkDone on queue, metrics and dispatch log |
| TaskQueueClass.TaskQueue.MarkDispatched | gateway/task_queue.go:158-169 | true exactly when the task runs and may become running; only that task's status and start time change |
| TaskQueueClass.TaskQueue.DispatchQueuedTask | gateway/slack.go:92-210 | the callback calls of the worker take effect in order on the dispatched task, then a failed Execute completes it once more |
| TaskQueueClass.TaskQueue.OnCall | gateway/slack.go:100-199 | an error call, done or error complete the task, start marks it dispatched, every other call leaves the queue alone |
| TaskQueueClass.TaskQueue.ReleaseTerminalTask | gateway/task_queue.go:135-153 | an absent ID changes nothing; a present one leaves, gives its slot back, and a done one looks for the next task |
| TaskQueueClass.TaskQueue.ReleaseSlot | gateway/task_queue.go:138-148 | the running task leaves, its channel counter and the active gauge drop by one, nothing else changes |
| TaskQueueClass.TaskQueue.MarkRunningDirect | gateway/task_queue.go:174-195 | ignores an empty or running ID; otherwise the task runs whatever the capacity, and its channel and two metrics are counted |
| TaskQueueClass.TaskQueue.FindByChannel | gateway/task_queue.go:199-213 | null exactly when nothing of the channel runs or waits; a running task goes first, else the first waiting one of the channel |
| TaskQueueClass.TaskQueue.ChannelHasActiveTask | gateway/task_queue.go:260-264 | true exactly when the channel's counter is positive |
| TaskQueueClass.TaskQueue.FindRunningTaskID | gateway/slack.go:730-740 | the ID of some running task of the channel; the empty ID only when the channel has none |
| QueueRuns.FifoPerChannel | gateway/task_queue.go:55-82 | over every run in which MarkRunning is only used on the first task of a channel: per channel, the tasks that left followed by the tasks waiting are the tasks enqueued, in order |
| QueueRuns.OutOfTurnBreaksOrder | gateway/task_queue.go:86-109 | MarkRunning keeps the channel's order if and only if its task is the first waiting one of the channel |
| QueueRuns.OutOfOrderRun | gateway/task_queue.go:86-109 | a run of two Enqueues and one MarkRunning that ends out of order |
| QueueRuns.Capacity | gateway/task_queue.go:320-324 | in every run at most the limit plus the directly registered tasks plus the tasks moved by MarkRunning run, and every running task is of one of these kinds |
| QueueRuns.RunBasic | gateway/task_queue.go:288-324 | in every reachable state the running tasks that entered through tryDequeue are at most the limit, IDs are distinct, and no channel counter is zero or negative |
| QueueRuns.StepCapacity | gateway/task_queue.go:320-324 | no single locked section lifts the number of running tasks that entered through tryDequeue over the limit |
| QueueRuns.ChannelCounters | gateway/task_queue.go:76-77 | in every reachable state a channel's counter is its waiting tasks plus its direct registrations not given back, and its key is present exactly when the counter is positive |
| QueueRuns.MoveCounterLaw | gateway/task_queue.go:299-303 | moving a task out of the waiting queue keeps the exact counter law of every channel |
| QueueRuns.ReleaseCounterLaw | gateway/task_queue.go:136-144 | releasing a directly registered task keeps the exact counter law of every channel |
| QueueRuns.DirectCounterLaw | gateway/task_queue.go:191-192 | a direct registration keeps the exact counter law of every channel |
| QueueRuns.ReleaseOfQueuedTask | gateway/task_queue.go:131-144 | releasing a task that came through the queue keeps the counter law if and only if the channel has nothing waiting and no direct registration left |
| QueueRuns.ReleaseTakesForeignSlot | gateway/task_queue.go:131-144 | a run after which the release of a queued task takes the channel counter from one to zero although a direct registration is left |
| QueueRuns.RunStructured | gateway/task_queue.go:66-76 | with fresh IDs, every reachable state has distinct waiting IDs, disjoint from the running ones, and each running key is its task's ID |
| Lifecycle.NeverBackwards | gateway/queued_task.go:21-71 | over every run with fresh IDs a task that left never returns, its status never moves backwards, its start time is written at most once, and its position never grows |
| Lifecycle.WaitingTasksAreQueued | gateway/queued_task.go:47-56 | when only new tasks are handed in, every waiting task has status queued in every reachable state |
| Lifecycle.DequeueTransitionSucceeds | gateway/task_queue.go:303-304 | the ignored Transition error of tryDequeue cannot occur: the task is dispatching with its start time set, and the next MarkDispatched succeeds |
| Lifecycle.MarkRunningTransitionFails | gateway/task_queue.go:98-101 | for every waiting task the ignored Transition error of MarkRunning does occur: the task runs with status queued, and MarkDispatched then fails |
| Lifecycle.MarkDispatchedOnce | gateway/task_queue.go:158-169 | after a dequeue, however other steps interleave, the first MarkDispatched succeeds and a second one fails |
| Drain.MarkDoneDrains | gateway/task_queue.go:112-119 | when every worker ends its task once, by a single terminal event or by a returned error without one: below the limit a completion dispatches exactly the waiting tasks of channels that are not busy, in order, completes them all and leaves the rest and the running tasks as they are; at the limit it dispatches nothing |
| Drain.TryDequeueDrains | gateway/task_queue.go:288-314 | below the limit the recursion of tryDequeue reaches exactly the drained state |
| Drain.DispatchIsCompletion | gateway/slack.go:92-210 | a dispatched task with a single terminal event and no returned error, or with a returned error and no terminal event, changes the queue exactly as one MarkDone of it does |
| Drain.DrainedCounters | gateway/task_queue.go:299-302 | the drain lowers the counter of an idle channel by its waiting tasks and leaves that of a busy channel alone |
| Drain.CompletionWithoutCallback | gateway/task_queue.go:112-129 | without a dequeue callback, completing a running task never increases the number of running tasks |
| Dispatches.CallMeaning | gateway/slack.go:100-199 | an error call, done and error end the dispatched task and count a completion, start turns it from dispatching to running and touches nothing else, every other call leaves the queue alone |
| Dispatches.DispatchEnds | gateway/slack.go:203-208 | a worker that reports an end or returns an error ends its task: it runs no longer whatever was set off, and a completion was counted |
| Dispatches.DispatchGoesOn | gateway/slack.go:127-169 | calls that report no end leave the task running and count nothing |
| Dispatches.NoWorkerLeavesTask | gateway/slack.go:202 | without a stream worker the dispatched task stays as it is |
| Dispatches.OnlyDoneDequeues | gateway/task_queue.go:147-152 | a task released as done makes the next eligible one be dequeued, any other release dequeues nothing |
| SchedulerRuns.MarkDoneRuns | gateway/task_queue.go:112-119 | the whole recursion of one completion is a sequence of single locked sections of the queue |
| SchedulerRuns.MarkDoneKeepsQueueLaws | gateway/task_queue.go:112-119 | one completion with any worker keeps structure, per-channel order and the counter law, enqueues nothing and registers nothing |
| SchedulerCounters.MarkDoneBalanced | gateway/task_queue.go:112-119 | through the whole recursion the four metric counters still say what the queue holds, up to completions of absent IDs |
| SchedulerCounters.EnqueueBalanced | gateway/task_queue.go:76-79 | Enqueue keeps the metric counters equal to what the queue holds |
| SchedulerCounters.DirectBalanced | gateway/task_queue.go:191-194 | so does MarkRunningDirect |
| SchedulerCounters.CompletedTwice | gateway/slack.go:183-207 | from an empty queue, a worker that reports done and then returns an error ends with nothing running, two completions and an active gauge of minus one |
| SchedulerCounters.MarkRunningBalanced | gateway/task_queue.go:90-105 | MarkRunning keeps the metric counters equal to what the queue holds |
| SchedulerCounters.ReleaseBalanced | gateway/task_queue.go:135-148 | a release keeps them equal with one more released task |
| MetricLaws.CountersConserved | gateway/metrics.go:9-15 | at every point between the atomic adds and locked sections of all threads: enqueued is waiting plus running plus effective completions plus released, the queued gauge is the waiting tasks, the active gauge the running ones less absent completions, each corrected by the adds still owed |
| MetricLaws.QuietCounters | gateway/task_queue.go:112-117 | when no add is owed the three equations hold without correction, and the active gauge is exact if and only if no absent ID was completed |
| MetricLaws.SectionAccounted | gateway/task_queue.go:76-79 | what each locked section changes in the sizes of waiting and running is what its own adds account for |
| Decimals.ValueOfDecimal | gateway/slack.go:792-795 | reading a printed number back gives the number |
| Decimals.GeneratedIDInjective | gateway/slack.go:792-795 | two task IDs are equal only if their counter values are |
| Decimals.GeneratedExamples | gateway/slack.go:794 | the first ID is task-1, and the digits are in order |
| GatewayRuns.SingleTaskPerChannel | gateway/slack.go:538-560 | from a sound start, at most one task of each channel runs after any interleaving of mentions, terminal calls, completions, dequeues and start events |
| GatewayRuns.GatewayFifo | gateway/slack.go:612-616 | the MarkRunning of the gateway's start events is always in turn, so every gateway run keeps each channel first-in first-out |
| GatewayRuns.LookupFindsOwnTask | gateway/slack.go:730-740 | while a task runs, both lookups by its channel find that very task |
| GatewayRuns.MentionIsQueued | gateway/slack.go:541-553 | when a mention decides to queue, its Enqueue never fails, appends the task at the end, and its position is the new length |
| GatewayRuns.DirectMentionIsAlone | gateway/slack.go:562-563 | when a mention decides to run directly, nothing of its channel waits or runs when it acts on that decision |
| GatewayRuns.HandleKeeps | gateway/slack.go:534-697 | every gateway step keeps the invariant: laws of the queue, one task per channel, fresh IDs, and a zero counter meaning nothing of the channel is left |
| GatewayRuns.GatewayCapacity | gateway/task_queue.go:320-324 | in every gateway run at most the limit plus the directly run tasks plus those marked by start events run |
| GatewayChannels.SlotsOfRun | gateway/slack.go:697 | a channel holds one registration for each mention run directly on it, and in a run there is at most one, none if it held one before |
| GatewayChannels.MentionRunsAtOnce | gateway/slack.go:538-560 | after any run, a mention runs at once if and only if its channel was never run directly before it; otherwise it is the last task to wait |
| GatewayChannels.MentionTaskMeans | gateway/slack.go:541-548 | the task of a mention carries its channel, user and prompt; it runs with its start time set, or waits last with none |
| GatewayChannels.LiveTasks | gateway/task_queue.go:112-119 | over every run the tasks that wait or run on a channel are those that entered it less those completed while running: none is lost, doubled or moved |
| GatewayChannels.ActiveMeansRegistered | gateway/task_queue.go:259-264 | ChannelHasActiveTask is true exactly when the channel was run directly, covers every occupied channel, and is wrong exactly when besides every task that entered the channel has been completed |
| GatewayChannels.WaitsUntilCompletion | gateway/task_queue.go:288-314 | with no dequeue owed, a waiting task keeps waiting through every run without a completion and without a start event that marks it |
| GatewayChannels.IdleChannelStillQueues | gateway/slack.go:537-560 | a run from an empty gateway after which a channel is idle but active and its next mention waits with nothing running, and keeps waiting through every such continuation |
| GatewayWorkers.FirstTerminalCall | gateway/slack.go:668-682 | until the worker of a directly run task makes its first terminal call its task runs, and whatever that call finds is this task |
| GatewayWorkers.OnlyOwnWorkerCompletes | gateway/slack.go:730-740 | in every run a call that is about to complete a directly run task was made by that task's own worker |
| GatewayWorkers.HandleWorkers | gateway/slack.go:534-727 | every gateway step keeps: own task IDs for workers, tasks on their worker's channel, at most one directly run worker per channel, waiting tasks come from mentions |
| GatewayWorkers.EarlyStartFindsOwnTask | gateway/slack.go:611-616 | in every run a start event of a directly run worker that has made no terminal call finds its own running task, and marking it changes nothing |
| GatewayWorkers.PunctualCapacity | gateway/task_queue.go:320-324 | in every gateway run without late start events at most the limit plus the directly run tasks run |
| RecoveredTasks.OrphanBlocksChannel | gateway/slack.go:235-243 | in every run a running task without a worker on a channel without a directly run worker runs to the end, and every task that waits on its channel still waits |
| RecoveredTasks.RecoveredTaskBlocksChannel | gateway/slack.go:235-243 | after a restart a task recovered as running runs through every run, and every mention of its channel is queued and never started |
| GatewaySteps.MarkDoneEvents | gateway/task_queue.go:112-119 | the whole recursion of one completion, with every worker it dispatches, is a gateway run |
| GatewaySteps.MentionEvents | gateway/slack.go:538-560 | a mention is the gateway run of its look and its action, and uses up one new ID |
| GatewaySteps.StartEvents | gateway/slack.go:611-616 | a start event is the gateway run of its lookup and its MarkRunning |
| GatewayCalls.GatewayCallsAreRuns | gateway/slack.go:534-727 | any sequence of mentions, callback calls and worker errors that meet the contracts of the gateway object is a gateway run, so at most one task of each channel runs |
| GatewayClass.SlackGateway.constructor | gateway/slack.go:62-89 | starts with an empty queue of limit 5 whose counters continue the given metrics |
| GatewayClass.SlackGateway.GenerateTaskID | gateway/slack.go:792-795 | the counter goes up by one and the ID is its decimal form after the prefix |
| GatewayClass.SlackGateway.HandleMention | gateway/slack.go:534-560 | uses up one ID and either enqueues or registers the new task, by the channel's counter, with error and position reported; without a stream worker an idle channel changes nothing and uses no ID |
| GatewayClass.SlackGateway.Lookup | gateway/slack.go:614 | the ID FindByChannel yields, none exactly when nothing of the channel is in the queue |
| GatewayClass.SlackGateway.OnDirectCall | gateway/slack.go:610-683 | start marks the task found by channel as running, done and error complete the running one found, an error call completes the one found, other events leave the queue alone |
| GatewayClass.SlackGateway.OnDirectError | gateway/slack.go:705-711 | a worker that returns an error completes its own task |
| GatewayClass.LateStartMarksFirst | gateway/slack.go:614-616 | a start event on a channel on which nothing runs marks exactly its first waiting task as running |
| GatewayClass.LateEndsFindNoTask | gateway/slack.go:668-682 | done and error on a channel on which nothing runs complete the empty ID; an error call completes the first waiting task of the channel in the metrics, or does nothing when there is none |
| GatewayClass.OtherDirectCalls | gateway/slack.go:630-654 | calls that neither start nor end a directly run task leave the queue alone |
| GatewayCalls.TerminalEventCompletesOwnTask | gateway/slack.go:655-682 | in every gateway run the first terminal call of a directly run task finds that task still running, and completes it and no other |
| GatewayClass.SlackGateway.ReconcileAfterRecovery | gateway/slack.go:220-256 | the queue after the loop is the fold of the per-result step over all results in order |
| GatewayClass.SlackGateway.ReconcileOne | gateway/slack.go:221-254 | a still running task is registered; any other is registered and released again, with a dequeue only for done |
| GatewayClass.ReconciledTasks | gateway/slack.go:235-243 | every running task of the reconciled queue is the task of a result that says running, on the channel of that result |
| GatewayClass.OnlyDoneLooksForNext | gateway/slack.go:223-253 | of the recovered tasks that run no longer only one reported done makes the next eligible task be dequeued |
| GatewayClass.ReconciledQueue | gateway/slack.go:220-256 | from an empty queue the running keys become exactly the reported running IDs, counters count them, and nothing is dispatched |
| GatewayClass.RecoveryAgreement | gateway/recovery.go:44-131 | after recovery and reconciliation every running key is stored as running, with equality when nothing failed or was cancelled and no ID is empty; channel counters count running tasks; records that were not running are untouched |
| GatewayClass.SlackGateway.Startup | main.go:60-72 | after recovery and reconciliation on an empty queue, for a store that keeps each record under its task ID: queue and store agree, every running task is on the channel stored for it; when nothing fails, exactly the active tasks run of which the worker says running or in_progress, and each channel counter is the number of records stored as running on it |
| GatewayClass.StartupAgrees | main.go:60-72 | the same agreement for every store, table, active list and failure pattern |
| GatewayClass.RecoveredGatewayIsSound | gateway/slack.go:212-256 | a recovered queue with one task per channel and no ID of the generated form is a sound start for gateway runs |
| GatewayClass.SlackGateway.Stop | gateway/slack.go:315-358 | the first call writes interrupted over every record it lists, which are all the active ones unless the query fails; a later call changes nothing |
| Throttler.RunConserves | worker/throttler.go:47-117 | under every interleaving, including stale and orphaned timers: immediate events are delivered in push order, and the bufferable ones pushed are, as a multiset, those delivered, taken, held, buffered, superseded or dropped |
| Throttler.ExactlyOneFate | worker/throttler.go:47-117 | every single bufferable event is in exactly one of these places, once |
| Throttler.NeverStuck | worker/throttler.go:60-67 | from every reachable state with a buffered event, timer steps alone deliver it |
| Throttler.RunAlive | worker/throttler.go:60-67 | a buffered event always has an armed timer of its own or a firing on its way, and after Stop nothing is buffered and no timer is kept |
| Throttler.RunOrder | worker/throttler.go:47-87 | events leave the buffer in push order, the last accepted one leaves last, dropped events are exactly the bufferable ones pushed after Stop, and a superseded event was followed by a later accepted one |
| Throttler.CriticalDelivered | worker/throttler.go:11-16 | under every interleaving all start, done, error and tool call events pushed have been delivered, in push order |
| Throttler.ReplacedByNext | worker/throttler.go:56-60 | a progress, paused or other event is not delivered at once but takes the place of the one that waits |
| Throttler.PushArmsTimer | worker/throttler.go:62-66 | every buffered push sets the timer going again, the one there is or a new one |
| Throttler.TimerGivenUp | worker/throttler.go:75-112 | a firing, Flush and Stop empty the buffer and forget the timer; Flush and Stop also disarm it |
| StreamWorker.MessageThrottler.Push | worker/throttler.go:47-67 | one push step: immediate events are delivered, others dropped after Stop or put in the buffer with the timer reset |
| StreamWorker.MessageThrottler.Stop | worker/throttler.go:71-87 | stops the timer, refuses later events and delivers the buffered one |
| StreamWorker.MessageThrottler.TakeForFlush | worker/throttler.go:91-98 | the locked half of Flush empties the buffer, stops the timer and hands the event on undelivered |
| StreamWorker.MessageThrottler.Flush | worker/throttler.go:90-103 | take and delivery without interruption |
| StreamWorker.MessageThrottler.TakeOnTimer | worker/throttler.go:107-112 | the locked half of a firing, which forgets the timer it finds even when that is a newer one |
| StreamWorker.MessageThrottler.OnTimer | worker/throttler.go:107-117 | a firing delivers what it took, if anything |
| StreamWorker.Scan | worker/stream_worker.go:113-136 | pushes the parsed lines in order up to a stop or a timeout, skipping blank and malformed lines; which of the two ends it is the outcome |
| StreamWorker.ExecutePython | worker/stream_worker.go:98-154 | the events delivered are those of the loop, then Flush on success, then the deferred Stop on every path; each of the four outcomes has its exact cause |
| StreamWorker.StreamShape | worker/stream_worker.go:98-154 | for every input and outcome: immediate events come out complete and in order, bufferable ones are a subsequence of those sent, and the last bufferable one is delivered |
| StreamWorker.CriticalEventsComeOut | worker/throttler.go:11-16 | for every input and outcome the start, done, error and tool call events come out complete and in the order sent |
| StreamWorker.NoCriticalEventLost | worker/throttler.go:47-51 | each of these four kinds comes out exactly as often as it was sent |
| StreamWorker.BurstComesOutAsItsLast | worker/throttler.go:53-67 | of a burst of progress, paused and other events without a timer firing all but the last are lost, and the last comes out if the timer fires next or nothing follows |
| StreamWorker.StreamInPushOrder | worker/throttler.go:47-117 | for every input and outcome the stream comes out in push order if and only if no waiting event is overtaken by an immediate one and then let out without being replaced |
| StreamWorker.AfterLastEvent | worker/stream_worker.go:135-151 | when the last event sent is an immediate one, exactly the event waiting at that moment comes out after it |
| StreamWorker.ProgressAfterDone | worker/throttler.go:47-51 | the input progress, done comes out as done, progress |
| Stores.JSONStateManager.Set | state/state_manager.go:46-77 | merges non-empty fields into an existing record and stamps it, or adds the record with its own time if it has one; memory changes even when saving fails |
| Stores.JSONStateManager.ListActive | state/state_manager.go:95-107 | lists exactly the records with status running, once for each key |
| Stores.JSONStateManager.HasActiveTask | state/state_manager.go:153-162 | true exactly when the channel has a running or paused record |
| Stores.JSONStateManager.GetByChannel | state/state_manager.go:166-180 | none exactly when the channel has no record, else a record of it with the latest update time |
| Stores.SQLiteStore.Set | state/sqlite_store.go:102-121 | replaces the whole row with the time as second-granular text, or changes nothing when the statement fails |
| Stores.SQLiteStore.ListActive | state/sqlite_store.go:143-163 | lists exactly the rows with status running, each once, and nothing when the query fails |
| Stores.SQLiteStore.HasActiveTask | state/sqlite_store.go:166-177 | true exactly when the query succeeds and the channel has a running or paused row |
| Stores.SQLiteStore.GetByChannel | state/sqlite_store.go:181-198 | none exactly when the query fails or the channel has no row, else a row of it that comes first in descending text order; when the times were written by Set, one with the latest update time to the second |
| Stores.SQLiteStore.RowOrder | state/sqlite_store.go:184-187 | the text order of the update column is the order of the parsed times |
| Timestamps.TextOrderIsChronological | state/sqlite_store.go:12 | for years 0000 to 9999 the text order of the formatted times is chronological order to the second |
| Timestamps.FieldsAreChronological | state/sqlite_store.go:12 | comparing year, month, day, hour, minute, second in turn is comparing seconds counted with the calendar's leap years |
| Timestamps.NanosecondsAreChronological | state/state_manager.go:173 | comparing nanoseconds is comparing the fields down to the fraction of the second |
| Timestamps.ParseOfFormat | state/sqlite_store.go:115 | parsing a formatted time gives the time back without its fraction |
| StoreRuns.JsonFields | state/state_manager.go:50-74 | over every run each string field of a record is the last non-empty value ever set for it |
| StoreRuns.SqliteRecords | state/sqlite_store.go:106-116 | over every run each record is the last one set, whole |
| StoreRuns.StoresAgreeOnField | state/state_manager.go:43-77 | the two stores agree on a field if and only if its last value was not empty or it was never set |
| StoreRuns.StoresAgree | state/sqlite_store.go:101-121 | on every run whose sets carry all fields the two stores hold the same records, up to the update time |
| StoreRuns.QueriesAgree | state/sqlite_store.go:142-177 | on such runs both stores list the same active IDs and give the same answer for every channel |
| StoreRuns.UpdateTimes | state/state_manager.go:67-71 | a Set moves the update time to now, unless a time is given and taken: for a new record in the JSON store, always and to the second in the SQLite store |
| StoreRuns.ActiveStatuses | state/state_manager.go:157 | a channel is active exactly when one of its records says running or paused |
| StoreRuns.JustSetIsLatest | state/state_manager.go:166-180 | a record just set with a clock past every stored time is the one GetByChannel finds on its channel |
| Recovery.RecoverActiveTasks | gateway/recovery.go:44-77 | results and store are those of the records reached before cancellation, in the order of the active list; cancellation is reported |
| Recovery.RecoverAll | gateway/recovery.go:58-76 | the loop stops at the first cancelled check, and a failed record is skipped without stopping it |
| Recovery.RecoverSingle | gateway/recovery.go:79-131 | writes the worker's answer as a final status and fails exactly when the store does |
| Recovery.SetRecord | gateway/recovery.go:157-163 | the one write to either store, with its own failure behaviour |
| Recovery.ListActive | gateway/recovery.go:50 | the active list of whichever store is behind the interface, empty when its query fails |
| Recovery.FinalStatusStored | gateway/recovery.go:98-127 | after recovery each reached record carries its own final status, or running still if the SQLite write failed; no later record overwrites it |
| Recovery.AnswerStored | gateway/recovery.go:88-115 | a reached record whose write takes effect is stored as done exactly for the answers done and completed, as running exactly for running and in_progress, and as error for every other answer and for a failed check |
| Recovery.ResultMeans | gateway/recovery.go:130 | the result of a record names its task, its channel and the status its answer stands for |
| Recovery.StoredRunningIs | gateway/recovery.go:109-111 | when nothing fails the tasks stored as running after recovery are exactly those that were and of which the worker says so |
| Recovery.StopsWhenCancelled | gateway/recovery.go:61-65 | recovery handles exactly the records before the first cancelled check |
| Recovery.ChannelsKept | gateway/recovery.go:158-163 | recovery keeps the channel of every record |
| Recovery.RecoveredIs | gateway/recovery.go:60-74 | after the whole recovery each reached record is what its own write leaves of the stored one |
| Recovery.OthersUntouched | gateway/recovery.go:60-74 | records outside the reached ones are exactly as before, and no record appears or disappears |
| Recovery.ResultsOfRecovery | gateway/recovery.go:58-76 | the results are exactly those of the reached records whose write succeeded, each task once |
| Recovery.ReportsMatchStore | gateway/recovery.go:41-77 | tasks reported running are stored as running; all stored as running are reported when nothing failed or was cancelled |
| Recovery.RecoveryAndPrompts | gateway/recovery.go:157-163 | after the whole recovery a reached record has kept its prompt and its user if and only if the store merges, its write failed, or there was none; channel and message timestamp are always kept |
| Recovery.MarkInterrupted | gateway/slack.go:344-355 | writes interrupted for every listed record in order |
| Recovery.StopMarks | gateway/slack.go:344-355 | Stop interrupts exactly the running records whose write reaches the store and leaves all others alone; what runs afterwards is what ran and could not be written |
| Recovery.MarkMeans | gateway/slack.go:348-351 | a successful mark of Stop stores the status interrupted, in either store |
| Recovery.StopThenRestart | gateway/slack.go:343-355 | when nobody else writes, the next recovery after a Stop finds exactly the records whose SQLite write failed, as they were, and finds none if and only if the store merges in memory or no write failed |
| Recovery.StopAndChannels | gateway/slack.go:344-354 | after the whole loop of Stop a listed record has kept its channel, message timestamp, user and prompt if and only if the store merges, its write failed, or there was none |
| Debounce.ProgressCache.ShouldPersist | gateway/slack.go:30-39 | allows a write exactly when the task has none yet or the cooldown has passed, and remembers the later clock reading only then |
| Debounce.WritesSpaced | gateway/slack.go:30-39 | with a clock that never goes back, consecutive writes of one task are at least the cooldown apart |
| Debounce.WindowBound | gateway/slack.go:149 | the writes of a task whose time lies in any window of length T number at most T / cooldown + 1 |
| Debounce.TasksIndependent | gateway/slack.go:33-35 | the writes of one task do not depend on the calls for other tasks |
| Debounce.NeverRefusedLate | gateway/slack.go:34-38 | the next call is written if and only if it comes at or past the cooldown after every earlier write |
| Persistence.PersistEvent | gateway/slack.go:127-198 | the store half of the callback for one event: which record it sets, if any, and what the progress cache remembers |
| Persistence.StatusAfterWrite | gateway/slack.go:132-196 | a write changes the status of its own task only, to the one it stands for, and only if it is made and takes effect |
| Persistence.LastWriteDecides | gateway/slack.go:618-681 | after any interleaving of the writes of callbacks and of Stop the stored status is that of the last write that takes effect on the task, or the one from before when none does |
| Persistence.ProgressIsDebounced | gateway/slack.go:148-156 | along any interleaving of writes from an empty cache, progress writes of one task are at least 10,000,000,000 nanoseconds apart, and a window of length T holds at most T / 10,000,000,000 + 1 of them |
| Persistence.LateProgressIsWritten | gateway/slack.go:630-641 | a progress event is written exactly when ten seconds have passed since every earlier progress write of its task |
| Persistence.CacheFollowsDebounce | gateway/slack.go:30-39 | what the callbacks remember and write of progress is what the progress cache alone would |
| Persistence.RecordMeans | gateway/slack.go:127-196 | an effective write stores running for start and progress, paused, done and error for the events of these names, and no other kind is written |
| Persistence.UnrecordedEvents | gateway/slack.go:133 | an event without a task ID, a tool call and any other event write nothing |
| Persistence.StartStoresMention | gateway/slack.go:618-625 | a start event stores channel, message, user and prompt of the mention |
| Persistence.EndStoresMessage | gateway/slack.go:643-681 | a paused, done or error event stores the channel and the message it is shown in |
| Persistence.LaterDeliveryAndPrompt | gateway/slack.go:634-638 | a later delivery keeps prompt and user if and only if it is not written, the store merges, or there is none; a written progress event also loses the channel in the SQLite store |
| Persistence.FinalStatusStays | gateway/slack.go:655-681 | for every stream that ends with done or error, whatever tasks its events name, the stored status of the task it ends is final if and only if the waiting event is not written to it after that and the last write took effect or the task was already stored as over |
| Persistence.DoneThenRunning | gateway/slack.go:630-641 | after progress, done with nothing failing the stored status is running, in either store |
| Persistence.StopWithLateDeliveries | gateway/slack.go:331-355 | with deliveries interleaved in any way a task that Stop marks ends as interrupted if and only if no later delivery is written to it and its mark took effect or it was interrupted already; otherwise it has the status of the last such delivery |
| Persistence.StopIsMarks | gateway/slack.go:344-355 | the writes of Stop alone leave the store that the shutdown loop leaves |
| Persistence.RunningAfterStop | worker/stream_worker.go:102-118 | a progress event delivered by a stopped worker sets the task running again after Stop has marked it |

## Left out

- TaskQueueClass.TaskQueue.MarkRunningDirect: requires a task object that is not in the waiting queue; every caller in the repository builds the object just before the call (gateway/slack.go:227-252 and 690).
- GatewayClass.SlackGateway.HandleMention: ends at the registration of the task; the callback calls that follow are calls of OnDirectCall and OnDirectError, and GatewayCalls covers their order.
- TaskQueueClass.TaskQueue.DispatchQueuedTask: is the queue half of the callback; what it writes to the store is Persistence.PersistEvent.
- TaskQueueClass.TaskQueue.OnCall: is the queue half of the callback; what it writes to the store is Persistence.PersistEvent.
- GatewayClass.SlackGateway.OnDirectCall: is the queue half of the callback; what it writes to the store is Persistence.PersistEvent.
- Persistence.FinalStatusStays: is about one stream whose timer firings take and deliver without interruption, and about no other writer; other writers are in LastWriteDecides.
- StreamWorker.StreamShape: takes the timer firings and flushes inside the loop as uninterrupted; the laws under full interleaving are in Throttler.
- StreamWorker.StreamInPushOrder: takes the timer firings and flushes inside the loop as uninterrupted, as StreamShape does.
- GatewayClass.SlackGateway.Stop: does not model the signals to the workers; what they still deliver is in Persistence.StopWithLateDeliveries.
- Recovery.StopThenRestart: is about a Stop during and after which no worker delivers an event; late deliveries are in Persistence.StopWithLateDeliveries.
- Stores.SQLiteStore.ListActive: does not model a row that cannot be scanned, which the loop skips.
- StreamWorker.ExecutePython: a timer firing or Flush inside the loop takes and delivers without interruption; the full interleaving is in Throttler.
- Stores.SQLiteStore.GetByChannel: text order is related to time only for rows written by Set with times in UTC and years 0000 to 9999; on equal times it may return any of the latest rows.
- Stores.SQLiteStore.RowOrder: requires that the time column was written by Set; another text reads as the zero time, which its place in the text order need not show.
- GatewayClass.SlackGateway.Startup: says nothing about a loaded JSON file whose keys differ from the IDs inside its records; there a Set by task ID does not reach the listed record.
- StoreRuns.QueriesAgree: is about runs in which no store operation fails and both stores started empty.
- Recovery.RecoverSingle: does not model the Slack message that is updated beside the store.
- TaskQueueClass.TaskQueue.TryDequeue: the clock is one reading for each task, because a task's start time is written at most once; the recursion runs on one thread, and other threads are covered by the step relations.
- QueueRuns.Capacity: says nothing about MaxPerChannel, which the code fills in and never reads.
- MetricLaws.CountersConserved: counters are unbounded integers; the wrap-around of the 64-bit counters is not modelled.
- The order in which Go visits a map: wherever the code picks from a map, the contracts allow any choice.
- Slack calls, Socket Mode, connection monitoring, rendering, modals and logging: input and output around libraries.
- Processes, pipes, signals and timeouts of the workers: only the sequence of callback calls and the result remain.
- The Cline worker and the dispatch worker: text classification without a law of its own.
- JSON and SQL encoding, files and the database engine: a store is a map or a table, and a failing write is a flag.
- Reading a JSON file: the stores start from any table.
- Strings: identifiers are compared but not taken apart, except generated task IDs and formatted times.
- ListWaiting, ListRunning, RunningCount, QueueLength, IsAtCapacity and CanEnqueue: plain reads of fields.
- The stop and retry buttons: one call each of operations that are modelled.
