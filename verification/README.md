# The workflow engine, modelled and proved

This project models the v1 engine of the repository: tasks wait in a queue, workers claim them, a scheduler picks an
agent, a budget is charged, an implementer or a reviewer runs, and the task is released as finished or queued again.
It proves what no single source file shows: what every interleaving of N workers keeps.

There are three layers.

- **The protocol** (`Protocol`). One state holds every task's queue row, budget row, event log and runs, and one program
  counter and one work-order cache per worker. Each action is one store call; the claim's SELECT and UPDATE, and the read
  and the write of every budget charge, are separate actions. The environment chooses clock readings, run outcomes,
  faults, aborts and the order of actions. `Run` is the state after any sequence of actions. `Shape`, `System`, `Story`,
  `StorySteps`, `Footprint`, `Ledger` and `Traces` carry the invariants; `Safety`, `Counts`, `Announcements`, `Alarms`,
  `HealthLaws`, `Strikes`, `Accounts`, `Dispositions`, `CacheLaws`, `Picks`, `Sole`, `RunLog` and `Stale` hold the theorems over
  all runs (`Effects` their common steps).
- **The code as it runs** (`Tables`, `QueueStore`, `TaskQueue`, `Stores`, `BudgetManager`, `AgentRegistry`,
  `DefaultScheduler`, `Orchestrator`, `Handler`, `Worker`, `Batch`). Classes with the source's fields and methods that
  update tables in place. Every method is specified by a function of the old state. `Handler.V1WorkerTaskHandler.Handle`
  and `Worker.DefaultWorker.Loop` carry a ghost walk through the protocol's phases (`Walks`), which makes every execution
  of the loop a run of the protocol: the theorems about runs are theorems about these classes. What is refined is one
  worker's own actions, with nobody else moving meanwhile; the interleaving of several workers is in the protocol only.
- **Pure parts** (`Budgets`, `Scheduler`, `SchedulerLaws`, `ScoreLaws`, `Handoffs`, `Events`, `Runs`, `FailureLaws`, `Yaml`,
  `YamlLaws`, `YamlRoundTrip`). The
  allocator, one run of an agent, event validation, and the indentation parser with its printer.

Assumptions, all of them visible in the statements or the types:

- Store calls do not fail for I/O reasons. This matters: `src/queue/worker.ts:131-141` releases by task id without looking
  at owner or status, so an exception thrown after a release would undo it. That validation never throws in the middle of
  a handle is proved (`Announcements.LogsAccepted`).
- Ids are fresh and not blank, arithmetic is over reals, and task, run and file names contain no slash.
- Tasks enter queued for an implementer, as `src/cli/run-command.ts:505-522` enqueues them.
- `cfg.isolated` says that the transaction around a claim shows its UPDATE the row that its SELECT returned. Mutual
  exclusion, budgets, alarms, health, events and caches are proved without it; the theorems about what a row means
  (earned acceptance, handoffs, the abort frame, run rows) require it.
- The collation order of agent ids is a function `rank`; two ids that compare equal are one id where a theorem says so.

Where the code is weaker than one might expect, the code is kept and the exact limit is proved:

- A reviewer run has exactly one ending unless an exception escapes before its own try block
  (`Runs.ReviewerEndsOnceExactly`).
- With two claiming workers a stale cache lets one agent implement a task twice (`Stale.StaleCacheRepeats`). In any run
  of any number of workers a pick repeats an implementer if and only if the stored order already excludes the picked
  agent, which takes a copy that lags (`Picks.PickRepeatsExactly`); runs without such picks never repeat
  (`Picks.FreshPicksNeverRepeat`), and with one claiming worker there are none (`Sole.NoRepeatImplementer`).
- A printed tree comes back from the parser if and only if no list and no record below the top is empty, no record has
  only numeric keys, and every number is a plain decimal (`YamlRoundTrip.RoundTrip`); what comes back otherwise is stated
  for every tree (`YamlRoundTrip.ParsePrinted`).
- A pool that was stopped still starts, and then no stop reaches its workers (`Batch.DefaultWorkerPool.Stop`).

## Model

| member | source | states |
|---|---|---|
| `Safety.MutualExclusion` | src/storage/queue-store.ts:57-74 | for any workers, interleaving and clock readings, dispatched rows are in bijection with the workers between claim and release |
| `Safety.StoppedMeansReleased` | src/queue/worker.ts:95-141 | when every worker has halted, each row is queued or terminal: none is left dispatched |
| `Safety.BudgetSafety` | src/storage/budget-store.ts:78-129 | in every interleaving runs_used is the number of launches and at most max_runs, the stored status is that of the stored usage, and usage minus completed runs is what is in flight, aborted or thrown |
| `Accounts.BudgetAccounts` | src/storage/budget-store.ts:78-129 | in every run of N workers a stored budget's cost is the sum of the registered costs of the agents of the charged attempts, its time the sum of the elapsed times charged, its runs the launches; it is exhausted iff one of the order's own limits is reached, and ok iff all are below four fifths |
| `Accounts.WallAdds` | src/storage/budget-store.ts:104-129 | the stored time is the sum of the elapsed times that the run's actions charged to the task, those below zero counting nothing |
| `Accounts.RegisteredPrice` | src/queue/worker-task-handler.ts:704-706 | the cost counted for an agent is the one in the profile registered under its id, zero if it gives none |
| `Safety.NoLostUpdate` | src/storage/budget-store.ts:78-129 | whenever a worker is about to write a charge, the row still holds the value it read |
| `Safety.AttemptsColumn` | src/queue/worker-task-handler.ts:601-617 | an unheld row's attempts column counts the completed runs, so runs_used minus attempts is the aborted plus the thrown launches |
| `Safety.TerminalAbsorbing` | src/storage/queue-store.ts:57-74 | once a row is accepted, failed or awaiting a human, nothing in any continuation changes it |
| `Safety.AcceptanceEarned` | src/queue/worker-task-handler.ts:246-339 | an accepted task has an implementer run with exit 0, no timeout and passed (or no) verification; with review, the last attempt is an approval of exactly that run's diff by another agent, with no implementer attempt between |
| `Safety.EarnedMeans` | src/queue/worker-task-handler.ts:313-339 | from a genuine history that ends accepted, the implementation that acceptance rests on can be exhibited |
| `Dispositions.AcceptedExactly` | src/queue/worker-task-handler.ts:246-417 | a task that no worker holds is accepted iff its attempts have earned it |
| `Dispositions.RowAfterRun` | src/queue/worker-task-handler.ts:246-532 | what the row of a task that no worker holds is, by the outcome of its latest handle's run and the budget left: accepted, awaiting a human, failed, queued for a reviewer with the context of that very implementation, or queued for an implementer with its packet; failed after an exception, queued after an abort, and never accepted without a launch |
| `Dispositions.RefusalEnds` | src/queue/worker-task-handler.ts:210-244 | a decision without a pick ends the task, awaiting a human iff the budget lasts and some agent fits but every one that does is excluded or outside the pool |
| `Dispositions.PacketExact` | src/scheduling/handoff-manager.ts:82-137 | the packet of a handover names the failed attempt or the reviewed one, its artifacts, the reason by the failure's own reason, and excludes what the order excludes and that agent |
| `Safety.HandoffDelivery` | src/queue/worker-task-handler.ts:419-532 | a queued row has a pending packet exactly when its last completed attempt was handed back; it is that attempt's packet; none is pending while a review is due, and then the review context names the latest successful implementation |
| `Safety.RunRowsAgree` | src/core/orchestrator-v1.ts:446-479 | the run row of every launch agrees with its end: cancelled if aborted, still running if an exception was thrown out of it, succeeded or failed as the outcome says, and the outcome is of the run's id and role |
| `Counts.AttemptsKept` | src/queue/worker-task-handler.ts:246-532 | whatever happens later, an attempt on record that is not in flight is never altered, moved or dropped |
| `RunLog.RunsEndOnce` | src/core/orchestrator-v1.ts:446-479 | in any run of N workers the log of a task has one run.completed for each launch whose row succeeded, one run.failed for each that failed, none for the cancelled and open ones, and none for any other run id |
| `System.StructuredAlways` | src/queue/task-queue.ts:178-196 | exclusion, well-shaped tasks and lagging caches hold together in every reachable state of N workers |
| `System.Explained` | src/queue/worker-task-handler.ts:51-208 | every action changes what is seen of a task in one of five ways: enqueued, claimed, stepped by its owner, a late event logged, or not at all |
| `Safety.StoriedAlways` | src/queue/worker-task-handler.ts:246-532 | in every reachable state the row's role, attempts, review context, handoff URI and excludes are the functions of its attempts that `TaskStory` gives |
| `Counts.HandlesBounded` | src/queue/worker-task-handler.ts:246-532 | a task is claimed at most max_runs times plus once per abort, and launched at most max_runs times |
| `Counts.HandleEndsOrLaunches` | src/queue/worker-task-handler.ts:51-208 | a handle about to release has launched exactly once since its claim or ends the task, and when it requeues a run is left |
| `Counts.AbortFrame` | src/queue/worker.ts:107-141 | the requeue after an abort puts the row back as it was claimed and logs nothing itself; since the claim at most one launch was charged, it is marked aborted, and its run row is cancelled; with `AttemptsKept` the attempts before it are those the claim found |
| `Counts.HandoffUrisDistinct` | src/scheduling/handoff-manager.ts:139-151 | no two handoffs of a task share a packet URI, in any run |
| `Counts.PacketsDistinct` | src/scheduling/handoff-manager.ts:139-151 | the same for one history, from fresh run ids and genuine attempts |
| `Announcements.LogsAccepted` | src/core/events.ts:147-356 | every logged and every pending event passes the id and payload validators |
| `Announcements.EndAnnouncedOnce` | src/queue/worker-task-handler.ts:576-637 | a finished task has exactly one ending event or exactly one worker about to append it, agreeing with the row; an unfinished one has none, whatever was aborted |
| `Ledger.RunEventsFine` | src/core/orchestrator-v1.ts:481-974 | whatever the environment does, all events of a run are accepted and none is an alarm or a task ending |
| `Ledger.CreationFine` | src/core/orchestrator-v1.ts:294-425 | the events of creating a run, and of failing to, are accepted |
| `Ledger.DecisionFine` | src/queue/worker-task-handler.ts:534-546 | the dispatch event of any decision is accepted: there is always a visible pick or a refusal |
| `Ledger.LogStep` | src/queue/worker-task-handler.ts:51-208 | a holder only appends accepted events to its task's log, and releases with a plan whose event announces the status written |
| `Alarms.AlarmSequence` | src/scheduling/budget-manager.ts:119-200 | over any run of any number of managers a task's alarms are none, low, exhausted or low then exhausted, each level exactly when its status is reached, with a ratio in [0.8, 1) or at least 1 |
| `Alarms.NoTransitionHidden` | src/scheduling/budget-manager.ts:119-200 | the step after a charge logs exactly the alarm that its change of status calls for, whatever the manager remembers |
| `HealthLaws.AgentAlarmsOnce` | src/scheduling/agent-registry.ts:272-334 | across all registries sharing the health map each level of an agent has rung exactly once, in order |
| `HealthLaws.HealthMonotone` | src/scheduling/agent-registry.ts:272-310 | an agent's health never recovers |
| `Strikes.HealthExact` | src/scheduling/agent-registry.ts:272-294 | for any history of N workers an agent is depleted iff a recorded run of it failed for an exhausted quota or a failed login, and low iff it is not depleted and one was rate limited |
| `HealthLaws.DepletedNeverPicked` | src/scheduling/agent-registry.ts:296-310 | once depleted, an agent is picked by no later decision of any worker, whatever the metrics |
| `Sole.NoRepeatImplementer` | src/queue/worker-task-handler.ts:468-532 | with one claiming worker every pick is informed, so the agents of completed implementer attempts are pairwise distinct and at most as many as registered agents; every cached order is the stored one |
| `Picks.PickRepeatsExactly` | src/queue/worker-task-handler.ts:89-97 | in any run of N workers an agent picked to implement has already implemented the task iff the stored order excludes it, and the copy it was picked from never does |
| `Picks.FreshPicksNeverRepeat` | src/queue/worker-task-handler.ts:468-532 | any number of workers: if no implementer of a task is picked while the stored order excludes it, the agents of its completed implementer attempts are pairwise distinct and at most as many as registered agents |
| `Picks.InformedPicksNeverRepeat` | src/queue/worker-task-handler.ts:468-532 | the same for picks made from copies that contain all the excludes stored at that moment |
| `Stale.StaleCacheRepeats` | src/queue/task-queue.ts:178-196 | a concrete run of two workers in which the only agent implements the task twice, although its first attempt excluded it |
| `CacheLaws.CachesTrail` | src/queue/task-queue.ts:128-196 | a cached order differs from the stored one only in excludes, where it is a prefix after deduplication; it gives the same lease, and a packet built from it still adds exactly its agent |
| `CacheLaws.HandoverMergesExactly` | src/queue/worker-task-handler.ts:419-448 | the packet a worker settles on, built from a copy that may be stale, merges with the stored excludes to dedupe(stored ++ [from]) |
| `CacheLaws.ExcludesAfterHandover` | src/queue/worker-task-handler.ts:440-448 | in any reachable state of N workers the merging step leaves the row's excludes as dedupe(stored ++ [from]), and the worker's copy equal to the row |
| `CacheLaws.ClocksIrrelevant` | src/storage/queue-store.ts:57-62 | in reachable states which row is claimed does not depend on any clock |
| `Budgets.StatusMonotone` | src/storage/budget-store.ts:16-24 | more usage never lowers the status |
| `Budgets.PreLaunchKeeps` | src/storage/budget-store.ts:78-102 | a launch from a status that is not exhausted adds one run and nothing else, and keeps the row consistent and within max_runs |
| `Budgets.PostRunKeeps` | src/storage/budget-store.ts:104-129 | a charge adds its time and its cost and nothing else, keeps the row consistent and its status from falling |
| `Budgets.StatusExact` | src/storage/budget-store.ts:16-24 | a consistent row is exhausted iff runs, time or cost reach their limit, and ok iff all three are below four fifths of it |
| `Budgets.RunLeft` | src/storage/budget-store.ts:16-24 | a budget that is not exhausted has a run left, and a full one is exhausted |
| `Budgets.AxisExplainsStatus` | src/scheduling/budget-manager.ts:25-43 | the reported ratio is that of the reported axis and the largest of the three, at least 1 exactly when exhausted and in [0.8, 1) exactly when low |
| `SchedulerLaws.RefusalExact` | src/scheduling/scheduler.ts:182-219 | each of the four refusals by an exact condition on the registry, exclusive in the code's order; no refusal iff the budget lasts and some agent passes all filters |
| `SchedulerLaws.PickOrRefusal` | src/scheduling/scheduler.ts:182-287 | a decision is a pick or a refusal, never both or neither, so the first of the ranking exists when reached |
| `SchedulerLaws.PickOptimal` | src/scheduling/scheduler.ts:230-255 | the pick is the unique eligible agent maximal in score, ties going to the smallest id |
| `SchedulerLaws.ScoresListed` | src/scheduling/scheduler.ts:257-277 | picked or refused, a decision lists every registered agent by rising id, with the reason it was excluded, and its score and breakdown in the pool, or the zero row for whoever was not ranked |
| `SchedulerLaws.OrderIndependent` | src/scheduling/scheduler.ts:86-287 | pick, refusal and sorted candidate scores are unchanged under any permutation of a registry with distinct ids |
| `SchedulerLaws.EligibleAreCandidates` | src/scheduling/agent-registry.ts:177-216 | the eligible list is, entry by entry and in order, the registry's own candidate list for the same excludes less those outside the role pool; without a pool the two lists are equal |
| `SchedulerLaws.ScoreBounds` | src/scheduling/scheduler.ts:31-74 | the score of every eligible agent lies in [0.5, 1] |
| `ScoreLaws.HealthWeighs` | src/scheduling/scheduler.ts:67-74 | of two eligible agents alike but for their health the healthy one scores exactly 0.1 more, and the low one is not picked |
| `ScoreLaws.CostWeighs` | src/scheduling/scheduler.ts:42-51 | of two alike but for their cost the scores differ by 0.20 times the difference of their costs as shares of the dearest eligible agent's, and the dearer one is not picked |
| `ScoreLaws.ReliabilityWeighs` | src/scheduling/scheduler.ts:59-65 | of two alike but for their success the scores differ by 0.10 times the difference of the recorded rates, or of the profile's below five observed runs |
| `ScoreLaws.LatencyWeighs` | src/scheduling/scheduler.ts:53-57 | of two alike but for their latency the scores differ by 0.10 times the difference as a share of ten minutes, more counting as ten and none known as five |
| `ScoreLaws.LoneScore` | src/scheduling/scheduler.ts:42-74 | a lone eligible agent's score, its cost not counting |
| `SchedulerLaws.ReasonExact` | src/scheduling/scheduler.ts:96-132 | each exclusion reason by an exact condition on the request and the entry, the first filter failed in the code's order |
| `SchedulerLaws.MaxCostIsMax` | src/scheduling/scheduler.ts:223-228 | the normalising cost is the largest estimated cost of an eligible agent, or zero |
| `SchedulerLaws.PickSafe` | src/scheduling/scheduler.ts:150-180 | a picked agent is registered, capable, of the role, in the pool, not depleted, not excluded, and not the latest implementer |
| `Runs.SuccessIsProven` | src/core/orchestrator-v1.ts:481-711 | an implementer run succeeds iff nothing threw, the agent exited 0 in time, and verification passed or was not asked for |
| `Runs.VerdictIsRead` | src/core/orchestrator-v1.ts:713-974 | a reviewer run returns a verdict iff the diff applied, the agent exited 0 in time and the verdict file says it |
| `FailureLaws.AgentFailureExact` | src/core/orchestrator-v1.ts:537-640 | an implementer run fails for a timeout, a rate limit, an exhausted quota, a failed login or a bad exit code, each iff the process ended so, by exact conditions on its exit and its error patterns |
| `FailureLaws.EngineFailureExact` | src/core/orchestrator-v1.ts:481-711 | it fails to spawn, in verification or internally, each iff the environment did that |
| `FailureLaws.ImplementerAbortExact` | src/core/orchestrator-v1.ts:481-711 | it is aborted iff the signal is seen at the start, in the agent or in the verification, and nothing escapes it |
| `FailureLaws.ImplementerReasonLogged` | src/core/orchestrator-v1.ts:446-465 | the reason it returns is the one in its last event |
| `FailureLaws.VerificationTold` | src/core/orchestrator-v1.ts:619-660 | its events report verification passed, or failed, iff it ran to that end |
| `FailureLaws.ReviewAgentFailureExact` | src/core/orchestrator-v1.ts:860-890 | the same five reasons for a reviewer run |
| `FailureLaws.ReviewEngineFailureExact` | src/core/orchestrator-v1.ts:713-974 | a reviewer run fails to apply the diff, to spawn, to give a usable verdict, or internally, each iff the environment did that |
| `FailureLaws.ReviewAbortExact` | src/core/orchestrator-v1.ts:713-974 | it is aborted, or an exception escapes it, by exact conditions on the environment |
| `FailureLaws.ReviewTold` | src/core/orchestrator-v1.ts:713-974 | a verdict is reported, and as the one it is, iff the run returns it |
| `Runs.ImplementerEndsOnce` | src/core/orchestrator-v1.ts:481-711 | every environment gives an implementer run exactly one of run.completed, run.failed and cancellation, the one its run row says |
| `Runs.ReviewerEndsOnceExactly` | src/core/orchestrator-v1.ts:713-974 | a reviewer run ends exactly once iff no exception escapes before its try block while the signal is clear |
| `Runs.OutcomeFitsRole` | src/core/orchestrator-v1.ts:976-1056 | outcomes are of the entry's role and the run's id, so the handler's mismatch branch is dead |
| `Handoffs.StalePacketMerges` | src/storage/queue-store.ts:211-242 | merging a packet built from a lagging list gives dedupe(stored ++ [from]) |
| `Handoffs.DedupePrefix` | src/storage/queue-store.ts:320-329 | deduplicating a longer list only appends |
| `Handoffs.DedupeAbsorbs` | src/storage/queue-store.ts:320-329 | appending what is already there changes nothing |
| `Handoffs.DedupeFirstSeen` | src/storage/queue-store.ts:320-329 | the loop over a seen-set keeps the first occurrence of each value |
| `Handoffs.BuildExcludes` | src/scheduling/handoff-manager.ts:93-107 | the loop over prior excludes, then the agent handed over from unless seen |
| `Handoffs.Build` | src/scheduling/handoff-manager.ts:82-137 | the packet's excludes are the prior ones and its agent, without repeats |
| `Events.MissingIds` | src/core/events.ts:318-356 | the loop collects exactly the required ids an event lacks |
| `Events.DispatchAccepted` | src/core/events.ts:147-172 | a decision with a visible pick or a refusal makes an accepted dispatch event |
| `Events.AcceptedNames` | src/core/events.ts:87-114 | which visible ids, and which closed-set reasons, every accepted event of a kind carries |
| `QueueStore.ClaimTakesOldest` | src/storage/queue-store.ts:56-62 | the row selected is an oldest claimable row, and none is selected only if there is none |
| `QueueStore.PatchesAreReleases` | src/queue/worker-task-handler.ts:601-617 | the handler's patch and the worker's requeue patch are the protocol's two releases |
| `QueueStore.SqliteQueueStore.Insert` | src/storage/queue-store.ts:119-134 | fails on a taken id, else adds the row with empty side columns |
| `QueueStore.SqliteQueueStore.ClaimSelect` | src/storage/queue-store.ts:56-62 | the scan returns the first claimable row in age order |
| `QueueStore.SqliteQueueStore.ClaimUpdate` | src/storage/queue-store.ts:64-74 | changes the row iff it is still queued and unowned or its lease has run out, and reports it |
| `QueueStore.SqliteQueueStore.Claim` | src/storage/queue-store.ts:136-162 | an oldest queued row becomes dispatched, owned and leased, all else unchanged; none is claimed only if no queued row is unowned |
| `QueueStore.SqliteQueueStore.Release` | src/storage/queue-store.ts:164-186 | fails for an unknown task or a foreign field, else patches that row only |
| `QueueStore.SqliteQueueStore.AddWorkOrderExcludeAgentIds` | src/storage/queue-store.ts:211-242 | merges into the stored excludes, whatever the caller's copy |
| `QueueStore.SqliteQueueStore.SetReviewContext` | src/storage/queue-store.ts:244-255 | fails for an unknown task or a blank required field, else stores the context |
| `QueueStore.SqliteQueueStore.SetHandoffPacketUri` | src/storage/queue-store.ts:268-281 | sets or clears the pending packet of a known task |
| `TaskQueue.DefaultTaskQueue.Enqueue` | src/queue/task-queue.ts:66-91 | adds a queued, unowned row and caches the order as given |
| `TaskQueue.DefaultTaskQueue.ComputeDefaultLeaseForNextClaimable` | src/queue/task-queue.ts:128-164 | the scanning loop finds the row the store would claim, caches its order, and gives its lease |
| `TaskQueue.DefaultTaskQueue.Claim` | src/queue/task-queue.ts:93-103 | the default lease is that of the row the store takes whenever both clock readings find the same row, as they do when equal or when queued rows are unowned; caches keep lagging |
| `TaskQueue.DefaultTaskQueue.GetWorkOrder` | src/queue/task-queue.ts:178-190 | a cached order wins over the stored one, and a miss is cached |
| `TaskQueue.DefaultTaskQueue.AddWorkOrderExcludeAgentIds` | src/queue/task-queue.ts:192-196 | merges into the stored order and caches the result; other copies only fall behind |
| `TaskQueue.LeaseOfCopy` | src/queue/task-queue.ts:45-48 | a lagging copy of an order gives the same lease |
| `TaskQueue.LeaseExact` | src/queue/task-queue.ts:45-48 | the default lease is the budgeted time and a minute, at most an hour, so it lasts for the whole budget iff that is no more than an hour |
| `TaskQueue.SameFirst` | src/queue/task-queue.ts:132-146 | with unowned queued rows two clock readings find the same row |
| `TaskQueue.DefaultTaskQueue.ListTerminal` | src/queue/task-queue.ts:215-219 | the list holds each terminal task of the table once, oldest first |
| `Stores.SqliteBudgetStore.Init` | src/storage/budget-store.ts:54-68 | inserts an unused row, or does nothing if there is one |
| `Stores.SqliteBudgetStore.ApplyPreLaunch` | src/storage/budget-store.ts:78-102 | field by field: one run more, time, cost and limits as before, and the status of the new usage |
| `Stores.SqliteBudgetStore.ApplyPostRun` | src/storage/budget-store.ts:104-129 | field by field: time and cost increased by the charge, runs and limits as before, and the status of the new usage |
| `Stores.SqliteEventLog.Append` | src/storage/event-log.ts:39-59 | inserts iff the event passes validation; a refused event changes nothing |
| `Stores.SqliteRunStore.Create` | src/storage/run-store.ts:83-100 | adds a run row under a free id |
| `Stores.SqliteRunStore.UpdateStatus` | src/storage/run-store.ts:102-129 | changes only the status, and fails for an unknown run |
| `Stores.SqliteMetricsStore.RollingFor` | src/storage/metrics-store.ts:64-97 | the loop computes the share of successes, the mean time rounded to a millisecond, and the number of the rows seen |
| `Stores.RollingBounds` | src/storage/metrics-store.ts:64-97 | for any recorded history the success rate is in [0, 1] and at most the window is observed |
| `Stores.WindowExact` | src/storage/metrics-store.ts:38-44 | the rows seen are the agent's latest, newest first, as many as there are up to the window |
| `BudgetManager.TransitionIs` | src/scheduling/budget-manager.ts:119-188 | the manager's alarm, or none, is the protocol's transition step |
| `BudgetManager.DefaultBudgetManager.Init` | src/scheduling/budget-manager.ts:68-80 | creates the row if needed and remembers exactly the alarms its status implies |
| `BudgetManager.DefaultBudgetManager.EmitTransitionEvents` | src/scheduling/budget-manager.ts:119-138 | appends the alarm of the transition unless already rung, and remembers it |
| `BudgetManager.DefaultBudgetManager.PreLaunch` | src/scheduling/budget-manager.ts:90-95 | charges one launch and rings the alarm of its transition |
| `BudgetManager.DefaultBudgetManager.PostRun` | src/scheduling/budget-manager.ts:99-115 | charges a run's time and cost and rings the alarm of its transition |
| `AgentRegistry.SqliteAgentRegistry.LoadFile` | src/scheduling/agent-registry.ts:96-166 | refuses a duplicate id; a new entry has its rolling metrics and the shared health |
| `AgentRegistry.SqliteAgentRegistry.List` | src/scheduling/agent-registry.ts:168-170 | the loop lists the entries in load order with current shared health, each within the bounds the score bounds ask for |
| `AgentRegistry.SqliteAgentRegistry.FindCandidates` | src/scheduling/agent-registry.ts:177-216 | the filtering loop and sort give the registry's candidates |
| `AgentRegistry.SqliteAgentRegistry.ApplyProviderFailure` | src/scheduling/agent-registry.ts:272-294 | a rate limit lowers a healthy agent, an exhausted quota or a failed login depletes one that is not, each with its alarm; any other reason does nothing |
| `AgentRegistry.SqliteAgentRegistry.RecordOutcome` | src/scheduling/agent-registry.ts:218-245 | records the outcome, refreshes that agent's metrics only, and applies a failure's reason; a success changes no health |
| `AgentRegistry.SubsetOf` | src/scheduling/scheduler.ts:35-40 | the loop decides the subset relation |
| `AgentRegistry.ListedBounded` | src/scheduling/agent-registry.ts:253-270 | whatever history was recorded, every listed agent satisfies the premise of the score bounds |
| `AgentRegistry.RefreshedExact` | src/scheduling/agent-registry.ts:253-270 | from the first recorded run on an agent's window counts, and before that its profile's figures |
| `DefaultScheduler.AnalyzeAll` | src/scheduling/scheduler.ts:96-132 | the analysis loop classifies each entry by the first filter it fails |
| `DefaultScheduler.AnalyzeCandidates` | src/scheduling/scheduler.ts:86-137 | the analyses of the registry's list, sorted by id |
| `DefaultScheduler.MaxCostOf` | src/scheduling/scheduler.ts:223-228 | the running maximum is the largest cost |
| `DefaultScheduler.SomeoneRanked` | src/scheduling/scheduler.ts:221-255 | past the refusal checks the ranking is not empty |
| `DefaultScheduler.Decide` | src/scheduling/scheduler.ts:142-287 | the checks, loops and sorts compute the specified decision, reading but not changing the registry's listing |
| `Orchestrator.Runner.CreateRunContext` | src/core/orchestrator-v1.ts:294-425 | a new run row, running or failed, with the creation events in order |
| `Orchestrator.Runner.FinishRun` | src/core/orchestrator-v1.ts:446-465 | the final status and exactly one ending event |
| `Orchestrator.Runner.CancelInterruptedRun` | src/core/orchestrator-v1.ts:467-479 | cancels a run that has not ended, and no other |
| `Orchestrator.Runner.SaveAgentArtifacts` | src/core/orchestrator-v1.ts:537-610 | publishes the artifacts up to the save that throws |
| `Orchestrator.Runner.RunImplementerOnce` | src/core/orchestrator-v1.ts:481-711 | events, result and row are those of the run function; an abort leaves the row to the caller |
| `Orchestrator.Runner.RunReviewerOnce` | src/core/orchestrator-v1.ts:713-974 | the same for a reviewer, with the exceptions that escape before the try block |
| `Orchestrator.Runner.RunTaskOnce` | src/core/orchestrator-v1.ts:976-1056 | one new run row and its events, result and final status exactly as the run functions say, cancellation included |
| `Traces.WorksRun` | src/queue/worker-task-handler.ts:51-208 | a worker's consecutive steps on its task are a run of the whole system |
| `Walks.RecordAgrees` | src/queue/worker-task-handler.ts:651-670 | what the handler records worsens health exactly as the protocol's recording step |
| `Walks.RegisteredCost` | src/queue/worker-task-handler.ts:704-706 | the handler's cost estimate is the registered one |
| `Walks.RunLogged` | src/core/orchestrator-v1.ts:481-974 | all events of a run are filed under its task |
| `Handler.V1WorkerTaskHandler.LoadTask` | src/queue/worker-task-handler.ts:59-84 | reads order, context or packet as the protocol does, or plans the failure of a reviewer without context |
| `Handler.V1WorkerTaskHandler.PrepareBudget` | src/queue/worker-task-handler.ts:86-87 | creates or finds the budget and reads it |
| `Handler.V1WorkerTaskHandler.Choose` | src/queue/worker-task-handler.ts:89-97 | asks the scheduler with the registry's current listing and logs the decision |
| `Handler.V1WorkerTaskHandler.HandleSchedulerRefusal` | src/queue/worker-task-handler.ts:210-244 | a refusal ends the task, awaiting a human only when all candidates are excluded |
| `Handler.V1WorkerTaskHandler.Charge` | src/queue/worker-task-handler.ts:114-130 | packet, signal, then the charge with its alarm |
| `Handler.V1WorkerTaskHandler.LaunchRun` | src/queue/worker-task-handler.ts:132-167 | signal, review artifacts, then the run, with the three ways out |
| `Handler.V1WorkerTaskHandler.Bill` | src/queue/worker-task-handler.ts:169-179 | charges exactly the run's time and the agent's registered cost with their alarm, and records the outcome |
| `Handler.V1WorkerTaskHandler.RecordAgentOutcome` | src/queue/worker-task-handler.ts:651-670 | records a success iff the implementer succeeded or the reviewer gave a verdict, and nothing for failures that are not the agent's |
| `Handler.V1WorkerTaskHandler.HandleImplementerSuccess` | src/queue/worker-task-handler.ts:246-311 | the row is accepted without review, else queued for a reviewer, or failed on an exhausted budget |
| `Handler.V1WorkerTaskHandler.HandleImplementerFailure` | src/queue/worker-task-handler.ts:468-532 | a failure of a kind that is handed over is queued for an implementer while budget is left; any other fails the task |
| `Handler.V1WorkerTaskHandler.HandleReviewerOutcome` | src/queue/worker-task-handler.ts:313-417 | approved is accepted, rejected awaits a human, changes requested or a diff that did not apply goes back to an implementer while budget is left, the rest fails |
| `Handler.V1WorkerTaskHandler.RequeueImplementerAfterReview` | src/queue/worker-task-handler.ts:419-466 | builds the packet of the reviewed implementation, whose agent is excluded, and hands the task over |
| `Handler.V1WorkerTaskHandler.HandOver` | src/queue/worker-task-handler.ts:434-466 | logs the handover, merges the excludes, points the row at the packet and releases |
| `Handler.V1WorkerTaskHandler.Handle` | src/queue/worker-task-handler.ts:51-208 | whatever the world does, the tables end where the protocol's steps from the claim lead, idle or due to requeue after an abort; other tasks are untouched |
| `Worker.ClaimRun` | src/storage/queue-store.ts:136-162 | the claim's transaction is a Select and an Update of the protocol |
| `Worker.ScanRun` | src/queue/task-queue.ts:128-164 | the lease computation is a Scan of the protocol |
| `Worker.DefaultWorker.ReleaseAfterHandlerFailure` | src/queue/worker.ts:131-141 | requeues the row by task id alone |
| `Worker.DefaultWorker.HandleClaimed` | src/queue/worker.ts:107-121 | the handle of a claimed entry, requeue after a throw included, is a run of the protocol |
| `Worker.DefaultWorker.WorkOnce` | src/queue/worker.ts:97-121 | one turn takes tables that represent a state to tables that represent one reached by this worker's own actions |
| `Worker.DefaultWorker.Loop` | src/queue/worker.ts:95-129 | the loop is a run of the protocol and halts iff a stop was requested in one of its turns |
| `Worker.DefaultWorker.Stop` | src/queue/worker.ts:68-89 | a stop is only a request |
| `Batch.LoadBatchWorkOrders` | src/cli/run-command.ts:405-465 | fails without files; succeeds iff there are some and each is readable, of version 1 and of a new task; else names the first that is not |
| `Batch.BuildBatchResult` | src/cli/run-command.ts:776-834 | results in task-id order iff every task is present and finished; else names a culprit |
| `Batch.WaitForAllTerminal` | src/queue/worker-pool.ts:109-122 | the polling loop ends at the first poll that counts enough |
| `Batch.Pigeonhole` | src/cli/run-command.ts:394-403 | distinct finished tasks within distinct batch ids reach the batch's size iff none is missing |
| `Batch.WaitingSound` | src/queue/worker-pool.ts:109-122 | the scoped count reaches the batch's size iff every task of the batch is finished |
| `Batch.FinishedForGood` | src/cli/run-command.ts:960-1008 | once counted, every task of the batch is finished in every later state of any run, so building the result cannot fail |
| `Batch.DefaultWorkerPool.Start` | src/queue/worker-pool.ts:73-107 | refuses a second start and a bad count, whether or not the pool was stopped; a failing start leaves exactly its records to clean up |
| `Batch.DefaultWorkerPool.Stop` | src/queue/worker-pool.ts:124-146 | closes the records of a failed start and, at the first stop only, every worker's service; workers started after a stop keep theirs |
| `Yaml.Block` | src/cli/yaml-simple.ts:15-115 | the block ends at the end of the input or at a visible line indented less than its base |
| `Yaml.ParseBlock` | src/cli/yaml-simple.ts:15-115 | the loop with its threaded index and nested calls terminates on every input and computes the block |
| `Yaml.ParseSimpleYaml` | src/cli/yaml-simple.ts:5-8 | parses the split lines from the first at indentation zero |
| `YamlLaws.SkippedExactly` | src/cli/yaml-simple.ts:27-31 | a line is passed over iff nothing in it is visible or the first visible character is a hash |
| `YamlLaws.ScalarExact` | src/cli/yaml-simple.ts:117-136 | what every trimmed value reads as: text between either kind of quotes, the four words, a plain decimal, or its own text |
| `YamlLaws.LinePassedOver` | src/cli/yaml-simple.ts:27-56 | a block passes over blank lines, comments, deeper lines that stand under no key, and lines that are neither an item nor have a colon |
| `YamlLaws.KeyLost` | src/cli/yaml-simple.ts:64-76 | a key with nothing after its colon is lost if a blank line or a comment, or no deeper line, follows it |
| `YamlLaws.AssignExact` | src/cli/yaml-simple.ts:46-62 | a repeated key keeps its place with the new value, a new key goes to the end |
| `YamlRoundTrip.ScalarBack` | src/cli/yaml-simple.ts:117-136 | a printed newline-free scalar reads back as itself iff it is not a number printed otherwise than as a plain decimal, such as with an exponent, which reads back as text |
| `YamlRoundTrip.BlockFields` | src/cli/yaml-simple.ts:24-98 | what survives of a run of printed fields of any depth, empty lists and records and numeric keys included, is read back in order, whatever was read before |
| `YamlRoundTrip.ArrayOfItems` | src/cli/yaml-simple.ts:74-87 | items keyed by line number come back as the array in line order |
| `YamlRoundTrip.SplitJoin` | src/cli/yaml-simple.ts:6 | splitting joined lines gives them back |
| `YamlRoundTrip.ParsePrinted` | src/cli/yaml-simple.ts:5-115 | parsing any printed tree gives the surviving entries of its fields, finished as the parser finishes a block |
| `YamlRoundTrip.RoundTrip` | src/cli/yaml-simple.ts:5-115 | for every tree of distinct clean keys and newline-free scalars, of any depth, parse after print is the identity iff no list and no record below the top is empty, no record has only numeric keys, and every number is printed as a plain decimal |
| `YamlRoundTrip.EmptyRecordLost` | src/cli/yaml-simple.ts:60-72 | an empty record or list among any other fields is lost with its key, as if it had not been printed |
| `YamlRoundTrip.NumericRecordReadsAsArray` | src/cli/yaml-simple.ts:100-111 | a record of numeric keys of which something survives reads back as an array |
| `YamlRoundTrip.ToSimpleYaml` | tests/unit/agent-registry.test.ts:48-73 | the concatenating printer produces the lines of the tree |

## Left out

- SQLite, SQL text, JSON and schema parsing: tables are maps, parsed objects are datatypes, and rows of equal age keep insertion order.
- Child processes, worktrees, the file system, capsule and brief writers, prompt text and artifact contents: they appear only as choices of the environment.
- Promise timing, backoff sleeps, grace periods and signal plumbing: stops and aborts are environment steps; a worker's loop is given a finite list of turns.
- Process crash and recovery: a claim never takes a dispatched row, so nothing is claimed about rows of a crashed worker; leases do not provide it.
- `max_review_runs`, sessions, the v0 engine, the command line, summaries, cleanup of worktrees and listing of events.
- `updated_at`, `project_id` and the texts of payloads, summaries and error messages.
- `releaseAfterHandlerFailure` swallowing a store error: store errors are assumed away.
- The orchestrator's branch for a missing review context and the handler's branches for a missing order, entry or budget: no state of the model reaches them.
- `setStatus`, `resolveDatabasePath`, registry sources and directory listing: single-branch facts.
- Floating-point rounding and the details of `localeCompare`: reals and an abstract order on ids.
- `created_at` of metrics rows: the latest rows are those recorded last.
- YAML keys named `__proto__`, keys that are not clean, scalars with newlines, numbers beyond exact precision, and printing lists of lists; a number is represented by its text.
- Yaml.ParseBlock: when an array block also has non-numeric keys the host's sort has no defined order, so the order is a parameter of the parser.
- Batch.FinishedForGood: the polls themselves are given as lists; that a poll sees a state of the run is part of its statement's premise.
- Runs.ReviewerEndsOnceExactly: an exception that escapes a reviewer leaves its run row running; the exact condition is stated, the code is not changed.
- Stores.SqliteRunStore.UpdateStatus: the other patchable fields and the refusal of immutable ones are not modelled.
- Stores.SqliteMetricsStore.RollingFor: the average actual cost is not modelled; the scheduler does not read it.
- Batch.BuildBatchResult: the run and artifact counts of a result are not modelled.
- Batch.WaitForAllTerminal: the abort signal is not modelled, and the polls are a finite list.
- Batch.DefaultWorkerPool.Stop: waiting for the workers, and failures while closing, are not modelled.
- Worker.DefaultWorker.Loop: a finite list of turns by one worker with no other moving; interleaving is in the protocol.
- Worker.DefaultWorker.WorkOnce: no other worker moves meanwhile.
- Worker.DefaultWorker.HandleClaimed: no other worker moves meanwhile.
- Worker.DefaultWorker.Stop: the grace period, the abort of the current handle and the waiting are environment steps.
