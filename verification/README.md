# pg-helper, verified

pg-helper keeps PostgreSQL databases across several instances in the state that was asked for: a server
holds desired-state records and sends jobs to agents, an agent runs each job as a graph of tasks, and every
step of a task is recorded in the row of its database. This project models the stateful protocols behind
that and proves what they keep over every run.

`dafny verify dfyconfig.toml` checks everything. The files follow the components of the program:

- `Tasks`, `Jobs`, `JobHandling`, `JobEffects`, `JobProgress`, `JobReturns`, `JobDispatch`, `JobRepeats`,
  `JobOutcome`, `JobCareless`, `JobHandlers`, `Requests`: the dependency engine. A task and a job are objects edited in
  place; `JobHandling` is the state machine of workers, handler and new jobs, in which a dispatched task may come back
  in any state; `JobEffects` tells its steps by statuses and lists; the next six files prove progress, dispatch and
  outcome over all its runs for any acyclic job; `JobHandlers` is the handler object, each of whose methods takes one
  machine step; `Requests` shows that what requests and recovery build may be added.
- `Lifecycle`, `RowSuccessors`: one row of `dbs`, any number of workers that read it, guard on it and write it back
  by compare-and-set, preempted anywhere; and the literal table of which row can follow which.
- `Sources`, `SourceStates`, `SourceEffects`, `SourceHandlers`, `CronQueue`: desired-state records, the timers that
  drive them, what every event makes of their fields, and the sorted timer queue.
- `Consumer`, `Delivery`, `Subscribers`: the bounded consumer, the resend slot, one-shot subscriptions.
- `Auth`, `Instances`, `BackupPaths`, `BackupPathLaws`: permission merge, instance selection, backup paths and the
  laws of cleaning them.
- `Sequences`, `Wrappers`: removal of a first occurrence against filtering; options and results.

Two forms recur. A protocol is a state machine: a datatype for the state, events with an `Enabled` guard, a
step function, an invariant kept by every step, and theorems about every run (`IsRun`) and the state after
it. An object the program updates in place is a class whose methods are proved equal to the machine's step
or to a function about which the properties are then proved. What the steps themselves do is stated once more in
terms that name no step: literal tables of rows and fields, counts of turns, laws of paths.

Identifiers are naturals (`uuid.Nil` is 0), times are integers of one clock, wall-clock reads are parameters.
What the outside does (the database server, agents, callers, the map iteration order, the scheduler) is
nondeterministic: an event, a parameter, or an arbitrary choice.

## Where the code does less than it seems to promise

Each of these is proved, most with the exact condition:

- A task that its worker hands back neither done nor cancelling, such as a create step that finds another owner,
  is refused and never dispatched again; its job stays in the handler's map for ever
  (`JobReturns.PendingReturnHoldsTheJob`). A job can end exactly as long as none of its tasks has come back so
  (`JobReturns.MayEndIff`, `JobReturns.ReturnDecides`), and all jobs end exactly in the runs in which every task
  comes back done or cancelling (`JobReturns.EveryJobEndsIff`). Recovery dispatches such tasks again.
- A worker may complete a task that it has been told to cancel, because it tests a status that nothing sets; the
  jobs then end with another outcome than the graph's (`JobCareless.TwoStepsGoAstray`). They end with the graph's
  exactly when no worker does so (`JobCareless.OutcomeIsTheGraphsIff`).
- A job all of whose tasks are done when it is added would stay in the handler's map for ever
  (`JobProgress.AbandonedIffFinished`, `JobProgress.AbandonedForGood`). No sender of jobs sends one: requests
  build pending tasks and recovery skips finished jobs (`Requests.ChainCanBeAdded`,
  `Requests.RecoveredJobCanBeAdded`), and with such jobs only, the jobs that do not end are those with a task
  that came back unfinished (`JobProgress.EveryUnfinishedJobEnds`).
- A task can be dispatched twice (`JobDispatch.TwoParentsDispatchTwice`), exactly when, as its job is added, it
  is unfinished and waits for two unfinished dependencies, or for one although another has failed
  (`JobRepeats.DispatchedTwiceIff`). Requests build tasks with one dependency at most (`Requests.ChainIsAcyclic`).
- The migrate-out task never acts: the request that creates it has already left the stage the task asks for,
  so (Idle, Done) is never committed and the callback of `MigrateOut` never runs after a subscription
  (`Lifecycle.MigrateOutNeverCompletes`, `Subscribers.MigrateOutNeverCallsBack`).
- A migration never becomes ready: a row that has reached BackupDatabase stays there
  (`Lifecycle.BackupIsForEver`), and runs do reach a finished backup (`Lifecycle.BackupIsReached`).
- The ignored error of a first write is harmless only if the write failed on the version: lost for another
  reason, it leads off the sequential life of the row unless the row already was what the write would have made
  it (`Lifecycle.SpuriousLossLeavesTheWalkIff`).
- The retry delay stops growing past 3600 seconds but by then is 5120 (`Sources.RetryDelayClosedForm`).
- `WaitReady` misses a ready status that is notified between its first look and its subscription, and exactly
  those unless another one follows in time (`Subscribers.MissedIff`).
- A source handled with an unreadable password is left processing with neither a delivery nor a timer
  (`SourceStates.UnreadablePasswordWaitsForNews`).
- A source that is found dropped while it is handled goes on to processing, and its removal, coming after that,
  leaves it held (`SourceEffects.DroppedWhileHandledStays`).
- A send on the closed channel of a consumer is possible exactly when a sender sits between its test of the
  flag and `addingWg.Add` at the moment the flag is set (`Consumer.CrashIffWindowOpen`).
- A stream that registers while a serve loop of its instance is still there makes the loss of a job possible;
  one that registers when none is there does not (`Delivery.SecondLoopMayLoseIff`). Nothing in
  `svc_register.go` waits for the old loop.
- A merge of permissions may lose what both sides authorise, depending on the order
  (`Auth.MergeLosesExactly`, `Auth.MergeDependsOnOrder`).
- The backup path check panics on a path such as `pg-14` (`BackupPaths.PanicsIff`).
- The same check cuts the printed version to 32 bits: it gives back the printed number exactly when that fits, a
  higher version passes exactly when its low 32 bits do, and `pg-4294967310/db/x.sql` is taken for version 14
  (`BackupPaths.AcceptedVersionIsThePrintedOneIff`, `BackupPaths.HigherVersionIsRefusedIff`,
  `BackupPaths.WrappedVersionIsAccepted`, `BackupPaths.WrappedPathIsAccepted`).

## Model

| member | source | states |
|---|---|---|
| Tasks.DbTask.constructor | internal/job/task.go:55-57 | a task starts with its whole dependency list live, not cancelling |
| Tasks.DbTask.RemoveDependsOn | internal/job/task.go:98-106 | removes the first occurrence and says whether there was one |
| Tasks.DbTask.DependsDone | internal/job/task.go:59-71 | a done task ignores the message; otherwise the dependency is gone and ready means the list became empty through this very message |
| Tasks.DbTask.DependsFailed | internal/job/task.go:73-86 | as above, and the task is cancelling and ready whatever else it waits for |
| Tasks.DbTask.IsReadyToRun | internal/job/task.go:88-96 | ready exactly when not done and either free of dependencies or cancelling |
| Tasks.WakesUpWhenReady | internal/job/task.go:59-96 | for a waiting task, a message reports it exactly when IsReadyToRun has become true |
| Tasks.DbTask.Cancel | internal/handler/db_task/db_task.go:64-68 | only the status changes, to cancelled |
| Jobs.BaseJob.IsFailed | internal/job/job.go:40-47 | some task failed or was cancelled |
| Jobs.BaseJob.IsDone | internal/job/job.go:49-56 | every task is completed, failed or cancelled |
| Jobs.BaseJob.OnTaskDone | internal/job/job.go:66-82 | every task of the job has heard the outcome and exactly the ones it woke are returned, in order |
| Jobs.BaseJob.Init | internal/job/job.go:58-64 | the in-place replay equals the replay of the finished rows on snapshots |
| Jobs.BaseJob.ReadyToRun | internal/job/job.go:84-92 | exactly the ready tasks, in order |
| Jobs.RecoveryClosedForm | internal/job/job.go:58-82 | recovery leaves each unfinished task waiting for its not-yet-done dependencies, in order, and cancelling exactly when one of its dependencies failed |
| Jobs.RecoveryIgnoresRowOrder | internal/db/queries/db_tasks.sql:35-37 | two listings of the same rows recover the same live lists, flags and ready set, whatever their order |
| Jobs.RecoverJob | internal/handler/db_task/handler.go:137-169 | no job for a nil id or a finished one; otherwise the job of all rows, replayed |
| Jobs.NothingToReplay | internal/job/job.go:58-64 | a new job, none of whose tasks is done, is left as built |
| JobHandling.StepKeepsInv | internal/job/job_handler.go:76-152 | adding a job, a worker's status change and the return of a task in whatever state keep: live lists are the dependencies not yet announced, an unfinished task in flight is ready and a cancelling one is in flight, every held job has work left, the task graph is acyclic |
| JobHandling.ReachableInv | internal/job/job_handler.go:41-152 | the invariant holds after every run from the empty handler |
| JobHandling.ProcessTaskStep | internal/job/job_handler.go:94-152 | a task that comes back done or cancelling touches only itself and the tasks of its job that wait for it, and drops the job exactly when all its tasks are done; any other is refused and only leaves the flight |
| JobEffects.ReturnEffect | internal/job/job_handler.go:94-152 | in every reachable state, a task that comes back neither completed, failed, cancelled nor told to cancel is refused; any other keeps its last status or becomes cancelled, those that wait for it strike it off and cancel on bad news, exactly those are dispatched that hear bad news or waited for nothing else, and the job goes exactly if all its tasks are over |
| JobEffects.AddEffect | internal/job/job_handler.go:76-92 | in every reachable state, a job already held changes nothing and any other is held, with exactly its tasks that are not over and wait for nothing or are cancelling dispatched once |
| JobHandling.StuckOnlyByRefusal | internal/job/job_handler.go:103-107 | a task is ready with nobody to send it back only from the moment it came back unfinished |
| JobProgress.HeldJobIsInFlight | internal/job/job_handler.go:88-90 | a held job that was not finished when added and has no stuck task always has a dispatched task still to be processed |
| JobProgress.UnfinishedTaskIsHeld | internal/job/job_handler.go:131-135 | a job is never deleted while one of its tasks is unfinished |
| JobProgress.WorkDecreases | internal/job/task.go:63-65 | a worker's status change lowers the measure |
| JobProgress.ProcessDecreases | internal/job/job_handler.go:119-139 | handling a returned task lowers the measure although it may dispatch others |
| JobProgress.RunsAreBounded | internal/job/job_handler.go:94-139 | without new jobs at most Measure many steps can be taken |
| JobProgress.QuiescentMeansFinished | internal/job/job_handler.go:119-152 | where no step is left, every job not finished at its arrival is deleted and every task is done, unless the job has a stuck task |
| JobProgress.EveryJobEnds | internal/job/job_handler.go:94-152 | every run from every reachable state that can go no further has, within the bound, finished and deleted all jobs without a stuck task |
| JobProgress.NothingStillborn | internal/handler/db_task/handler.go:156-158 | as long as every job added still has a task to do, no job is in the handler without work |
| JobProgress.EveryUnfinishedJobEnds | internal/job/job_handler.go:119-152 | with such jobs only, what such a run still holds is exactly the jobs with a stuck task |
| JobReturns.RefusedIsStuck | internal/job/job_handler.go:103-107 | in every reachable state, the return of a task neither done nor cancelling leaves it stuck: no other copy of it is in flight |
| JobReturns.StuckForGood | internal/job/task.go:59-71 | a stuck task stays stuck and its job held over every later run, whatever is added and whatever comes back |
| JobReturns.MayEndIff | internal/job/job_handler.go:133-135 | in every reachable state, some run ends a job if and only if no task of it is stuck |
| JobReturns.ReturnDecides | internal/handler/db_task/handler.go:38-39 | for a job with nothing stuck, after the return of a task it can still end if and only if the task came back done or cancelling |
| JobReturns.OrderlyIff | internal/job/job_handler.go:96-107 | in every reachable state no task is stuck if and only if every task so far came back done or cancelling |
| JobReturns.EveryJobEndsIff | internal/job/job_handler.go:94-152 | a run of jobs with work to do that can go no further has ended every job if and only if every task came back done or cancelling |
| JobReturns.PendingReturnHoldsTheJob | internal/handler/db_task/task_create_database.go:31-37 | a job of one task that comes back Pending is held, and no later run ends it |
| JobProgress.AbandonedIffFinished | internal/job/job_handler.go:76-92 | a new job has nothing in flight exactly when all its tasks are already done |
| JobProgress.AbandonedForGood | internal/job/job_handler.go:146-152 | such a job is never deleted by any later run, whatever jobs are added |
| JobDispatch.DispatchedExactlyOnce | internal/job/job_handler.go:57-74 | in every run, a task with at most one dependency, or none of whose dependencies failed, is dispatched at most once, and once if it is done and was not when added |
| JobDispatch.NeverDispatchedEarly | internal/job/task.go:59-96 | a dispatched task that is not cancelling has all its dependencies completed |
| JobDispatch.TwoParentsDispatchTwice | internal/job/task.go:67-86 | a run in which one dependency fails and the other completes dispatches their child twice |
| JobRepeats.DispatchedTwiceIff | internal/job/task.go:59-96 | for any acyclic job beside any others, some later run, further jobs included, dispatches a task twice if and only if it arrives unfinished and with two unfinished dependencies, or with one and a failed one |
| JobRepeats.RunLowersPotential | internal/job/task.go:67-82 | over any run, further jobs included, a task is dispatched no more often than its dispatches so far plus, if unfinished, its live dependencies |
| JobRepeats.OtherInFlight | internal/job/job_handler.go:131-132 | while a task of a job without stuck tasks waits for a dependency, some other task is in flight |
| JobRepeats.LastDependencyDispatches | internal/job/task.go:67-69 | from any state in which a task of a job without stuck tasks waits for a dependency, some run dispatches it once more |
| JobRepeats.DispatchedBeforeDone | internal/job/task.go:59-96 | in every run that ends with it done, an unfinished task that is not ready has been dispatched at least once more |
| JobDispatch.ReachableDispatch | internal/job/job_handler.go:57-139 | the dispatch counts of every run, task by task |
| JobOutcome.OutcomeIsTheClosure | internal/job/job.go:66-82 | in runs in which no worker completes a task it was told to cancel: when a job is over, its failed or cancelled tasks are exactly those that reach, along dependencies, one that failed on its own; all others completed, in whatever order tasks came back |
| JobCareless.OutcomeIsTheGraphsIff | internal/handler/db_task/handler.go:44-47 | when all jobs are over, every task's outcome is that of the graph if and only if no worker completed a task it was told to cancel |
| JobCareless.CarelessIff | internal/handler/db_task/handler.go:44-47 | in every reachable state, some completed task has a dependency that ended badly if and only if some worker did so |
| JobCareless.ReachableFailures | internal/job/task.go:80-83 | whatever the workers do, every task that ended badly failed on its own or has a dependency that ended badly |
| JobCareless.TwoStepsGoAstray | internal/handler/db_task/task_create_database.go:40-54 | a run of the first two steps of a create-database job in which the first fails, the second completes, and the job ends so |
| JobOutcome.FailureSpreads | internal/job/task.go:73-86 | failure travels along every dependency path |
| JobOutcome.FailureComesFrom | internal/job/job_handler.go:96-101 | every failure has an origin at the end of some path |
| JobOutcome.RecoveryAgreesWithLiveRun | internal/handler/db_task/handler.go:151-166 | after a crash with all finished tasks announced, recovery from rows equal to the tasks in memory, in any order, rebuilds the live state (cancelBy apart) and dispatches exactly the unfinished tasks that were in flight or stuck |
| JobOutcome.RecoveryAgreesAfterAnyCrash | internal/handler/db_task/handler.go:137-169 | after a crash at any moment, with rows equal to the tasks in memory, it rebuilds what the live job comes to once the finished tasks on their way back have been announced |
| JobHandlers.JobHandler.constructor | internal/job/job_handler.go:30-33 | an empty handler is the machine's initial state |
| JobHandlers.JobHandler.ReadyToRun | internal/job/job_handler.go:62-74 | each given task is dispatched once |
| JobHandlers.JobHandler.AddJob | internal/job/job_handler.go:76-92 | is the machine's step; a job already held is refused and nothing changes |
| JobHandlers.JobHandler.ProcessTask | internal/job/job_handler.go:94-117 | is the machine's step, with the error of each refusal |
| JobHandlers.JobHandler.ProcessDoneTask | internal/job/job_handler.go:119-139 | tells the job, dispatches what woke and deletes a finished job |
| JobHandlers.JobHandler.DropIfDone | internal/job/job_handler.go:146-152 | the job is gone exactly when all its tasks are done |
| Requests.BuildCreateDatabaseJob | internal/handler/grpc_agent/job_create_database.go:89-149 | first the user and the database, last the wait; a backup exactly when it migrates, a restore exactly when it migrates or has a backup path, each once and waiting for what it needs: the restore for the backup if there is one, the wait for the restore if there is one, both otherwise for the database; all pending, a chain |
| Requests.ChainIsAcyclic | internal/handler/grpc_agent/job_create_database.go:103-149 | a chain is acyclic and no task has more than one dependency |
| Requests.ChainCanBeAdded | internal/handler/grpc_agent/job_create_database.go:153-153 | every such request meets what the machine asks of a new job |
| Requests.RecoveredJobCanBeAdded | internal/handler/db_task/handler.go:151-166 | so does every recovered job whose rows are closed and acyclic |
| Lifecycle.StepWorker.Read | internal/handler/db_task/task_create_user.go:32-46 | a worker goes on exactly when the machine's worker of its kind does; which rows those are is `RowSuccessors.SuccessorByKindIff` |
| Lifecycle.StepWorker.Fill | internal/handler/db_task/task_create_database.go:50-51 | the fields set before the work, for each kind of step |
| Lifecycle.StepWorker.Claim | internal/handler/db_task/task_backup.go:58-63 | the first write is the machine's claim, its error ignored |
| Lifecycle.StepWorker.Finish | internal/handler/db_task/handler.go:106-115 | the final write is the machine's finish |
| Lifecycle.DbTable.SetDbStatus | internal/db/queries/dbs.sql:8-14 | writes and restamps the row exactly when the version matches |
| Lifecycle.DbTable.UpdateDbStatus | internal/db/db_api.go:132-166 | a record whose write matched carries the new version, one whose write did not keeps its old one |
| Lifecycle.ReachableInv | internal/db/db_api.go:132-166 | after every interleaving the committed rows are a walk and every worker's copy is either current or stale for ever |
| Lifecycle.HistoryIsAWalk | internal/handler/db_task/task_restore.go:33-47 | however workers interleave, the committed rows form a walk along edges that the guards permit |
| Lifecycle.FinalFollowsFirst | internal/handler/db_task/handler.go:106-115 | a committed final write directly follows the committed first write of the same worker |
| Lifecycle.StagesNeverDecrease | internal/db/db_utils.go:10-27 | the stage of the row never goes back |
| Lifecycle.LoserCommitsNothing | internal/handler/db_task/task_create_user.go:48-52 | a worker whose first write lost changes nothing with its final write |
| Lifecycle.ReadyToUseHasACause | internal/handler/db_task/task_wait_ready.go:25-31 | before ReadyToUse comes (CreateDatabase, Done) or (RestoreDatabase, Done), and the former occurs in the history |
| Lifecycle.LastStages | internal/handler/grpc_agent/job_migrate_out.go:72-92 | a ready row leaves only for Idle, and Idle is final |
| Lifecycle.MigrateOutNeverCompletes | internal/handler/db_task/task_migrate_out.go:35-47 | (Idle, Done) is never committed and no migrate-out task ever writes |
| Lifecycle.BackupIsForEver | internal/db/db_utils.go:18-27 | in every history, once the row has stage BackupDatabase every later row has it, and nothing follows a finished backup |
| Lifecycle.BackupIsReached | internal/handler/db_task/task_backup.go:58-63 | a run that commits (BackupDatabase, Done) |
| Lifecycle.SpuriousLossLeavesTheWalkIff | internal/db/db_api.go:132-137 | in any reachable state, if a current worker's first write is lost without a version mismatch, its final write is committed, and the history stays a walk if and only if the row already was what the first write would have made it |
| RowSuccessors.SuccessorIff | internal/db/db_utils.go:10-27 | after every run, the rows that some continuation commits next are exactly those of a literal table of stages and statuses |
| RowSuccessors.SuccessorByKindIff | internal/handler/db_task/task_wait_ready.go:25-31 | the same for each kind of worker: it can commit a row next exactly when the table of its kind says so |
| RowSuccessors.LoserStillWorks | internal/handler/db_task/task_create_user.go:48-52 | a worker that lost its first write goes on to its work and may finish, and what it writes is lost |
| CronQueue.CronServer.Send | pkg/server/cron_server.go:67-92 | the new timer goes in behind all due no later and ahead of all due later |
| CronQueue.CronServer.ProcessArrivedElements | pkg/server/cron_server.go:121-133 | the batch is the prefix due strictly before now, the rest stays, both in order |
| CronQueue.CronServer.NextTriggerAt | pkg/server/cron_server.go:98-106 | the earliest queued time, or an hour ahead |
| CronQueue.QueueStaysSorted | pkg/server/cron_server.go:79-91 | over every run the queue is sorted |
| CronQueue.TimersAreServedInOrder | pkg/server/cron_server.go:85-91 | timers due at the same time fire in the order they were sent |
| CronQueue.QueueRefinesBag | pkg/server/cron_server.go:121-133 | every run is a run of a bag of timers: fired plus queued is what was sent, and a tick fires exactly what is due |
| Sources.RetryDelayClosedForm | internal/interface/sourceApi/database_source.go:98-110 | the n-th delay is 2, 3, then 5 doubled up to 5120 |
| Sources.RetryDelaysAreMonotoneAndBounded | internal/interface/sourceApi/database_source.go:98-110 | delays never decrease and never pass 5120 |
| Sources.StepKeepsInv | internal/source/handler.go:59-282 | every handler call keeps every held scheduled source on its way to the handler or under a matching timer |
| Sources.EveryScheduledSourceIsWatched | internal/source/handler.go:221-242 | after every run, a held source in state Scheduling has an undelivered send or a queued timer for exactly its NextScheduleAt |
| Sources.NoWakeUpIsLost | internal/source/handler.go:232-239 | with no send undelivered and no timer due, no held scheduled source is past its time |
| SourceStates.EverySourceIsAccountedFor | internal/source/handler.go:59-282 | after every run, a held source that nothing is known of has an undelivered send, a scheduled one is watched, a ready or idle one is as it is to be, a dropped one is being removed, and none is failed; the others are pending or processing |
| SourceStates.UnreadablePasswordWaitsForNews | internal/source/handler.go:76-82 | a new source whose password cannot be read is left processing with no delivery and no timer |
| Sources.TimerActsIffStillCurrent | internal/source/handler.go:162-170 | a timer enqueues the source of its name exactly when that source still waits for this very time, and changes nothing else |
| SourceEffects.EventEffect | internal/source/handler.go:59-282 | in every reachable state every event does what the rows below say of it, by fields; a timer sends the source held under its name exactly if that waits for this time and, for an idle mark, is to be idle; a removal takes the name off exactly if its source still is dropped |
| SourceEffects.StatusEffect | internal/interface/sourceApi/database_source.go:112-148 | a notified status of the own instance brings the held source to its expected state with delay, retries and schedule cleared if it names that stage, drops a source to be idle and starts its removal on (DropDatabase, Done), and on failure of a source in processing schedules one retry more with a timer for exactly its time; every other status, and any of another instance or name, changes nothing |
| SourceEffects.HandleEffect | internal/source/handler.go:59-113 | a delivery takes in the status found, leaves alone a source that then is as it is to be, and otherwise leaves it processing if it is to be idle, has no readable password or was created, pending if the instance is offline, and scheduled with a timer if refused |
| SourceEffects.AddEffect | internal/source/handler.go:115-140 | a source is skipped exactly when one of its name is held with the same instance, migration and backup path; otherwise it is held, to be ready, and sent |
| SourceEffects.MarkIdleEffect | internal/source/handler.go:142-160 | a held source not yet to be idle is scheduled at now plus the delay with a timer for that time |
| SourceEffects.OnlineEffect | internal/source/handler.go:261-282 | only unsynced sources of the instance are touched; one that is pending after the status is scheduled for now and sent |
| SourceEffects.ScheduledSourcesHaveATimer | internal/source/handler.go:221-242 | after every run, a held scheduled source is on its way or has a retry timer for exactly its time, or an idle mark if it is to be idle |
| SourceEffects.DelayFollowsRetries | internal/interface/sourceApi/database_source.go:98-110 | after every run the delay of a source is 0, 2, 3, then 5 doubled up to 5120, by its number of retries |
| SourceEffects.DroppedWhileHandledStays | internal/source/handler.go:66-70 | in every reachable state, a source found dropped as it is handled is left processing, and its removal then leaves it held |
| SourceHandlers.DatabaseSource.UpdateState | internal/interface/sourceApi/database_source.go:112-148 | the source after a status, and whether it changed, as the machine has it; `SourceEffects.StatusEffect` says by fields what that is |
| SourceHandlers.DatabaseSource.NextRetryDelay | internal/interface/sourceApi/database_source.go:98-110 | the in-place delay follows the sequence of the closed form |
| SourceHandlers.DatabaseSource.ResetRetryDelay | internal/interface/sourceApi/database_source.go:91-96 | counters and schedule are cleared |
| SourceHandlers.BaseSourceHandler.Handle | internal/source/handler.go:59-113 | is the machine's step |
| SourceHandlers.BaseSourceHandler.AddDatabaseSource | internal/source/handler.go:115-140 | is the machine's step: an unchanged source is skipped, a changed one replaces the old |
| SourceHandlers.BaseSourceHandler.MarkDatabaseSourceIdle | internal/source/handler.go:142-160 | is the machine's step |
| SourceHandlers.BaseSourceHandler.Fire | internal/source/handler.go:162-170 | is the machine's step |
| SourceHandlers.BaseSourceHandler.RetryNextTime | internal/source/handler.go:221-242 | is the machine's step |
| SourceHandlers.BaseSourceHandler.UpdateDbStatus | internal/source/handler.go:182-193 | is the machine's step |
| SourceHandlers.BaseSourceHandler.OnDbStatusChanged | internal/source/handler.go:172-180 | is the machine's step |
| SourceHandlers.BaseSourceHandler.RemoveDatabaseSource | internal/source/handler.go:195-202 | is the machine's step |
| SourceHandlers.BaseSourceHandler.InstanceOnline | internal/source/handler.go:261-282 | is the machine's step, for one source of the loop |
| Consumer.StepKeepsInv | pkg/server/consumer.go:40-125 | every step keeps wait groups and semaphore in agreement with the goroutines they count, and loses or doubles no element |
| Consumer.ConcurrencyIsBounded | pkg/server/consumer.go:43-67 | in every interleaving at most MaxConcurrency elements are handled and one more waits for a slot |
| Consumer.BoundIsReached | pkg/server/consumer.go:43-67 | for every MaxConcurrency some run has that many elements handled at once |
| Consumer.FreeSlotIsUsed | pkg/server/consumer.go:43-67 | the waiting element can be given to a handler exactly while fewer than MaxConcurrency hold a slot |
| Consumer.ShutdownDrains | pkg/server/consumer.go:72-84 | when Shutdown returns, received and handled are the same multiset |
| Consumer.CarefulShutdownLosesNothing | pkg/server/consumer.go:102-125 | with no sender in the window when the flag is set, nothing crashes and every send was handled or refused |
| Consumer.CrashIffWindowOpen | pkg/server/consumer.go:104-106 | a send on the closed channel lies ahead of Close exactly when some sender is in the window |
| Consumer.RunsAreBounded | pkg/server/consumer.go:40-84 | without new calls only a bounded number of steps follows |
| Consumer.AtRestMeansDown | pkg/server/consumer.go:72-77 | a called Shutdown never hangs: at rest it has returned and everything sent was handled or refused |
| Delivery.StepKeepsOrder | internal/handler/grpc_server/db-instance.go:102-137 | with one serve loop at a time, delivered, slot, hands and channel, in this order, are what was sent |
| Delivery.DeliveryConservesAndOrders | internal/handler/grpc_server/db-instance.go:102-137 | over every run of sends, refusals, lost streams and registrations no job is lost, doubled or reordered |
| Delivery.SlotIsNeverOverwritten | internal/handler/grpc_server/db-instance.go:125-126 | the slot is empty whenever a refused job is put there |
| Delivery.SecondLoopMayLoseIff | internal/handler/grpc_server/svc_register.go:46-51 | from any state that one loop at a time leads to, a further registration makes the loss of a job possible if and only if a serve loop is still there |
| Delivery.OnlyDroppingLosesAJob | internal/handler/grpc_server/db-instance.go:103-126 | a single step, with any number of loops, keeps every job unless a loop overwrites, clears or gives up a slot that another loop has changed |
| Delivery.TwoLoopsLoseAJob | internal/handler/grpc_server/svc_register.go:46-51 | two registered streams that both refuse lose the first job |
| Delivery.DbInstance.SendJob | internal/handler/grpc_server/db-instance.go:135-137 | the job waits behind those already waiting |
| Delivery.DbInstance.ServeDbJob | internal/handler/grpc_server/db-instance.go:102-133 | a refused resend changes nothing; otherwise the slot is delivered first and then, for every sequence of turns, each accepted take moves the first of the line, a refused one leaves exactly its job in the slot, and with enough takes all who waited or came are delivered in order; and all this is Serve of the machine |
| Delivery.ServeIsARun | internal/handler/grpc_server/db-instance.go:102-133 | and that is a run of the machine, so the results above hold of it |
| Subscribers.DbStatusSubscriber.Subscribe | internal/handler/grpc_server/db_status_subscriber.go:14-18 | the new subscriber comes last |
| Subscribers.DbStatusSubscriber.NotifyStatusChanged | internal/handler/grpc_server/db_status_subscriber.go:39-46 | the index-decrementing loop calls each subscriber once, in order, and keeps exactly those that continue |
| Subscribers.DbStatusSubscriber.OnStatusChanged | internal/handler/grpc_server/db_status_subscriber.go:20-37 | only failures and final stages are passed on |
| Subscribers.DbStatusSubscriber.Call | internal/handler/grpc_server/db-instance.go:188-194 | what each kind of closure answers and starts |
| Subscribers.DbStatusSubscriber.MigrateOut | internal/handler/grpc_server/db-instance.go:177-207 | the callback runs at once when nothing is left to migrate, otherwise it is subscribed |
| Subscribers.FiresOnceAtItsFirstEnd | internal/handler/grpc_server/db-instance.go:188-194 | a watch is gone after the first notice that ends it, has fired once if that notice fires it, and never fires again |
| Subscribers.MigrateOutFiresAtMostOnce | internal/handler/grpc_server/db-instance.go:177-194 | over any events the callback has run once if the database was missing, not begun, (Idle, Done) or dropped at the call, or if (Idle, Done) of it was notified later, otherwise not at all |
| Subscribers.MigrateOutNeverCallsBack | internal/interface/grpcServerApi/db_manager.go:65-70 | as long as statuses report committed rows, a subscribed callback never runs |
| Subscribers.DbStatusSubscriber.Look | internal/handler/grpc_server/db-instance-manager.go:195-197 | ready at the first look is answered at once; otherwise the subscription is a step of its own |
| Subscribers.LookAnswers | internal/handler/grpc_server/db-instance-manager.go:195-197 | without a subscription the first look answers once if it finds (ReadyToUse, Done) and otherwise never, whatever follows |
| Subscribers.SourceIsAlwaysTold | internal/handler/grpc_server/db_status_subscriber.go:20-46 | over any events the source handler's closure stays subscribed and is called once for each failure and each finished ReadyToUse, Idle or DropDatabase |
| Subscribers.WaitReadyAnswers | internal/handler/grpc_server/db-instance-manager.go:199-213 | a waiter that has subscribed reports ready exactly when the ready status comes after that and before any notice that finds it timed out |
| Subscribers.MissedIff | internal/handler/grpc_server/db-instance-manager.go:195-201 | a ready status in time counted from the look goes unreported exactly when it came before the subscription and none came in time after |
| Subscribers.ResponseShows | internal/interface/grpcServerApi/db_manager.go:58-70 | the tests on names hold exactly of the stage and status meant |
| Auth.Validate | pkg/auth/auth_info.go:100-115 | authorised exactly when the side is enabled and holds the entry itself or what precedes its first colon |
| Auth.ValidateAll | pkg/auth/auth_info.go:117-129 | the unauthorised entries in order, and whether the side is enabled and there are none |
| Auth.SplitCategory | pkg/auth/auth_info.go:105-105 | the longest prefix without a colon |
| Auth.AuthInfo.RemoveScope | pkg/auth/auth_info.go:189-196 | the first occurrence goes |
| Auth.AuthInfo.RemoveResource | pkg/auth/auth_info.go:212-219 | the first occurrence goes |
| Auth.AuthInfo.Merge | pkg/auth/auth_info.go:161-173 | another subject is an error that changes nothing; otherwise each side is minimised by the other's enabled side |
| Auth.RemoveEachIsFilter | pkg/auth/auth_info.go:183-196 | removing the failing entries one first occurrence at a time leaves exactly the passing ones, in order, duplicates included |
| Auth.MinimizedIsFilter | pkg/auth/auth_info.go:175-181 | minimising is filtering by the other side's authorisation |
| Auth.MergeAuthorises | pkg/auth/auth_info.go:161-187 | exactly what a merged side authorises, from the two sides |
| Auth.MergeWithDisabled | pkg/auth/auth_info.go:166-171 | a disabled side restricts nothing as the other and grants nothing as the first |
| Auth.MergeIsSound | pkg/auth/auth_info.go:161-173 | what is left is authorised by the first and by every enabled other |
| Auth.MergeLosesExactly | pkg/auth/auth_info.go:175-196 | of what both authorise, the merge loses exactly what the first has by category only and the other by name only |
| Auth.MergeDependsOnOrder | pkg/auth/auth.go:39-41 | two infos that keep an entry merged one way lose it merged the other way |
| Auth.AuthMethods.WithAuth | pkg/auth/auth.go:21-24 | methods are tried in the order added |
| Auth.AuthMethods.Parse | pkg/auth/auth.go:26-49 | the fold in place gives the info, or the error, of the fold on values |
| Auth.ParseSucceedsIff | pkg/auth/auth.go:28-48 | parsing succeeds exactly when some method is enabled and all enabled ones succeed for one subject |
| Auth.ParseFailsWith | pkg/auth/auth.go:28-48 | the error is that of the first enabled method that fails or differs in subject from the first enabled one, or, with none enabled, that none succeeded |
| Auth.ParseKeepsEntries | pkg/auth/auth.go:39-41 | the fold keeps an entry exactly when every enabled grant authorises it |
| Auth.ParseAuthorises | pkg/auth/auth.go:26-47 | exactly what the combined info authorises |
| Auth.ParseIsSound | pkg/auth/auth.go:26-47 | what it authorises, every enabled method with that side enabled authorises by itself |
| Instances.DbInstanceManager.NewInstance | internal/handler/grpc_server/db-instance-manager.go:45-63 | an instance registers again only with its version; others are untouched |
| Instances.DbInstanceManager.FilterInstances | internal/handler/grpc_server/db-instance-manager.go:84-128 | for every order of walking the map: the named instance or nothing; else an active copy first if a candidate has one; else all candidates by descending version |
| Instances.DbInstanceManager.FirstMatchedInstance | internal/handler/grpc_server/db-instance-manager.go:76-82 | none exactly when every instance misses name, version or a database that must exist; otherwise one that does not, which, when no name is asked for, holds the database in use if any such does and else has the highest version |
| Instances.FirstIsBest | internal/handler/grpc_server/db-instance-manager.go:106-125 | no candidate beats the first: by active copy, then by version |
| Instances.WalksAgree | internal/handler/grpc_server/db-instance-manager.go:88-118 | two walks agree on emptiness, on having an active copy, on the version chosen, and on the whole set without one |
| Instances.SingleActiveCopyIsFound | internal/handler/grpc_server/db-instance-manager.go:106-116 | the only active copy is found by every walk |
| Instances.SortByVersion | internal/handler/grpc_server/db-instance-manager.go:120-125 | a permutation by descending version |
| BackupPaths.AcceptedPathStaysInPlace | internal/config/agent/db_config.go:168-185 | an accepted path is relative, cleans to plain components with the database second, and returns a version not above the current one |
| BackupPathLaws.AcceptedPathNeverClimbs | internal/config/agent/db_config.go:153-156 | at no point along an accepted path, as it was given, have there been more .. than names |
| BackupPathLaws.ClimbsIff | internal/config/agent/db_config.go:153-153 | a relative path cleans to one that starts with .. exactly if somewhere along it there have been more .. than names |
| BackupPathLaws.CleanClimbsBack | internal/config/agent/db_config.go:153-153 | a name and the .. behind it can be cut out anywhere behind a non-empty path |
| BackupPathLaws.CleanClimbsBackAtTheEnd | internal/config/agent/db_config.go:153-153 | and at the end of one |
| BackupPathLaws.CleanDropsDots | internal/config/agent/db_config.go:153-153 | empty components and dots can be cut out, in the middle and at the end |
| BackupPathLaws.CleanStopsAtTheRoot | internal/config/agent/db_config.go:153-153 | .. at the root can be cut out |
| BackupPathLaws.CleanLeavesCleanForms | internal/config/agent/db_config.go:153-153 | plain components, behind a run of .. if relative, are left as they are |
| BackupPathLaws.VersionIsReadIff | internal/config/agent/db_config.go:160-163 | a version is read exactly from an optional sign and at least one digit within 64 bits, and as the signed number |
| BackupPathLaws.DigitsArePrinted | internal/config/agent/db_config.go:160-164 | digits without a leading zero are what their number is printed as |
| BackupPathLaws.LeadingZero | internal/config/agent/db_config.go:160-160 | a zero in front changes no number |
| BackupPathLaws.CheckDecides | internal/config/agent/db_config.go:149-185 | on a path that cleans to pg-v/db/...: an unreadable v, then another name, then a higher version is the error, otherwise the version |
| BackupPathLaws.EveryPathIsDecided | internal/config/agent/db_config.go:153-159 | every path is of that form, or cleans to one component with the prefix and panics, or is illegal for lack of the prefix |
| BackupPaths.AcceptedVersionIsThePrintedOneIff | internal/config/agent/db_config.go:160-164 | of an accepted path, the version given back is the printed number iff that fits 32 bits, and the number is not above the current version iff it is below 2^31 |
| BackupPaths.HigherVersionIsRefusedIff | internal/config/agent/db_config.go:179-182 | a path printed with a higher version is refused iff its low 32 bits are above the current version too, as they are below 2^31 |
| BackupPaths.WrappedVersionIsAccepted | internal/config/agent/db_config.go:164-164 | the version 2^32 above the current one is accepted and taken for the current one |
| BackupPaths.WrappedPathIsAccepted | internal/config/agent/db_config.go:160-182 | on version 14, pg-4294967310/db/x.sql is accepted as of version 14 |
| BackupPaths.PanicsIff | internal/config/agent/db_config.go:153-159 | the check panics exactly on paths that clean to one component starting with pg- |
| BackupPaths.VersionAloneMakesItPanic | internal/config/agent/db_config.go:159-159 | pg-14 is such a path |
| BackupPaths.FreshPathRoundTrips | internal/config/agent/db_config.go:145-147 | a freshly printed path is accepted with the current version exactly when the name is one plain component |
| BackupPaths.BackupOfAnyIdRestores | pkg/validate/id.go:10-10 | so it is for every valid identifier |
| BackupPaths.CleanIsIdempotent | internal/config/agent/db_config.go:153-153 | cleaning twice is cleaning once |

## Left out

- Input and output: gRPC, HTTP, SQL, pg_dump and psql, file watching, TLS, token and certificate parsing, logging, configuration. Their results are nondeterministic.
- Blocking on channels of the job handler and of the timer server while a mutex is held: dispatch is a bag and queue operations are atomic.
- Consumer is a machine on values, not a class: its methods are interleaved between any two of their channel, flag and wait-group operations, which one Dafny method cannot be; what a WaitGroup does when Add from zero races with Wait is not modelled.
- Delivery treats the test of the slot and the read of it as one step, and callers blocked on the channel are served first come, first served.
- Done statuses absorb: a worker may only move a task forward. A second dispatch of a task, which is possible, would make its worker set it running again (internal/handler/db_task/task_create_user.go:28-30); such runs are outside. By `JobRepeats.DispatchedTwiceIff` no task with one dependency at most meets with this.
- Consumer.AtRestMeansDown and Consumer.CrashIffWindowOpen let every call of Handle return: a handler that never returns keeps its slot and Shutdown waits for it.
- JobOutcome.OutcomeIsTheClosure: assumes a worker never reports a cancelling task completed, which the code does not ensure; `JobCareless.OutcomeIsTheGraphsIff` says what becomes of the outcome otherwise.
- JobOutcome.RecoveryAgreesAfterAnyCrash and JobOutcome.RecoveryAgreesWithLiveRun: do not model a row write that failed, whose error is ignored (internal/handler/db_task/handler.go:103-103), so that the row lags behind the task in memory.
- JobDispatch.DispatchedExactlyOnce: says nothing of a task with several dependencies one of which failed; for those, how often one run dispatches the task depends on the order in which they end, and `JobRepeats.DispatchedTwiceIff` says when some run does so twice.
- cancelBy is not compared after recovery: which of several failed dependencies it names depends on the row order.
- Recovery is modelled for any job; that only jobs named by last_job_id are recovered is not.
- The live list is a copy of the task's dependency list; in the program the two share memory.
- Tasks.DbTask.Cancel: does not model the reason text or the row write, whose error the source ignores; the status in memory is what the engine reads.
- The compare-and-set on db_tasks rows.
- Lifecycle.DbTable.SetDbStatus: does not model the columns besides stage, status and updated_at; the stage guards read no others.
- Lifecycle.DbTable.UpdateDbStatus: does not model the notification sent after a write that matched.
- SourceHandlers.DatabaseSource.UpdateState: does not model UpdatedAt and LastErrorMsg, which nothing here reads.
- SourceHandlers.BaseSourceHandler.Handle: does not model the returned error, LastScheduledAt and LastErrorMsg.
- SourceHandlers.BaseSourceHandler.AddDatabaseSource: does not model the validation before it and its error.
- The daily backup action, which writes no row of `dbs`.
- Lifecycle: every successful write is assumed to give the row an updated_at never used before, and a write to fail only on a mismatch.
- Sources: handler calls are atomic although Handle runs without the lock; a replaced source is a new object, and new sources come without an expected state, as both builders make them.
- The password file is one nondeterministic answer.
- Duplicate suppression in Database.Update, and the instance-status subscribers (the same loop as NotifyStatusChanged).
- Parsing of claims and DNS names; an auth method is a source of non-nil infos, which the certificate method is not.
- Auth.Validate and Auth.ValidateAll stand for the scope and the resource versions alike.
- BackupPaths models filepath.Clean and strconv.Atoi (64 bits) by definitions of its own; the clock's text is any string without a slash.
- Key cache, reconnect backoff and the small validators: easy members.
