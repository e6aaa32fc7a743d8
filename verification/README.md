# A verified model of the distributed task platform

The platform is a work queue: a task table with a single mutation point for the status, leases held by
workers, attempt rows, a transactional outbox that feeds an at-least-once broker, four coordinator sweeps,
and a dependency graph whose tasks wait as `created` until their parents succeed.  Webhook deliveries are
queued with every status change, tasks are cancelled in batches, old rows are purged, and a sliding-window
rate limiter guards the API.  Each piece is simple; the guarantees exist only across all of them.

The project models the platform twice and connects the two.

* `class Platform` (`Platform.dfy`), `LocalRateLimiter`, `RedisServer` and `RateLimiter` (`RateLimit.dfy`) are
  imperative: they own the tables, assign columns and run the loops of the services.  Every method of
  `Platform` is proved equal to a step, or to a sequence of steps, of the protocol.
* The protocol (`Rows`, `Store`, `Protocol`) is a state machine: one step per committed transaction, broker
  event, worker fault or clock tick.  `Steps` tells what a step does to each row without running the step and
  proves the invariant of the database; the other modules prove what holds over whole runs.

| file | subject |
|---|---|
| `Rows.dfy` | one task row with its attempts and its log; status machine; invariant of a row |
| `Store.dfy`, `Cascade.dfy` | the database state, `set_status`, and the cascade it triggers, told without an order |
| `Dependencies.dfy` | the cycle check and acyclicity |
| `Protocol.dfy`, `Steps.dfy` | steps, runs, and the invariant every step keeps |
| `History.dfy`, `Timing.dfy`, `Ageing.dfy` | the origin of every status; when sweeps and retention act, told from the run |
| `Workers.dfy`, `Budget.dfy` | who may execute, lease timing, how often a task can run |
| `Delivery.dfy`, `Reconcile.dfy` | no lost work; how the orphan sweep repairs losses |
| `Draining.dfy`, `Retention.dfy` | the due sweep, garbage collection |
| `Gate.dfy`, `Registration.dfy` | the dependency gate, over remaining and over registered parents |
| `Liveness.dfy`, `Schedules.dfy` | which tasks can still finish; what `schedule_at` promises |
| `Webhooks.dfy`, `Dispatching.dfy` | which deliveries are queued; what becomes of them |
| `Batches.dfy` | batch cancellation under cascade, progress |
| `Selection.dfy`, `Sweeps.dfy`, `Platform.dfy` | the services as loops, refined to protocol steps |
| `RateLimit.dfy`, `Fallback.dfy` | the limiter, its script and several replicas; when they ask the shared limiter |
| `Examples.dfy` | reachable states that show the surprises below |

`dafny verify dfyconfig.toml` checks everything.

## Assumptions

* Isolation: a committed transaction is one atomic step.  `handle_message` is two of them (take the lease and
  start; record the outcome), and between them the worker keeps a stale snapshot of its task, which the model
  carries explicitly.  A sweep is one transaction, hence a sequence of steps at one instant.
* Time is a real number and there is one clock, for the database, the workers and both rate limiters.
* Faults are steps: messages are lost or delivered again, workers die, the relay fails to publish, fails to
  commit, or dies after publishing, and the webhook dispatcher dies after sending.  Task handlers, the
  broker's answers and webhook receivers are parameters.
* "By the platform's own steps" means the clock, the relay, workers that succeed, and the four sweeps: no
  failure, no user and no retention.
* A selection with `ORDER BY ... LIMIT` is `Selection.Select`; rows with equal keys, and rows listed without an
  order, come in any order.
* `updated_at` is written whenever a row is updated; deleting a task takes its attempts, events and edges with
  it, as the foreign keys say.

## What the code does that one might not expect

Each point has its exact condition as a theorem and a reachable example as a lemma of `Examples`.

* `register_dependencies` accepts parents in any status.  A dependent whose parents have all succeeded already,
  one that also waits for a task that failed for good, and any dependent of such a dependent can never succeed
  by the platform's own steps.  `Liveness.RegistrationHonoured` gives the exact condition, to be checked before
  the call: every parent is promising and not all have succeeded (`NeverFreed`, `BehindFailure`).
* Retention can open the gate.  When `purge_old_data` deletes a failed parent, its edge goes too, and a task
  that waited for it is freed by its remaining parents.  A freed task had only successful registered parents
  exactly unless that happened (`Registration.DependencyGate`; `PurgeOpensGate`).
* `manual_retry` looks at the status only.  A dependent that was cancelled and is retried by hand runs whatever
  its parents do; every other task that was ever started went through the gate (`Registration.StartGate`;
  `RetriedPastItsParent`).
* `requeue_orphaned_queued_tasks` leaves the tasks it republishes as they are.  With more orphans than its
  limit it moves on only as workers take its messages (`Reconcile.LossIsRepairedInRounds`); until then every
  sweep republishes the same tasks (`Reconcile.SweepsRepeat`; `SweptAgainAndAgain`).
* `_still_running` looks only at the status, so a worker whose lease was taken away can still complete a task
  that another worker has restarted.  `Workers` states exclusion through fencing, not through ownership, and
  the attempt budget counts recoveries (`Workers.ReportTakesEffect`; `StaleWorkerCompletes`).
* `cancel_batch` says it cancels the unfinished tasks and returns conflicts; a task that an earlier iteration's
  cascade has just cancelled is counted as a conflict (`Batches.ConflictOfCancelled`; `CancelledYetConflict`).
* `purge_old_data` selects finished tasks without looking at the status, so its first selection also deletes a
  dead letter that still has a retry ahead (`Retention.RevivablePurged`; `PurgedBeforeRetry`).
* Dead-lettering a task cancels the dependents waiting behind it at once, exactly those that any failure would
  cancel, even if the task comes back later (`Cascade.FailureCascade`; `DeadLetterCancels`).
* `record_failure` plans the return of a dead letter on the worker's snapshot, the sweep looks at the row.  A
  worker that lost its lease can plan a return that never comes.  A dead letter comes back exactly if its row
  has a cycle left (`Timing.ReturnsExactlyAfterInterval`; `PlannedInVain`).
* `schedule_at` does not hold back a task with dependencies: when it is freed it is queued at once
  (`Schedules.QueuedEarlyExactlyWhenFreed`; `QueuedBeforeItsTime`).  Without dependencies it holds
  (`Schedules.NeverQueuedEarly`).

## Model

| member | source | states |
|---|---|---|
| Rows.RetryDelayGrows | backend/app/services/tasks.py:47-50 | the backoff never shrinks from attempt to attempt and stays between the base and the maximum |
| Rows.RetryDelayMultiplies | backend/app/services/tasks.py:47-50 | the first delay is the base and each next one the factor times the previous one, until the maximum is reached and kept |
| Rows.LeaseFreeTold | backend/app/worker/services/attempts.py:42-54 | a lease is in force exactly if somebody holds it and it has not expired |
| Rows.StatusesTold | backend/app/services/tasks.py:30-32 | cancelable is what can become cancelled, retryable what is terminal and can be queued, terminal what cannot be cancelled |
| Rows.TransitionsHappen | backend/app/services/tasks.py:19-28 | the table of transitions lists exactly the moves that rows make |
| Rows.ChangedKeepsRow | backend/app/services/tasks.py:71-99 | every change of a row keeps lease, finish and schedule columns tied to the status, attempt numbering, the replaying log and the counters |
| Rows.RecoveryClosesCurrentAttempt | backend/app/worker/services/scheduler.py:222-235 | lease recovery always finds the attempt numbered `attempts` and fails that one, whatever older rows say |
| Cascade.FailureCascade | backend/app/services/dependencies.py:97-150 | a failing terminal status cancels exactly the created tasks reachable over created tasks, each once, changes no other row, and queues one delivery per matching subscription and status written |
| Cascade.SuccessCascade | backend/app/services/dependencies.py:97-131 | a success frees exactly the created children all of whose parents have then succeeded, each with exactly one outbox row |
| Cascade.GateMeaning | backend/app/services/dependencies.py:77-94 | the test on the set of parent statuses holds exactly if no existing parent is in another status than success and, where there are edges, some parent exists |
| Dependencies.EnsureNoCycle | backend/app/services/dependencies.py:39-62 | the worklist loop ends on any graph and refuses exactly if the task is one of the given parents or of their ancestors |
| Dependencies.RegistrationAcyclic | backend/app/services/dependencies.py:19-36 | adding the edges to an acyclic graph keeps it acyclic exactly if the check accepts |
| Steps.StepFollows | backend/app/services/tasks.py:71-113 | every step changes every surviving row exactly as told by a description of the change that does not run the step |
| Steps.RunKeepsInv | backend/app/services/tasks.py:53-113 | every run keeps the invariant of rows, graph, outbox and workers' snapshots |
| Steps.EveryReachableRow | backend/app/worker/services/attempts.py:36-102 | lease exactly while running, finished exactly in terminal statuses, attempts numbered 1..attempts with the newest open while running, log replays from created to the status by valid transitions |
| Steps.EveryReachableOutboxRow | backend/app/services/outbox.py:67-74 | an outbox row is dated exactly if it is sent |
| History.EveryStatusHasItsOrigin | backend/app/services/tasks.py:71-98 | in every run each task got its present status from exactly one step, which explains it: who may give it, on what condition (attempts left, cycles left, schedule ahead), and the dates written with it |
| History.EveryEventFits | backend/app/services/tasks.py:53-68 | in every run each log entry has the kind that its transition calls for |
| History.StartedWhenFirstBegun | backend/app/services/tasks.py:88-89 | in every run the start date of a task is the clock of the step that first started it |
| History.EveryTaskIsAsRequested | backend/app/services/tasks.py:130-140 | in every run each task has the batch and the maximal attempts that its creation asked for |
| Workers.UnfencedIsCurrent | backend/app/worker/services/attempts.py:30-171 | over any run, an attempt in flight that was not recovered, cancelled or overtaken is the current attempt of a running task whose lease its worker holds |
| Workers.AtMostOneUnfenced | backend/app/worker/services/attempts.py:36-60 | no two such attempts of one task are ever in flight |
| Workers.ReportTakesEffect | backend/app/worker/services/attempts.py:105-171 | a report changes the status exactly if the task still runs: to success, to failed, or by its attempt number to a retry or to dead letter; and always closes its own attempt row, and no other, with its clock |
| Workers.UnfencedReportIsRecorded | backend/app/worker/main.py:77-102 | the report of an unfenced attempt always takes effect, as that of attempt number `attempts` |
| Workers.OneWorkerPerTask | backend/app/worker/main.py:51-108 | without recovery and without cancelling a running task, at most one worker runs a task |
| Workers.RecoveredExactlyWhenSilent | backend/app/worker/services/scheduler.py:208-221 | at any step of any run the recovery sweep takes a task back exactly if it is running and no worker took or renewed its lease within the lease time before that step; otherwise it changes nothing |
| Workers.StuckExactlyWhenSilent | backend/app/worker/services/scheduler.py:208-221 | the same for being selected, at every moment |
| Workers.PromptIsNeverRecovered | backend/app/worker/services/attempts.py:63-76 | in a run in which a task, whenever it runs, was heard of within the lease time, no recovery of it takes effect |
| Workers.PromptWorkersAreAlone | backend/app/worker/services/attempts.py:63-76 | in a run in which that holds for every task, and no running task is cancelled, at most one worker runs a task |
| Budget.AttemptBudget | backend/app/worker/services/attempts.py:139-170 | attempts never exceed max_attempts (at least one) plus dead-letter cycles, manual retries and lease recoveries, even with stale workers; cycles never exceed their maximum |
| Budget.ChangeUsesUp | backend/app/services/tasks.py:19-28 | every status change without recovery or manual retry strictly uses up a measure of what remains |
| Budget.ComesToRest | backend/app/worker/services/scheduler.py:142-169 | as long as no lease is recovered and nothing retried by hand, the status changes of a task are bounded linearly in max_attempts and the maximal cycles, and a task that has used them up is terminal |
| Delivery.StepBooks | backend/app/services/tasks.py:155-166 | each entry into queued adds exactly one outbox row, and only an orphan republication adds one without an entry |
| Delivery.QueuedIsTaken | backend/app/worker/main.py:56-72 | the message of a queued task is never acknowledged in vain |
| Delivery.NoLostWork | backend/app/services/outbox.py:41-77 | without message loss, runs with crashes, failed commits and redeliveries keep a pending row or an undelivered message for every queued task |
| Delivery.NoLostWorkFromStart | backend/app/worker/main.py:56-63 | the same for every state reachable from the empty platform without message loss |
| Ageing.OutboxTellsTheRelay | backend/app/services/outbox.py:63-76 | in every run an outbox row is sent exactly if some step published it, dated with the clock of that step, and its attempts are the tries whose outcome was recorded |
| Ageing.PendingExactlyUntilPublished | backend/app/services/outbox.py:43-49 | the relay finds a row pending exactly until some step published it |
| Delivery.SweepAnnounces | backend/app/worker/services/scheduler.py:26-70 | an orphan sweep announces what it selects and loses nothing; with room for all orphans only tasks that are not stale stay lost |
| Reconcile.LossIsRepaired | backend/app/worker/services/scheduler.py:34-54 | whatever a run lost: once no message has been lost for the reconcile time, while anything else may have happened, one sweep with room for all orphans restores a row or message for every queued task |
| Reconcile.LossIsRepairedInRounds | backend/app/worker/services/scheduler.py:34-66 | the same with any limit: as workers take a message of each swept task before the next sweep, the sweeps repair every loss once together they had room for the orphans at the start |
| Reconcile.SweepsRepeat | backend/app/worker/services/scheduler.py:34-66 | a sweep does not write the tasks it selects, so as long as no worker takes a message every sweep selects the same stalest tasks again, and what was lost beyond them stays lost |
| Timing.OrphanExactlyWhenQueuedLong | backend/app/worker/services/scheduler.py:34-54 | at any moment of any run a task is an orphan exactly if it has been queued without a break for the reconcile time |
| Draining.NotBeforeItsTime | backend/app/worker/services/scheduler.py:86-99 | no run that ends before the time of a waiting task releases it, unless it is retried by hand |
| Timing.ReleasedExactlyWhenDue | backend/app/worker/services/scheduler.py:86-128 | at any step of any run the due sweep releases a task exactly if the time it was created with has come, or the delay after its failed attempt has passed; otherwise it changes nothing |
| Timing.ReturnsExactlyAfterInterval | backend/app/worker/services/scheduler.py:131-189 | at any step of any run the dead-letter sweep takes a task back exactly if returns are enabled, it has been a dead letter for the interval, and its row has a cycle left; otherwise it changes nothing |
| Timing.DeadDueExactly | backend/app/worker/services/scheduler.py:142-157 | the same for being selected, at every moment |
| Timing.StaysDead | backend/app/worker/services/attempts.py:155-170 | manual retries apart, a task given up at T stays a dead letter until T plus the interval, and for ever if returns are disabled or its row had no cycle left |
| Timing.NoCycleKnown | backend/app/worker/services/attempts.py:163-170 | a worker that gives a task up and knows of no cycle left is right about the row |
| Timing.DueFirst | backend/app/worker/services/scheduler.py:92-99 | the due sweep takes the earliest times first |
| Timing.DeadDueFirst | backend/app/worker/services/scheduler.py:145-157 | the dead-letter sweep takes the earliest planned returns first |
| Timing.StuckFirst | backend/app/worker/services/scheduler.py:208-221 | the recovery sweep takes the leases first that lapsed first |
| Draining.TickReleases | backend/app/worker/services/scheduler.py:89-123 | one tick releases exactly the selected earliest due tasks and leaves the others due |
| Draining.TicksDrain | backend/app/worker/services/scheduler.py:86-128 | ticks at one instant: each takes its limit off what is due, and they drain n due tasks exactly if together they have room for n |
| Draining.DueTasksDrain | backend/app/worker/services/scheduler.py:86-128 | with positive delays and anything happening in between, the sweeps of a run take the tasks due at its start off the waiting list, limit by limit, and once they had room for all of them none is left |
| Retention.PurgedIsRun | backend/app/worker/services/scheduler.py:289-343 | the deletion statements of a purge are a run of single deletions |
| Retention.RetentionIsSafe | backend/app/worker/services/scheduler.py:297-333 | a purge of any reachable state deletes only terminal tasks, and leaves every other task and every edge between two remaining tasks as it was |
| Retention.OnlySentRowsGo | backend/app/worker/services/scheduler.py:334-343 | a purge of any reachable state deletes only sent outbox rows that are old enough, and leaves the others as they were |
| Ageing.PurgeTakesTheOldest | backend/app/worker/services/scheduler.py:296-333 | at any moment of any run a purge deletes exactly the first `limit` tasks by id that finished, by the clock of the step that finished them, at least their retention ago, and of the dead letters left without a planned return the first `limit` given up at least theirs ago |
| Ageing.DeletedOnlyWhenOld | backend/app/worker/services/scheduler.py:296-333 | no step of any run deletes a task before the retention that applies to it has passed since the step that finished it |
| Ageing.PurgeTakesPublishedRows | backend/app/worker/services/scheduler.py:334-343 | at any moment of any run a purge deletes exactly the first `limit` outbox rows by id that were published at least their retention ago |
| Retention.PurgeIsBounded | backend/app/worker/services/scheduler.py:294-342 | at most `limit` rows per selection |
| Retention.RevivablePurged | backend/app/worker/services/scheduler.py:299-333 | a purge deletes a dead letter with a retry ahead exactly if the retention of finished tasks has run out for it and for fewer than `limit` tasks with smaller ids |
| Retention.WaitingSurvivesRetention | backend/app/worker/services/scheduler.py:289-333 | as long as purges spare such dead letters, a dependent with a reason to wait keeps one however many of its finished parents are deleted |
| Gate.RemainingParentsSucceeded | backend/app/services/dependencies.py:77-131 | in every reachable state those parents of a freed task that were not deleted have succeeded |
| Registration.DependencyGate | backend/app/services/dependencies.py:97-131 | in every run a freed task had only successful registered parents, exactly unless a purge deleted an unsuccessful one while it was waiting |
| Registration.RefusedExactlyWhenUnknown | backend/app/services/dependencies.py:19-36 | in every reachable state a creation is refused exactly if some parent does not exist: a new task can never close a cycle |
| Registration.StartGate | backend/app/services/tasks.py:286-313 | the same for every task that was ever started and never retried by hand |
| Gate.RegistrationDecides | backend/app/services/dependencies.py:19-36 | in any continuation without deletions a dependent that is still created has all parents successful exactly if it had them so at the start |
| Gate.ReasonIsKept | backend/app/services/dependencies.py:97-110 | a created dependent with some parent on its way and none failed keeps such a parent as long as it is created |
| Liveness.CanFinishExactlyWhenPromising | backend/app/worker/services/scheduler.py:26-265 | in every reachable state a task can still succeed by the platform's own steps exactly if it is promising: successful, on its way, or blocked with an unsuccessful parent and only promising ones |
| Liveness.EveryTaskCanFinish | backend/app/services/dependencies.py:39-110 | no dead end: with dependents registered on promising parents and no deletion, every unfinished task of every reachable state can still succeed |
| Liveness.DoneIsNeverFreed | backend/app/services/dependencies.py:97-110 | a dependent registered on parents that had all succeeded stays created through every continuation that neither deletes tasks nor cancels it |
| Liveness.RegistrationHonoured | backend/app/services/tasks.py:144-150 | a newly registered dependent can ever succeed by the platform's own steps exactly if its parents were all promising and not all successful |
| Schedules.QueuedEarlyExactlyWhenFreed | backend/app/services/tasks.py:144-155 | a task created with a future time has been queued before it, retries by hand apart, exactly if it was freed as a dependent |
| Schedules.NeverQueuedEarly | backend/app/services/tasks.py:144-155 | a task created without dependencies and with a future time is never queued before it, retries by hand apart |
| Webhooks.ToldExactlyTheLog | backend/app/services/webhooks.py:54-85 | in every run, while subscriptions appear, are switched and edited, a subscription is queued exactly the status changes entered in a task's log that it asked for at that moment, in order, one delivery each, cascades included |
| Webhooks.ToldWhileUnchanged | backend/app/services/webhooks.py:54-85 | an unchanged subscription has been told exactly the log of every remaining task |
| Webhooks.SentAtMost | backend/app/services/webhooks.py:115-164 | a delivery is sent at most webhook_max_attempts times (once if that is zero) plus the sendings whose transaction was lost, and between recorded failures the doubling backoff adds up |
| Webhooks.SettledForEver | backend/app/services/webhooks.py:129-157 | a delivery recorded as sent or given up is never sent or changed again |
| Dispatching.EveryDeliveryIsTold | backend/app/services/webhooks.py:129-157 | in every run a delivery is sent exactly if a receiver accepted it, given up exactly if it was dropped for want of an active subscription or refused as often as allowed, its attempts are its refusals, and while it is pending it waits for the doubling backoff; only committed answers count |
| Dispatching.DispatchedExactlyWhenDue | backend/app/services/webhooks.py:115-129 | the dispatcher selects a delivery exactly if it was neither accepted, dropped nor refused too often and its backoff is over |
| Batches.CancelAll | backend/app/services/tasks.py:316-323 | cancelling a list of tasks one by one cancels exactly those that could be cancelled at the start and were listed or waited behind a listed one, in whatever order; and says which single cancellations take effect |
| Batches.BatchIsCancelled | backend/app/services/batches.py:130-146 | afterwards no task of the batch is cancelable, all that were are cancelled, the others unchanged, and outside only created dependents of the batch changed |
| Batches.BatchIsTerminal | backend/app/services/batches.py:130-146 | in every reachable state each task of the batch is terminal afterwards: as it was if it was terminal before, else cancelled |
| Batches.BatchExactly | backend/app/services/batches.py:130-138 | the tasks of a batch are exactly those that exist and were created for it |
| Batches.CancelTakesEffect | backend/app/services/tasks.py:316-323 | in every reachable state a cancellation takes effect exactly if the task is not terminal |
| Batches.ConflictOfCancelled | backend/app/services/batches.py:140-145 | a cancelable task is reported as a conflict exactly if it waited behind a batch task cancelled before it |
| Batches.CancelledMeans | backend/app/services/batches.py:138-146 | cancelled is the number of tasks that could be cancelled at the start and that no earlier cancellation reaches, and the rest of the batch are the conflicts |
| Batches.ProgressPartitions | backend/app/services/batches.py:66-88 | the progress buckets partition the batch, dead letters count as pending, and completed equals total exactly if every task succeeded, failed, timed out or was cancelled |
| Selection.Select | backend/app/worker/services/scheduler.py:92-99 | the first `limit` candidates in the order of the key |
| PlatformService.Platform.WriteStatus | backend/app/services/tasks.py:86-98 | the columns written with a status |
| PlatformService.Platform.SetStatus | backend/app/services/tasks.py:71-113 | the whole state after the mutation point with its recursive cascade, and when a transition is refused |
| PlatformService.Platform.AdvanceChildren | backend/app/services/dependencies.py:97-110 | the loop over the children |
| PlatformService.Platform.HaveAllParentsSucceeded | backend/app/services/dependencies.py:77-94 | the set of parent statuses is exactly success |
| PlatformService.Platform.RegisterDependencies | backend/app/services/dependencies.py:19-36 | accepts exactly known parents without self reference or cycle, and adds exactly their edges once each |
| PlatformService.Platform.CreateTask | backend/app/services/tasks.py:116-167 | the whole state after a creation; nothing remains of a refused one |
| PlatformService.Platform.ManualRetry | backend/app/services/tasks.py:286-313 | a retryable task is queued with one outbox row; anything else changes nothing |
| PlatformService.Platform.CancelOne | backend/app/services/tasks.py:316-323 | a cancelable task is cancelled with its cascade; anything else changes nothing |
| PlatformService.Platform.TryAcquireLease | backend/app/worker/services/attempts.py:36-60 | the lease is granted exactly on a queued task whose lease is free or lapsed |
| PlatformService.Platform.RenewLease | backend/app/worker/services/attempts.py:63-76 | only the owner of a running task renews, for the lease time from now |
| PlatformService.Platform.StartAttempt | backend/app/worker/services/attempts.py:79-102 | running, with one more attempt row and its two events |
| PlatformService.Platform.BeginAttempt | backend/app/worker/main.py:54-72 | the first transaction of a worker, or an acknowledgement and nothing else |
| PlatformService.Platform.RecordSuccess | backend/app/worker/services/attempts.py:105-119 | the attempt is closed, and the task succeeds if it still runs |
| PlatformService.Platform.RecordFailure | backend/app/worker/services/attempts.py:123-170 | the attempt is closed, and a running task is rescheduled, dead-lettered or failed on the worker's snapshot |
| PlatformService.Platform.FinishAttempt | backend/app/worker/main.py:77-102 | the second transaction of a worker |
| PlatformService.Platform.RequeueDueTasks | backend/app/worker/services/scheduler.py:86-128 | releases the `limit` earliest due tasks, and nothing else |
| PlatformService.Platform.RequeueDeadLetters | backend/app/worker/services/scheduler.py:131-189 | the same for dead letters with cycles left; nothing when disabled |
| PlatformService.Platform.RecoverStuckTasks | backend/app/worker/services/scheduler.py:208-265 | the same for lapsed leases |
| PlatformService.Platform.FindRunningAttempt | backend/app/worker/services/scheduler.py:224-231 | the highest numbered attempt still running, or none |
| PlatformService.Platform.RequeueOrphans | backend/app/worker/services/scheduler.py:26-70 | one outbox row for each of the `limit` stalest orphans |
| PlatformService.Platform.PurgeOldData | backend/app/worker/services/scheduler.py:289-343 | three deletions of at most `limit` rows, in order, each on what the previous one left |
| PlatformService.Platform.PublishPending | backend/app/services/outbox.py:41-77 | the `limit` oldest pending rows are published one by one, and marked only if the transaction commits |
| PlatformService.Platform.EnqueueFor | backend/app/services/webhooks.py:54-85 | one pending delivery per matching active subscription |
| PlatformService.Platform.DispatchOne | backend/app/services/webhooks.py:133-157 | the outcome of one delivery |
| PlatformService.Platform.DispatchDue | backend/app/services/webhooks.py:115-160 | the `limit` oldest due deliveries are dispatched one by one, and recorded only if the transaction commits |
| PlatformService.Platform.CreateBatch | backend/app/services/batches.py:21-51 | all tasks of the batch, in order, or nothing at all |
| PlatformService.Platform.CancelBatch | backend/app/services/batches.py:130-146 | every task of the batch is cancelled once, in any order; the count and the conflicts are those of the single cancellations |
| PlatformService.Platform.GetProgress | backend/app/services/batches.py:58-88 | a partition of the batch |
| RateLimit.WindowBound | backend/app/core/rate_limit.py:44-52 | no interval of the window's length holds more than `max` admissions |
| RateLimit.RefusedExactlyWhenFull | backend/app/core/rate_limit.py:49-52 | a request is refused exactly if the last window holds `max` admissions |
| RateLimit.DecideSound | backend/app/core/rate_limit.py:43-52 | deciding on the pruned list is deciding on the full history of admissions |
| RateLimit.LocalRateLimiter.Allow | backend/app/core/rate_limit.py:43-52 | the in-process limiter decides like the full history |
| RateLimit.LocalRateLimiter.Reset | backend/app/core/rate_limit.py:54-59 | forgetting one key, or all of them |
| RateLimit.RedisServer.Eval | backend/app/core/rate_limit.py:18-31 | the script decides like the full history, although keys expire |
| RateLimit.RateLimiter.AskRedis | backend/app/core/rate_limit.py:70-96 | no answer during the 30 seconds after a failure; otherwise the answer of the script, or a failure noted |
| RateLimit.RateLimiter.Allow | backend/app/core/rate_limit.py:111-116 | the answer of the shared server if there is one, the local one otherwise |
| RateLimit.FallbackBound | backend/app/core/rate_limit.py:102-116 | n replicas, each with one failure time for all keys, let at most (n + 1) * max requests of one key through in any window, whatever the shared server does and whatever is asked for other keys |
| RateLimit.SharedBound | backend/app/core/rate_limit.py:76-91 | while the shared server answers, all replicas together keep the limit of one |
| Fallback.AsksExactlyUnlessSilenced | backend/app/core/rate_limit.py:70-91 | every call of a replica is decided by the shared list if it is answered, exactly unless an earlier call of that replica failed at most 30 seconds before; then it leaves the shared list alone and the replica's own list decides |
| Fallback.SharedBoundAfterFailures | backend/app/core/rate_limit.py:70-91 | if every call since 30 seconds before a window is answered, all replicas together keep the limit of one in that window, whatever failed before |
| Examples.NeverFreed | backend/app/services/dependencies.py:19-36 | reachable: a dependent of a successful task and a dependent of that dependent, neither of which can ever succeed |
| Examples.BehindFailure | backend/app/services/dependencies.py:19-36 | reachable: a dependent of a failed and a running task that can never succeed |
| Examples.PurgeOpensGate | backend/app/worker/services/scheduler.py:299-313 | reachable: a task queued although a parent it was registered with failed, after a purge deleted that parent |
| Examples.StaleWorkerCompletes | backend/app/worker/services/attempts.py:30-33 | reachable: two workers run one task, and the one that lost the lease completes it |
| Examples.CancelledYetConflict | backend/app/services/batches.py:140-145 | reachable: a batch task that is cancelled and reported as a conflict |
| Examples.DeadLetterCancels | backend/app/worker/services/attempts.py:155-168 | reachable: a dead letter with a retry ahead that can still succeed, and its dependent cancelled |
| Examples.PlannedInVain | backend/app/worker/services/attempts.py:160-168 | reachable: a worker with a cycle left in its snapshot plans a return that no sweep makes, because the row has none left |
| Examples.PurgedBeforeRetry | backend/app/worker/services/scheduler.py:299-311 | reachable: a dead letter with a retry ahead that every purge with a positive limit deletes |
| Examples.QueuedBeforeItsTime | backend/app/services/tasks.py:144-150 | reachable: a task queued before the time it was created with |
| Examples.RetriedPastItsParent | backend/app/services/tasks.py:286-313 | reachable: a dependent that runs while its parent still runs, after it was cancelled and retried by hand |
| Examples.SweptAgainAndAgain | backend/app/worker/services/scheduler.py:34-66 | reachable: two lost tasks of which sweeps with a limit of one announce only the older for ever, as long as no worker takes a message |

## Left out

- Budget.ComesToRest: does not say that enabled steps are eventually taken, which is scheduling and not part of the code.
- Reconcile.LossIsRepairedInRounds: assumes that workers take what a sweep publishes before the next one; `Reconcile.SweepsRepeat` shows that the code needs it.
- Liveness.CanFinishExactlyWhenPromising: says that success stays reachable, not that it is reached, because handlers may fail and workers may die for ever; retention does not count as one of the platform's own steps.
- RateLimit.FallbackBound: assumes that the shared server keeps its data and that no replica restarts or is reset during the window.
- Webhooks.ToldExactlyTheLog: does not model deleting a subscription, which deletes its deliveries; to the others that looks like switching it off.
- Transactions that interleave below the level of a commit: the code relies on the database here.
- Several tasks of one purge, sweep or batch transaction failing in the middle: the transaction is then rolled back as a whole.
- `bulk_create`, `bulk_retry` and `bulk_cancel`: loops over single operations; `Batches.CancelAll` covers any list of cancellations.
- Idempotency keys, payloads, task handlers, priorities, error texts and metadata of events.
- Worker heartbeats, metrics, live events, statistics, listing and search, authentication and the audit log with its retention.
- Signing and encoding of webhook bodies, HTTP, SQL, AMQP and Redis plumbing; random member names in the sorted set are taken to be distinct.
- Fractional milliseconds in the time to live of a rate limiter key, and rounding of floating-point times.
- A negative `max_attempts`, limit or retention counter.
