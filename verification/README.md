# SignalFlow: a verified model of the scheduler

SignalFlow is a cron scheduler that runs as any number of replicas over one PostgreSQL database.
This project models its concurrent core and proves what holds of every run of it:

* the claiming transaction (`FOR UPDATE SKIP LOCKED`), the bounded claims channel, the worker pool,
  shedding, the two-phase shutdown, crashes and the recovery of stale rows at start-up;
* the job row, which the service and the workers overwrite as a whole from snapshots read earlier;
* the notification dispatcher and its WaitGroup.

## How it is built

| files | content |
|---|---|
| `Domain`, `Tables`, `Service` | entities, the effect of each SQL statement, what the service computes between a read and a write |
| `Claiming` | what the claiming query returns; bounded waiting |
| `Replica`, `System` | one process as a state machine, and the whole deployment (database, replicas, service requests, clock, crashes) as one transition system |
| `ReplicaInvariants`, `Ownership`, `JobRows`, `Notifications`, `Invariant` | the inductive invariant, preserved by every step and lifted to runs |
| `Answers` | the answers of the database that a process relies on, with the earlier state that gave them |
| `Guarantees`, `Provenance`, `Outcomes`, `Announcements`, `Drain`, `CommittedClaims`, `SerialClaims`, `SlotConditions`, `Reclaims`, `Snapshots`, `Latency`, `TimedRuns` | the theorems about all runs |
| `Witnesses`, `Tightness` | concrete reachable runs showing where the code does not meet what one might expect, and that the latency bound is attained |
| `Repositories`, `JobService`, `Dispatcher`, `Scheduler` | the source's objects as classes with their loops |
| `SoloRuns`, `Refinement`, `ServiceRuns` | every method of `Scheduler`, up to `Run`, takes the transition system along one of its runs; likewise the service's requests |

A step of the transition system is what happens between two points at which others can interfere.
Whatever the database, the executors, the channels and the operating system decide is an argument of
the step, so a theorem about all runs covers every outcome: failing reads and writes, a deleted job, a
crash anywhere. In the classes the same is left open by arguments or by `*`.

Assumptions: one monotone clock; new identifiers are fresh; a cron expression either parses or not, and
`next` is an arbitrary function, with `next(s, t) > t` assumed only where a statement says that the
schedule is satisfiable; an executor's error text is not empty; a transaction commits or has no effect.
Every lemma switches Dafny's automatic induction off, so each induction is written out.

## What the code does not guarantee

* The worker writes the whole job row back from the claim (internal/scheduler/scheduler.go:206-207).
  A claim is always of an active job, so a write-back that succeeds reactivates a job paused during the
  run (`Snapshots.WriteBackReactivates`, `Witnesses.PauseOverwritten`), and any other edit made in
  between is lost; `Snapshots.WriteBackLosesNothingIff` gives the exact condition.
* A whole-row write can put `next_run_at` at or behind a slot that was claimed already: slots are then
  claimed out of order, and if the due time is itself a claimed slot, that slot can be claimed a second
  time (`Reclaims.ReopenedIsClaimedTwice`). The worker's write-back does so when a run outlives its
  period (`Witnesses.SlotClaimedTwice`); a service request that has read the row before a claim and
  writes it afterwards does so too, even if it only renames the job and no worker writes anything
  (`Witnesses.RenameReopensSlot`). `SlotConditions` says exactly when, in terms of what was claimed
  between the claim, the read or the computation and the write: `WriteBackReopensSlotIff`,
  `EditReopensSlotIff`, `RescheduleReopensSlotIff` and `TriggerReopensSlotIff`. A pause clears the due
  time and never does. As long as no write does it, claimed slots increase, and no slot is claimed twice
  (`CommittedClaims.NoSlotClaimedTwice`).
* Recovery goes by age alone (internal/repository/postgres/execution.go:152-163): more than five minutes after
  its claim an execution still running in a live process is marked `error` by the next process that
  starts (`TimedRuns.RecoveryHitsTheLiving`), and its owner later overwrites the verdict, so that
  its status changes twice (`Witnesses.StatusChangesTwice`). `TimedRuns` gives the bound under which
  this cannot happen; beyond it, it happens although every call and every timer is on time
  (`Tightness.TimelyRecoveryHitsTheLiving`).
* The comment on `Run` (internal/scheduler/scheduler.go:58-61) says that jobs drain for up to the grace
  period; the code then cancels the executions but still waits for every worker. The model follows the code.

## Model

| member | source | states |
|---|---|---|
| Guarantees.OwnershipPartition | internal/scheduler/scheduler.go:127-160 | every `running` row in a reachable state is owned in exactly one place of exactly one live process, or is an orphan (crash, failed terminal write) of exactly one, never both |
| Guarantees.OwnedOnce | internal/repository/postgres/job.go:142-156 | no execution id occurs in two places, within one process or across processes |
| Guarantees.HeldAtMost | internal/scheduler/scheduler.go:53 | a process holds at most 5 claims per worker, at most 3 between ticks |
| Guarantees.FirstInFirstOut | internal/scheduler/scheduler.go:127-160 | started claims followed by buffered ones are the claims passed on, minus the shed ones, in claiming order, across any number of ticks |
| Guarantees.RowsAreSound | internal/repository/postgres/execution.go:29-36 | in every reachable state a row is `running` iff it has no finish time and in error iff its error text is non-empty; `sent_at` is set exactly on sent rows; no dangling reference |
| Guarantees.TerminalForever | internal/scheduler/scheduler.go:171-204 | no step turns a terminal execution back to `running` |
| Guarantees.TerminalForeverInRuns | internal/scheduler/scheduler.go:171-204 | nor does any run |
| Guarantees.RowsAppear | internal/repository/postgres/execution.go:29-36 | a terminal write never re-creates the row of a claim whose row is gone |
| Guarantees.DeletedJobStaysDeleted | internal/repository/postgres/job.go:165-179 | no step, in particular no stale write-back or service write, re-creates a deleted job |
| Guarantees.DeletedJobStaysDeletedInRuns | internal/repository/postgres/job.go:165-179 | nor does any run |
| Guarantees.NothingOfADeletedJob | migrations/000005_create_notifications.up.sql:4-5 | in every continuation after a deletion no execution of the job and no notification of one exists |
| Guarantees.RecoveryInRuns | internal/scheduler/scheduler.go:116-125 | in any reachable state a successful recovery leaves no `running` row older than five minutes and touches only stale rows |
| Tables.RecoveryIsComplete | internal/repository/postgres/execution.go:152-163 | one recovery changes exactly the stale rows, each to its status, error text and finish time alone, leaves none, keeps all other rows and tables, and repeating it with the same cutoff changes nothing |
| Guarantees.OneNotificationEach | internal/notifier/notifier.go:69-107 | at most one notification per execution and channel, over all processes |
| Provenance.NotificationProvenance | internal/scheduler/scheduler.go:218-243 | a notification's execution was started, not shed, and is settled; the process that created the row is the one that ran it, for the job of the claim; the job's condition held of the verdict, which is the recorded status unless the terminal write failed; the channel is in the job's list, and in an earlier state of the run, where a worker of that process had written this execution back and was looking its channels up, it was the answer, enabled |
| Provenance.DoneRowStays | internal/scheduler/scheduler.go:199-204 | a row whose terminal write succeeded is never changed by any step of any process |
| Outcomes.OutcomeIsShown | internal/scheduler/scheduler.go:179-204 | in every continuation the row of a run whose terminal write succeeded shows, while it exists: success or failure for a registered executor's passing or failing verdict and error otherwise, the verdict's output, the broken executor's message or the unknown type, the time taken and the end |
| Outcomes.ShedIsShown | internal/scheduler/scheduler.go:134-145 | likewise the row of a shed claim shows an error with the text of its reason, no output, no duration and the instant |
| Outcomes.SendIsShown | internal/notifier/notifier.go:113-142 | likewise the row of a notification shows how its send ended: sent, with the instant, exactly if a notifier for the channel's kind is registered and delivered it, and otherwise failed with the notifier's error or the missing kind |
| Outcomes.RemovalTakesOnlyItsOwn | internal/repository/postgres/job.go:176-179 | in every reachable state deleting a job keeps all other job rows, exactly the executions of other jobs, exactly the notifications of those executions, and all channels, unchanged |
| Outcomes.ChannelRemovalTakesOnlyItsOwn | migrations/000005_create_notifications.up.sql:4-5 | deleting a channel takes its own notifications and nothing else |
| Announcements.ConditionDecides | internal/scheduler/scheduler.go:223-247 | a result is announced under "always" always, under "success" exactly for a success, under no condition, "failure" or any other value exactly for a failure or an error, and never under one that does not decode |
| Announcements.LookUpDecides | internal/scheduler/scheduler.go:218-221 | a look-up leads to the fan-out over its answer exactly if it succeeds, there is a dispatcher, the job lists channels and its condition asks for the result; otherwise the worker is done |
| Announcements.OutcomeIsAnnounced | internal/scheduler/scheduler.go:179-221 | the same from the executor's outcome on, whatever happens until the look-up and whether or not the two writes succeed |
| Announcements.VisitIsExact | internal/notifier/notifier.go:82-107 | a visit gives an enabled channel whose row is taken one new pending row and one new send, and otherwise changes nothing |
| Announcements.FanoutVisitsInOrder | internal/notifier/notifier.go:82-107 | in every run up to the end of the job the worker visits the channels it looked up, each once and in order, and links exactly the enabled ones whose row is taken |
| Announcements.AnnouncementIsExact | internal/notifier/notifier.go:82-107 | at the end of the fan-out every looked-up channel was visited once, and the notifications of the execution in the whole database are those of the enabled channels whose row was taken |
| Guarantees.NoStrandedJob | internal/service/job.go:98-181 | under every interleaving of stale whole-row writes each stored row, each claim's snapshot and each row a request has read or is about to write parses, has a positive timeout (32-bit once stored), and is due at some instant if active; so Resume never reports an invalid stored schedule, ClaimDue never skips a row, and a run's 64-bit timeout is the configured one |
| JobRows.ModifiedIsSound | internal/service/job.go:98-181 | every change keeps a row schedulable, and fails exactly for an edit with a schedule that does not parse |
| JobRows.NewJobIsSound | internal/service/job.go:46-75 | a created job is schedulable whatever the input |
| Invariant.StepKeepsInv | internal/scheduler/scheduler.go:62-221 | every step of any process, request or clock keeps the invariant behind all of the above |
| Invariant.RunKeepsInv | internal/scheduler/scheduler.go:62-221 | so does every run |
| ReplicaInvariants.LocalKept | internal/scheduler/scheduler.go:62-221 | every step of a process keeps buffer bounds, phase rules, the WaitGroup count, exactly-one-place and first-in-first-out, whatever the others do |
| Drain.DrainDecreases | internal/scheduler/scheduler.go:81-113 | once the context is cancelled every step of the process, also after `execCancel`, strictly lowers what is left to do |
| Drain.DrainGoesOn | internal/scheduler/scheduler.go:81-113 | a cancelled process that has not returned can always take a step of its own, at worst with a failing write |
| Drain.DrainCompletes | internal/scheduler/scheduler.go:81-113 | from every reachable state a cancelled process returns by its own steps alone |
| System.OthersKeepRep | internal/scheduler/scheduler.go:81-113 | no other process, request or passing of time changes a process, and so none changes what it has left to do |
| Drain.NoSendAfterClose | internal/scheduler/scheduler.go:92 | nothing is sent on the claims channel after it is closed |
| Drain.NoAddWhileWaiting | internal/scheduler/scheduler.go:109-112 | once `Run` waits for the dispatcher the set of sends only shrinks, its count is the WaitGroup's, and `Run` returns exactly at zero |
| Drain.ReturnedCleanly | internal/scheduler/scheduler.go:81-113 | at return every claim ever made was started once or shed once, in order; a row is still `running` exactly if its terminal write failed and no recovery marked it; a notification is pending exactly if its status write failed |
| CommittedClaims.CommitIsDeclarative | internal/repository/postgres/job.go:101-163 | a committed transaction claims exactly the rows it locked, in order, each due, started at the loop's instant and advanced to an activation computed between that and now, each with a fresh `running` row, and changes nothing else; an earlier state of the run, at the transaction's instant, answered with those very rows as the earliest due |
| CommittedClaims.AbortLeavesNothing | internal/repository/postgres/job.go:101-163 | an aborted transaction changes no table, keeps no lock and hands over no claim |
| CommittedClaims.LockSetsDisjoint | internal/repository/postgres/job.go:108-113 | no job is locked by two transactions, in any interleaving |
| CommittedClaims.NoSlotClaimedTwice | internal/repository/postgres/job.go:108-162 | with satisfiable schedules and no overwritten row getting a due time at or behind a claimed slot, each claim of a job is of a strictly later slot than the one before; pauses and later resumes included |
| SlotConditions.WriteBackReopensSlotIff | internal/scheduler/scheduler.go:206-209 | in every reachable state, for a satisfiable schedule: a write-back puts the due time at or behind a claimed slot exactly if a slot that late was claimed after the claim it writes back, and makes the job due at a claimed slot exactly if that very slot was claimed after it |
| SlotConditions.EditReopensSlotIff | internal/service/job.go:98-133 | the same for an update that keeps the schedule, and so the due time it has read: exactly if such a slot was claimed between its read and its write, whatever else happened there, the job being active in the row for the second half; no write may have rewound a due time before the read |
| SlotConditions.RescheduleReopensSlotIff | internal/service/job.go:115-181 | the same for a resume and for an update with a new schedule, in every run: exactly if such a slot was claimed between the computation of the due time and the write |
| SlotConditions.TriggerReopensSlotIff | internal/service/job.go:139-150 | a trigger puts the due time behind a claimed slot exactly if a slot later than the trigger's instant was claimed between its computation and its write, and at a claimed slot exactly if the slot of that instant was claimed then or just before |
| SlotConditions.ClaimHasSlot | internal/repository/postgres/job.go:146-162 | every committed claim has its slot in the history the above speak of |
| Reclaims.DueIsClaimed | internal/repository/postgres/job.go:101-163 | from every reachable state a run leads to a claim of any unlocked active job for the due time stored |
| Reclaims.ReopenedIsClaimedTwice | internal/repository/postgres/job.go:101-163 | so when an active job is due at a slot already claimed, a run leads to a second claim of that slot |
| Witnesses.SlotClaimedTwice | internal/scheduler/scheduler.go:206-209 | a reachable run in which one due slot of one job is claimed by two executions |
| Witnesses.RenameReopensSlot | internal/service/job.go:98-133 | the same by a renaming alone, with the only worker idle throughout |
| Witnesses.PauseOverwritten | internal/repository/postgres/job.go:165-174 | a reachable state with a paused job and no pending request, from which a write-back makes the job active and due |
| Snapshots.WriteBackFrame | internal/scheduler/scheduler.go:206-209 | if nothing wrote the job between its claim and the write-back, only `last_run_at` and `updated_at` of that one row change |
| Snapshots.WriteBackReactivates | internal/scheduler/scheduler.go:206-209 | every successful write-back leaves its job active and due as when it was claimed |
| Snapshots.PauseIsDurable | internal/service/job.go:98-163 | if a job and every outstanding snapshot of it are paused, it stays paused, unlocked and unclaimed in every continuation without a Resume of it |
| Claiming.EarliestDueExists | internal/repository/postgres/job.go:108-113 | the claiming query always has an answer |
| Claiming.RankDrops | internal/repository/postgres/job.go:108-145 | a claim that passes a due job over takes `limit` jobs from ahead of it and puts none back |
| Claiming.PassedOver | internal/repository/postgres/job.go:108-145 | a due job passed over by every claim of a run has that many full batches ahead of it |
| Claiming.BoundedWaiting | internal/repository/postgres/job.go:108-145 | a due active job with k others due no later is claimed by the (k / limit + 1)-th successful claim, whatever jobs are created meanwhile and however rows are overwritten that keep their schedule, status and due time |
| SerialClaims.Induced | internal/repository/postgres/job.go:101-163 | a run by any number of equally large replicas, whose transactions do not overlap and in which job rows are otherwise only created, or overwritten with the same schedule, status and due time, induces a history of claims, creations, such overwritings and waiting with one claim per commit |
| SerialClaims.UndisturbedIsSerial | internal/scheduler/scheduler.go:206-209 | the write-back of an execution whose job nobody wrote since its claim is such an overwriting |
| SerialClaims.ServedInTurn | internal/repository/postgres/job.go:101-163 | so in such a run, crashes and aborted transactions included, a due active job with k others due no later is claimed once more than k / limit transactions have committed |
| Latency.OldestWorker | internal/scheduler/scheduler.go:68-75 | among busy workers one runs a claim received at least a pool's size ago |
| Latency.TimePasses | internal/scheduler/scheduler.go:17-25 | time passing under the latency assumptions keeps the bound of every waiting and running claim |
| TimedRuns.FinishesInTime | internal/scheduler/scheduler.go:17-25 | whatever the pool sizes, a claim still to be finished is at most w seconds plus three calls of `executeJob` old, w being its process's workers |
| Tightness.BoundIsAttained | internal/scheduler/scheduler.go:134-145 | a run with one worker and calls of 100 seconds, all on time, in which a claim is still running exactly one second and three calls after it was made |
| TimedRuns.RecoverySparesTheLiving | internal/repository/postgres/execution.go:152-163 | when that fits in five minutes for the process that owns a row, no recovery marks the row, however large the other pools are |
| TimedRuns.RecoveryHitsTheLiving | internal/scheduler/scheduler.go:116-125 | without the bound: from every reachable state with a `running` row of a live owner a run leads to a recovery that marks it while the owner still holds it |
| Tightness.TimelyRecoveryHitsTheLiving | internal/scheduler/scheduler.go:116-125 | and in a run in which every call and every timer is on time, but the bound is five minutes and one second, a recovery marks a row whose owner is running the job |
| TimedRuns.StatusChangesOnceInRuns | internal/scheduler/scheduler.go:116-160 | under the owner's bound a terminal row is never written again, so the execution changes status at most once |
| Witnesses.StatusChangesTwice | internal/scheduler/scheduler.go:116-125 | a run in which an execution goes from `running` to `error` by recovery and then to `success` by its owner |
| Repositories.JobRepository.Create | internal/repository/postgres/job.go:31-40 | inserts the row with the database's own stamps and no last run, or fails and changes nothing |
| Repositories.JobRepository.GetByID | internal/repository/postgres/job.go:42-50 | the stored row, or an error for a missing one |
| Repositories.JobRepository.Update | internal/repository/postgres/job.go:165-174 | gives every settable column of an existing row the value passed in, keeps identity, owner and creation stamp, and touches no other row; no effect on a missing row |
| Repositories.JobRepository.Delete | internal/repository/postgres/job.go:176-179 | removes the job with exactly its executions and their notifications; every other row of every table stays as it is |
| Repositories.JobRepository.ClaimDue | internal/repository/postgres/job.go:101-163 | on success the earliest due unlocked rows are claimed by the loop, each advanced and given a new `running` row and nothing else changed; on any fault, wherever it strikes, nothing changes and no claim is returned |
| Repositories.ClaimsAreStored | internal/repository/postgres/job.go:129-157 | with new execution ids the loop's statements set the due time and stamp of exactly the claimed jobs and insert exactly one `running` row per claim |
| Repositories.JobRepository.QueryDue | internal/repository/postgres/job.go:108-127 | at most `limit` unlocked active rows due at the instant, each as stored, once, in due order, and none due earlier is missing; all of them if there is room |
| Repositories.ParsingMembers | internal/repository/postgres/job.go:131-139 | the rows the loop does not skip are exactly those whose schedule parses |
| Repositories.ParsingKeepsOrder | internal/repository/postgres/job.go:131-139 | in due order and without repetition |
| Repositories.LoopClaimsAre | internal/repository/postgres/job.go:129-157 | the loop's claims are, one for one and in order, of those rows, with only the due time changed |
| Repositories.LoopClaimsDiffer | internal/repository/postgres/job.go:148-156 | no two claims share an execution id |
| Repositories.ExecutionRepository.Update | internal/repository/postgres/execution.go:29-36 | sets status, output, error, duration and finish of an existing row, keeps its job and start, and touches nothing else |
| Repositories.ExecutionRepository.RecoverStaleRunning | internal/repository/postgres/execution.go:152-163 | every row `running` since before the cutoff becomes an error with the crash text and this finish, every other row stays, and the count is that of the rows changed |
| Repositories.NotificationRepository.Create | internal/repository/postgres/notification.go:19-26 | inserts a pending row if execution and channel exist, else fails and changes nothing |
| Repositories.NotificationRepository.UpdateStatus | internal/repository/postgres/notification.go:90-100 | sets status and error of an existing row, and `sent_at` exactly for a sent one; touches no other row |
| Repositories.ChannelRepository.GetByIDs | internal/repository/postgres/channel.go:42-67 | each listed channel that exists, once, however often the list repeats it; no query for an empty list |
| JobServices.JobService.Create | internal/service/job.go:46-81 | stores a job with the columns of the input, active, due at the schedule's next activation, with condition "failure" if none and 30 seconds if no positive timeout was given; refuses exactly a schedule that does not parse |
| JobServices.JobService.Update | internal/service/job.go:98-133 | the row returned and stored has each column that was given and otherwise the one read, the timeout only if positive, and a new due time exactly with a new schedule; it is written over whatever others wrote in between |
| JobServices.JobService.TriggerRun | internal/service/job.go:139-150 | writes back the row read with the due time set to now, over whatever others wrote in between |
| JobServices.JobService.Pause | internal/service/job.go:152-163 | likewise with the status paused and no due time |
| JobServices.JobService.Resume | internal/service/job.go:165-181 | likewise active and due at the stored schedule's next activation, or an error exactly if the stored schedule does not parse |
| JobServices.JobService.Delete | internal/service/job.go:135-137 | deletes the row with what depends on it, and keeps every other row of every table |
| JobServices.UndisturbedChange | internal/service/job.go:98-181 | without interference a change leaves every column it does not speak of, and every other row, as stored |
| ServiceRuns.ChangeFollowsSystem | internal/service/job.go:98-181 | what the contracts of the service's changes allow, a refused change and a failing write included, are runs of the transition system |
| ServiceRuns.CreateFollowsSystem | internal/service/job.go:46-81 | what the contract of `JobService.Create` allows, a refused schedule and a failing insert included, is a run of the transition system |
| Dispatching.Dispatcher.Register | internal/notifier/notifier.go:61-63 | adds one kind of channel |
| Dispatching.Dispatcher.Dispatch | internal/notifier/notifier.go:69-107 | each looked-up channel that is enabled, without a fault, and with its own and the execution's row present gets exactly one new pending row and a send under the same id; no other row or send is new, and none is changed |
| Dispatching.Dispatcher.Send | internal/notifier/notifier.go:113-142 | records sent with the instant if delivered, failed with the notifier's error if not, failed with the missing kind if none is registered; and ends the send whether or not that write succeeds |
| Dispatching.Dispatcher.Wait | internal/notifier/notifier.go:109-111 | returns with the count at zero, the row of every send in flight recorded as above unless that write failed, and no other row touched |
| Dispatching.AnnouncedRows | internal/notifier/notifier.go:82-107 | the new rows are exactly those of the spawned sends, pending, for this execution |
| Dispatching.OneRowEach | internal/notifier/notifier.go:82-107 | no two new rows of a dispatch are for the same channel |
| Dispatching.SpawnedSends | internal/notifier/notifier.go:82-107 | every looked-up channel that is enabled, without a fault and with both rows present has its send, under its own id, and there is no other |
| Scheduling.Scheduler.constructor | internal/scheduler/scheduler.go:38-56 | a new process holds nothing |
| Scheduling.Scheduler.Execute | internal/scheduler/scheduler.go:166-197 | success or failure for a registered executor's passing or failing verdict, error otherwise; the verdict's output; the broken executor's message or the unknown type; the time taken and the end; the time limit is the job's, or 30 seconds if that is not positive |
| Scheduling.Scheduler.ExecuteJob | internal/scheduler/scheduler.go:162-221 | the execution's row gets that result, the job's row the claim's columns and the end, a failed write stops nothing; then the channels are looked up and notified case by case as the job's condition asks; nothing else changes; a run of the transition system |
| Scheduling.Scheduler.Notify | internal/scheduler/scheduler.go:218-247 | looks up the job's channels exactly when there is a dispatcher and the condition asks for the status, case by case, and notifies exactly those |
| Scheduling.Scheduler.RecoverStaleRuns | internal/scheduler/scheduler.go:116-125 | exactly the rows `running` for more than five minutes become errors with the crash text |
| Scheduling.Scheduler.MarkFailed | internal/scheduler/scheduler.go:249-260 | one execution, if stored, becomes an error with this text, no output, no duration and this finish |
| Scheduling.Scheduler.ClaimBatch | internal/scheduler/scheduler.go:128-132 | the claims become the batch, in due order; none if the context is done |
| Scheduling.Scheduler.Offer | internal/scheduler/scheduler.go:134-145 | the channel takes the claim iff it has room and is chosen; otherwise the claim's row becomes an error with the reason's text, at once on cancellation or after 500 ms, and in the latter case the write fails if the context is done |
| Scheduling.Scheduler.Tick | internal/scheduler/scheduler.go:127-146 | claims the earliest due jobs and deals with every claim: shed, or else buffered or started; a run of the transition system |
| Scheduling.Scheduler.Worker | internal/scheduler/scheduler.go:156-160 | the worker leaves with the channel empty, every buffered claim having been started in order, by it or by any other worker still there |
| Scheduling.Scheduler.DispatchLoop | internal/scheduler/scheduler.go:78-89 | ticks until the context is done, leaving no claim undispatched |
| Scheduling.Scheduler.AwaitWorkers | internal/scheduler/scheduler.go:94-107 | all workers leave, with or without the grace period expiring |
| Scheduling.Scheduler.Run | internal/scheduler/scheduler.go:62-114 | the whole of `Run` is a run of the transition system in which this process alone moves; at return every claim was started or shed once, in order, and what is left `running` or pending is exactly what a failed write left |
| SoloRuns.ClaimRun | internal/repository/postgres/job.go:101-163 | the repository's claiming loop, as steps of the machine, makes the machine's batch and tables |
| SoloRuns.NotifyRun | internal/notifier/notifier.go:82-107 | the dispatcher's loop, as steps of the machine, makes the machine's rows and sends |
| SoloRuns.SendsRun | internal/notifier/notifier.go:113-142 | the sends in flight, finishing one by one, leave the rows `Dispatcher.Wait` leaves |

## Left out

- HTTP handlers, middleware, sessions, pages, health probes, configuration, the migrations runner and deployment files.
- User, channel and auth services; list and count queries, paging defaults and `DeleteOlderThan`, which nothing calls: easy members only.
- The cron library, JSON decoding, uuid generation, bcrypt and JWT: parameters or fresh values.
- SQL text and PostgreSQL internals: only the effect of each statement, with row locks, cascades and the column constraints that a job row can violate.
- The network, process and mail code of executors and notifiers: an outcome that is an argument of the step. That an executor respects its time limit is an assumption of `TimedRuns` only.
- Message formatting, payloads, output truncation and logging.
- Clock skew between the database and the processes, and commits whose outcome the client does not learn.
- A job whose channel list or condition is SQL NULL: the model's list and condition are always present.
- Deleting a user, which cascades to jobs and channels; it composes the deletions that are modelled.
- The lengths of the tick interval and of the grace period: a tick may come, and the grace period may end, at any moment.
- Scheduling.Scheduler.Run: shows one process between interferences, with executions one after another and no other process inside a transaction; interference of other processes and requests at every point is covered by the theorems about runs. Its `ticks` argument is how many ticks there are before cancellation at the latest.
- Scheduling.Scheduler.Worker: other workers receive in between, but one execution ends before the next claim is received; all overlaps are runs of `System`.
- Repositories.JobRepository.ClaimDue: a locked row of another transaction is given as a set, and the rows it locks are released when it returns.
- CommittedClaims.NoSlotClaimedTwice: its condition on the writes of a run is sufficient; for each kind of write `SlotConditions` gives the exact condition.
- SlotConditions.EditReopensSlotIff: speaks of histories without a rewinding write before the read; after one, the due time read may itself lie behind a claimed slot.
- SerialClaims.ServedInTurn: leaves out transactions that overlap, since a later one can commit before the one that holds the earliest rows, deletions, and whole-row writes that change a schedule, a status or a due time, since one can put a claimed job back in front.
- Guarantees.OneNotificationEach: payload and creation time of the row are not modelled.
- TimedRuns.FinishesInTime: neglects the database time of a tick, as `Latency.MayPass` says.
