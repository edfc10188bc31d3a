# Verified model of the queue server

A Dafny model of the server's job queue and of six smaller components, with proofs of what they
promise over every input, every run or every interleaving. `dafny verify dfyconfig.toml` checks it.

## The job queue

The queue is a lease-based work queue on one jobs table. Jobs are enqueued, claimed with a visibility
lease, kept alive by heartbeats, reclaimed when a lease runs out, acknowledged or nacked with a
quadratic back-off, dead-lettered, cancelled, revived by a control retry, purged, and deleted in
batches behind a "deleting" write barrier.

| file | content |
|---|---|
| `JobModel.dfy` | the job row, its transitions, the mutable entity, the default back-off in 64-bit arithmetic |
| `QueueState.dfy` | the tables, the lifecycle guard, the WHERE / ORDER BY / LIMIT parts of the SQL |
| `QueueSteps.dfy` | 35 kinds of atomic step and runs of steps; a step whose precondition fails changes nothing |
| `StepEquations.dfy` | each kind of step as one equation, and what it leaves alone |
| `JobHistory.dfy` | what each step does to one job, and the invariant that ties a job's row to its whole history |
| `StatementMeaning.dfy` | each kind of step once more, as SQL and services have it: which rows, how many, and what becomes of each column |
| `JobGuarantees.dfy` | claim accounting, retry bound, back-off, leases, fencing, completion, finality |
| `Timing.dfy` | when a nacked job can be claimed, which lost leases a sweep takes back, first in first out |
| `LostUpdates.dfy` | what a handler's late save of a job can undo, and exactly when nothing can |
| `BackoffLimit.dfy` | for which MaxAttempts the back-off holds over all runs |
| `CascadeSafety.dfy` | how a step moves the tables, and what every step keeps |
| `Barrier.dfy`, `TenantBarrier.dfy` | the write barriers: what is past them dwindles; when a deleting queue stays deleting |
| `Stranding.dfy` | when the deletion of a queue strands a job: the exact conditions |
| `Races.dfy` | runs, from an empty database, in which the barrier is not enough |
| `ClaimSelection.dfy` | which rows a claim takes, and why promotion cannot change it |
| `Storage.dfy` | the tables as a mutable object, one method for each SQL statement |
| `Interleaving.dfy` | operations of several statements, with arbitrary other steps in between |
| `QueueService.dfy`, `Enqueuing.dfy`, `JobHandlers.dfy`, `Scheduling.dfy`, `LongPoll.dfy`, `Cleanup.dfy`, `TenantCleanup.dfy` | these operations, as methods |

A run is any sequence of steps from a state without jobs. `FateOf` names what a step does to a job,
`HistoryOf` counts the fates of a run, and `HistoryInvariant` relates the counts to the stored row.
An enqueue is up to five steps: the guard lets it through; it looks for its queue; if there is none it
creates it, or takes the row somebody else has created meanwhile; it inserts; and once it has published a
claimable job it saves the row it has inserted. An ack, nack, cancel or control retry is three: the guard,
the read with its checks, the save of the whole changed row, which writes over whatever is there or inserts
it again; a nack that puts the job back publishes it and saves it once more, as does the scheduler with each
job of its snapshot. A config update reads a queue row and saves it whole. Anything can happen in between,
and all that is under way is part of the state. `StatementMeaning.dfy` says of every step, in columns and
numbers only, what it selects and writes, so that no result rests on the model's own names for these. `Incoming` are the jobs that an insert or a save would put
into a queue next; `Expected` are all that may still come into a deleting queue, and `Near` adds those that
are there. A history is `lost` once a handler has saved the job although it had changed since that handler
read, inserted or last saved it.

The operations are methods on the mutable tables; the environment is a function that says which steps
others take in each pause, and the contract says which steps the operation itself took.

## The smaller components

| file | content |
|---|---|
| `Container.dfy` | recursive resolution of services, cycle detection, shutdown order |
| `CanonicalJson.dfy` | the canonical JSON writer and its unique readability |
| `RateLimiter.dfy` | the fixed-window limiter and its per-project registry |
| `SubscriptionIndex.dfy` | the forward and reverse maps of local subscriptions |
| `Egress.dfy` | the bounded outbound queue with a single writer |
| `Base62.dfy` | fixed-width identifier codes |

## What the proofs brought out

- The default back-off is the square of the attempt in minutes only up to attempt 12398; from the next
  attempt on it overflows 64 bits and is shorter, at attempt 12399 negative (`BackoffExact`,
  `BackoffOverflow`). Over whole runs the quadratic wait holds if and only if MaxAttempts is at most
  12399; for every larger value there is a run that breaks it (`BackoffHoldsIff`, `BackoffFails`).
- The write barrier is checked before the write, in a statement of its own. So a queue can be deleted,
  row and all, under an enqueue that has passed it or found no queue, under an enqueue that is publishing
  the job it has inserted, or under a handler that has read one of its jobs; the insert, or the save, then
  strands the job (`EnqueueOutlivesQueue`, `InsertOvertakesDrop`, `CreationOutlivesQueue`,
  `PublishOutlivesQueue`, `SaveOutlivesQueue`, `EnqueueOutlivesTenant`). What the barrier does give is
  exact: nothing is ever stranded if and only if every row is removed when its queue has no jobs and none
  incoming (`NothingStrandedIff`); a job is stranded if and only if the row went, for good, while the job
  was there or incoming (`StrandedIff`); and after the last empty batch of a cascade nothing but what was
  expected at that moment can be left behind (`LastBatchDecides`).
- Saves of whole job rows lose updates. An enqueue that is slow to publish undoes a completed job, which can
  then be completed again (`EnqueueUndoesAck`, `CompletedTwice`); a late nack takes a second claim away,
  attempt and all (`LateNackBreaksAccounting`). A completed or cancelled job stays so in every run if and
  only if no handler that has read, inserted or saved it has still to save it (`FinalHoldsIff`). Shape,
  leases and fencing survive lost updates; the counts need a history without one (`LostIff`).
- A config update saves the whole row it has read, so one that races a deletion turns the queue active
  again, and its cascade then need not stop (`UpdateRevivesQueue`, `LoopNeedNotStop`). A deleting queue
  stays deleting in every run if and only if no such update is under way (`DeletingHoldsIff`).
- `Attempt <= MaxAttempts` is not an invariant: reclaims and control retries neither reset nor check
  the counter. `RetryBound` states what does hold.
- The limiter is documented as a per-second limit. It admits up to twice the limit in one second, and
  that bound is reached (`WindowBound`, `WindowBoundIsReached`).
- Cleanup of subscriptions is documented to count closed subscriptions. It counts removed
  (channel, subscription) pairs, idle ones included.
- The comment on the base62 encoder mentions an added offset for short codes. There is none; short
  codes are padded with zeros.
- The reclaim sweep takes a default visibility timeout, but its inner join never needs it: a job
  without a queue row is not reclaimed at all.
- Two cascades of one queue at the same time can strand a job even with nothing incoming at either one's
  last batch (`OverlapStrands`).
- A purge with a negative retention need not stop (`PurgeNeedNotStop`).

## Model

| member | source | states |
|---|---|---|
| JobModel.NewJob | internal/domain/queue/job/model.go:95-130 | a created row has the stored-row shape, the columns asked for, no attempts, and the time of its creation as created_at; it is scheduled exactly when its schedule lies in the future, else claimable at once; MaxAttempts defaults to 25; it carries an idempotency key only if one was given |
| JobModel.SqlAgreesWithEntity | internal/infrastructure/repository/queue/job/repository.go:107-127 | the claim and reclaim UPDATEs write the entity's own transition exactly when terminal_at is clear, which every row they select has |
| JobModel.BackoffExact | internal/application/service/queue/router/service.go:361-366 | the default delay is at least attempt squared minutes if and only if the attempt is at most 12398, and is then exact |
| JobModel.BackoffOverflow | internal/application/service/queue/router/service.go:361-366 | one attempt later the delay is negative |
| JobModel.BackoffWraps | internal/application/service/queue/router/service.go:361-366 | at every attempt the default delay is attempt squared minutes modulo 2^64, within the range of a signed integer |
| JobModel.JobEntity.MarkRunning | internal/domain/queue/job/model.go:133-141 | the in-place update gives the running row and leaves every other column |
| JobModel.JobEntity.MarkCompleted | internal/domain/queue/job/model.go:144-151 | the in-place update gives the completed row and leaves every other column |
| JobModel.JobEntity.MarkFailed | internal/domain/queue/job/model.go:154-160 | the in-place update gives the failed row and leaves every other column |
| JobModel.JobEntity.MarkRetry | internal/domain/queue/job/model.go:163-172 | the in-place update gives the pending row due after the delay, with no worker, start or terminal time |
| JobModel.JobEntity.MarkDlq | internal/domain/queue/job/model.go:175-181 | the in-place update gives the dead-lettered row and leaves every other column |
| JobModel.JobEntity.MarkCancelled | internal/domain/queue/job/model.go:184-189 | the in-place update gives the cancelled row and leaves every other column |
| JobModel.JobEntity.MarkReclaimed | internal/domain/queue/job/model.go:192-199 | the in-place update gives the pending row without a lease |
| JobModel.JobEntity.MarkPendingForSchedule | internal/domain/queue/job/model.go:219-224 | only the status, terminal and update times change |
| JobModel.JobEntity.MarkRetryFromControl | internal/domain/queue/job/model.go:227-237 | the revived row is due at once, keeps its attempts and loses lease, error and completion |
| QueueState.QueueWritable | internal/domain/queue/lifecycle/guard.go:31-66 | the guard names the tenant exactly when it is deleting, the queue exactly when it is deleting and its tenant is not; unknown tenants and queues and project 0 pass |
| QueueSteps.QueueCreated | internal/application/service/queue/queue/service.go:25-40 | creating a queue leaves a row that is there as it is, whatever its status, and otherwise inserts an active one exactly if the name is valid |
| QueueSteps.RemoveName | internal/domain/queue/worker/queues.go:18-34 | the list loses every occurrence of the name and no other name |
| QueueSteps.RemoveNameConcat | internal/domain/queue/worker/queues.go:23-28 | the other names keep their order and their number |
| JobHistory.StepRow | internal/application/service/queue/router/service.go:90-601 | every step of every service, the saves after publishing included, changes a job's row by exactly one named transition, only when that transition is legal, or by saving a copy over a row it does not match; and it never reuses an id |
| JobHistory.FateKeepsConsistent | internal/domain/queue/job/model.go:133-237 | no legal transition breaks the row shape, the claim accounting, the retry bounds or the single completion |
| JobHistory.NackKeepsBackoff | internal/application/service/queue/router/service.go:361-372 | a default nack adds at least the square of the new number of retries in minutes, whatever reclaims raised the attempt to |
| JobHistory.SumOfSquaresClosed | internal/application/service/queue/router/service.go:361-366 | the waits after k default nacks add up to k(k+1)(2k+1)/6 minutes |
| JobHistory.HistoryInvariant | internal/infrastructure/repository/queue/job/repository.go:101-317 | in every run the stored row of every job agrees with the job's history in identity, shape and lease, and in all its counts unless an update was lost; the bounds outlive its deletion |
| JobGuarantees.RowShape | internal/domain/queue/job/model.go:52-81 | in every run terminal_at is set exactly on terminal rows; running rows have a start time and an attempt; waiting rows have neither worker nor start time; scheduled rows have a schedule |
| JobGuarantees.ClaimAccounting | internal/infrastructure/repository/queue/job/repository.go:101-203 | in every run that loses no update of the job Attempt equals the claims, and equals nack-retries + reclaims + acks + dead-letterings + cancels while running + 1 if running |
| JobGuarantees.RetryBound | internal/application/service/queue/router/service.go:361-405 | in every run that loses no update of the job it is nack-retried at most MaxAttempts - 1 times, and without reclaims and control retries is claimed at most MaxAttempts times |
| JobGuarantees.NackDeadLettersIff | internal/domain/queue/job/model.go:202-204 | the save of a nack on an unchanged job dead-letters it if and only if it has been claimed MaxAttempts times or more, and otherwise retries it |
| JobGuarantees.BackoffOverRuns | internal/application/service/queue/router/service.go:361-372 | after k default nack-retries a claim comes at least k(k+1)(2k+1)/6 minutes after the first claim, with reclaims and control retries in between, for MaxAttempts up to 12399 |
| BackoffLimit.BackoffFails | internal/application/service/queue/router/service.go:361-372 | for every MaxAttempts above 12399 a run from an initial state enqueues a job, claims and reclaims it 12398 times, nacks it by default and claims it again without the wait |
| BackoffLimit.BackoffHoldsIff | internal/application/service/queue/router/service.go:361-372 | the wait holds over all runs if and only if MaxAttempts is at most 12399 |
| JobGuarantees.BackoffLostPastLimit | internal/application/service/queue/router/service.go:361-372 | one default nack at attempt 12399 leaves any retryable job claimable at once |
| JobGuarantees.ReclaimOnlyExpired | internal/infrastructure/repository/queue/job/repository.go:146-203 | a sweep reclaims a job only when more than its queue's visibility timeout has passed since the later of its claim and its worker's last heartbeat |
| JobGuarantees.HeartbeatRenews | internal/application/service/queue/worker/service.go:77-98 | a heartbeat of the registered holder renews the lease of its job |
| JobGuarantees.FreshLeaseIsKept | internal/infrastructure/repository/queue/job/repository.go:146-203 | a job whose lease is within its timeout at every point of a run is not reclaimed in it |
| JobGuarantees.TouchedSinceBeat | internal/application/service/queue/worker/service.go:77-98 | at any time after a worker claims a job or, registered, sends a heartbeat, if the job runs for that worker its lease is no older than that, whatever happened in between |
| JobGuarantees.HeartbeatsKeepTheLease | internal/infrastructure/repository/queue/job/repository.go:146-219 | if at every point of a run the worker running the job has claimed it, or sent a heartbeat as a registered worker of the project, within the queue's visibility timeout, the job is never reclaimed, whatever else runs |
| JobGuarantees.SettleIff | internal/application/service/queue/router/service.go:636-645 | past the guard an ack or nack is let through if and only if the latest claim of the job has not ended and was made by that worker or without a worker id, lost updates or not |
| JobGuarantees.CompletesOnce | internal/application/service/queue/router/service.go:278-331 | in every run that loses no update of the job it is acknowledged at most once and keeps the result and time of that acknowledgement |
| JobGuarantees.FinalForever | internal/application/service/queue/router/service.go:450-453 | a completed or cancelled row that no handler holds a copy of never changes again; it can only be deleted, and its id is not reused |
| LostUpdates.FinalHoldsIff | internal/application/service/queue/router/service.go:503-522 | a completed or cancelled row stays as it is or is deleted in every run if and only if no handler that has read, inserted or saved the job has still to save it |
| LostUpdates.LostIff | internal/infrastructure/repository/queue/job/repository.go:25-27 | a history is flagged if and only if at some step a handler's save, the one after publishing included, went through although the job had changed, or gone, since the handler read, inserted or last saved it |
| LostUpdates.QuietSaveLosesNothing | internal/infrastructure/repository/queue/job/repository.go:25-27 | a save loses nothing if no step since its read has touched the job |
| LostUpdates.LateNackBreaksAccounting | internal/application/service/queue/router/service.go:333-405 | for every MaxAttempts a run in which a nack is read, its lease runs out, the job is claimed again and the nack is saved: two claims, one attempt, nothing running |
| LostUpdates.EnqueueUndoesAck | internal/application/service/queue/router/service.go:170-172 | for every MaxAttempts a run in which the job is claimed and completed while its enqueue publishes it, and the enqueue's save makes it a new waiting job again |
| LostUpdates.CompletedTwice | internal/application/service/queue/router/service.go:503-522 | the same run goes on to a second accepted acknowledgement, at attempt 1 |
| JobGuarantees.DeadLetterHolds | internal/application/service/queue/job/service.go:106-140 | a dead-lettered row stays as it is until a control retry, a lost update or its deletion |
| Timing.NackPutsOff | internal/application/service/queue/router/service.go:361-372 | the save of a nack that may retry leaves the job pending, without worker or lease, and due after the delay asked for, or by default (up to attempt 12398) after attempt squared minutes; it is claimable from then on and not before |
| Timing.NotClaimedBefore | internal/infrastructure/repository/queue/job/repository.go:101-144 | a pending job with a schedule is not claimed before it in any run that loses no update of the job |
| Timing.NackHoldsOff | internal/application/service/queue/router/service.go:361-372 | so in no such run is a nacked job claimed before the delay asked for, or the default one, is over |
| Timing.SweepTakes | internal/infrastructure/repository/queue/job/repository.go:146-203 | in every run a sweep reclaims a job if and only if it runs, its queue and tenant are active, and its last claim or heartbeat is older than the timeout, whoever runs it, unless the limit (500 by default) binds; then it takes none whose last sign of life is more recent than that of one it leaves |
| Timing.SweepLeavesNone | internal/infrastructure/repository/queue/job/repository.go:146-203 | after a sweep below its limit every job running in an active queue of an active tenant has had a sign of life within the timeout |
| Timing.FirstInFirstOut | internal/infrastructure/repository/queue/job/repository.go:107-118 | in every run, of two jobs enqueued into a queue without schedule or delay, never nacked and with no update lost, no claim takes the one enqueued later and leaves the earlier one waiting, whatever reclaims and control retries came between |
| CascadeSafety.RequestOrigin | internal/application/service/queue/router/service.go:90-157 | an enqueue gets under way only past the guard; it gets to its insert only by finding its queue, not deleting, or by first finding none and then creating it or finding it created, whatever its status |
| CascadeSafety.CopyOrigin | internal/application/service/queue/router/service.go:278-522 | a handler comes to hold a copy only of a job it reads past the guard, or as the scheduler while queue and tenant are active, or of one it has inserted or goes on holding after a save |
| CascadeSafety.VisitOrigin | internal/domain/queue/lifecycle/guard.go:31-66 | a handler is on its way to a job only once the guard has let it through |
| CascadeSafety.RowMoves | internal/infrastructure/repository/queue/queue/repository.go:40-42 | a queue's row is only ever marked deleting, overwritten by the save of an update that had read it, or removed by its cascade or its tenant's |
| CascadeSafety.StepOrderly | internal/application/service/queue/cleanup/service.go:66-351 | every step keeps: job ids are issued once; a job and all copies of it are the same job; a queue under cascade has its row and no tenant cascade deletes it too; a tenant under cascade is deleting; updates under way have read rows that were not deleting |
| Stranding.AnchoredStepIff | internal/application/service/queue/cleanup/service.go:240-331 | a step keeps a queue row under every job, there or incoming, if and only if it removes no row of a queue that has one |
| Stranding.NothingStrandedIff | internal/application/service/queue/cleanup/service.go:240-331 | at no point of a run is a job, there or incoming, without its queue row, if and only if every row removed in the run belongs to a queue with no such job |
| Stranding.NoJobIsStranded | internal/application/service/queue/cleanup/service.go:240-331 | in every run that removes rows only of queues with no jobs and none incoming, every job's queue row exists |
| Stranding.StrandedIff | internal/application/service/queue/router/service.go:90-157 | a job ends a run without its queue row if and only if some step removed the row while the job was there or incoming, and none brought it back |
| Stranding.DropIsSafeIff | internal/application/service/queue/cleanup/service.go:257-268 | a queue with no jobs and none incoming is exactly one whose row can be removed so that neither the removal nor any single insert or save after it, however late, strands a job |
| Barrier.DeletingPersistsIff | internal/application/service/queue/queue/service.go:42-63 | while its row stays, a step leaves a deleting queue deleting if and only if it is not the save of a config update that had read the row |
| Barrier.DeletingHoldsIff | internal/application/service/queue/queue/service.go:42-63 | a deleting queue stays deleting in every run in which its row stays if and only if no config update that had read the row is under way |
| Barrier.BarrierStep | internal/domain/queue/lifecycle/guard.go:48-66 | while a queue is deleting no step adds to its jobs and those expected; a job enters it only as the insert or save of an incoming one |
| Barrier.LoadStep | internal/application/service/queue/cleanup/service.go:240-256 | while a queue is deleting no step adds to the jobs and the inserts and saves that can still come, counting two for an enqueue and for a handler that may publish; a non-empty batch takes one away |
| Barrier.BarrierOverRun | internal/application/service/queue/cleanup/service.go:240-256 | over any run in which a deleting queue's row stays and no config update of it was under way, the queue stays deleting, its jobs and those expected only dwindle, and the non-empty delete batches are at most as many as the jobs, inserts and saves to come at the start |
| Stranding.LastBatchDecides | internal/application/service/queue/cleanup/service.go:247-256 | after a cascade's last, empty batch all that is or may come into the queue is what was expected at that batch |
| Stranding.DropRowLeavesNothing | internal/application/service/queue/cleanup/service.go:257-268 | if nothing was expected at the last batch, then whatever happened in between the row's removal strands nothing, and after it no job of the queue and no worker's listing of it is left and none is still to come |
| TenantBarrier.TenantBarrierStep | internal/domain/queue/lifecycle/guard.go:31-46 | while a tenant is deleting no step adds to its jobs and those expected, or to its workers, and it stays deleting until its row goes |
| TenantBarrier.TenantLoadStep | internal/application/service/queue/cleanup/service.go:283-296 | while a tenant is deleting no step adds to its jobs and the inserts and saves that can still come; a non-empty batch takes one away |
| TenantBarrier.TenantDropLeavesNothing | internal/application/service/queue/cleanup/service.go:270-331 | if no enqueue and no save of the project was under way at the tenant cascade's last batch, then when the tenant's row goes, whatever happened in between, no job of the project is left, none is still to come, and every queue of the project is safe to remove |
| Races.EnqueueOutlivesQueue | internal/application/service/queue/router/service.go:90-157 | for every valid queue a run in which the whole deletion happens between an enqueue's check and its insert, and strands the job |
| Races.InsertOvertakesDrop | internal/application/service/queue/cleanup/service.go:240-268 | for every valid queue a run in which the insert comes between the last empty batch and the removal of the row, and strands the job |
| Races.SaveOutlivesQueue | internal/application/service/queue/router/service.go:438-460 | for every valid queue a run in which a handler reads a job to cancel it, the queue is deleted by force, and the handler's save inserts the job again |
| Races.PublishOutlivesQueue | internal/application/service/queue/router/service.go:503-522 | for every valid queue a run in which the queue is deleted by force while an enqueue publishes the job it has inserted, and its save inserts the job again |
| Races.CreationOutlivesQueue | internal/application/service/queue/queue/service.go:25-40 | for every valid queue a run in which an enqueue finds no queue, somebody else creates and deletes it, and the enqueue goes on with the deleting row after the last batch: its insert is stranded |
| Races.EnqueueOutlivesTenant | internal/application/service/queue/router/service.go:90-157 | for every valid queue a run in which a tenant is deleted between an enqueue's check and its insert, and the job is left without a tenant |
| Races.UpdateRevivesQueue | internal/application/service/queue/queue/service.go:42-63 | for every valid queue a run in which a config update turns a deleting queue active while its cascade is in flight |
| Races.LoopNeedNotStop | internal/application/service/queue/cleanup/service.go:247-256 | with such an update a run for every n in which the one delete loop, starting on an empty queue, executes n non-empty batches |
| Races.OverlapStrands | internal/application/service/queue/cleanup/service.go:240-268 | two cascades of one queue, statement by statement, and an enqueue between the two removals that is neither refused nor under way at a last batch: its job is stranded |
| Races.PurgeNeedNotStop | internal/application/service/queue/cleanup/service.go:177-207 | for every cutoff in the future and every n a run in which one purge loop executes n non-empty batches |
| Stranding.IdempotencyKeysUnique | internal/infrastructure/database/migration/2026080101_dataplane_tables.go:33-38 | in every run, whichever inserts and saves race, an idempotency key names at most one job of a queue |
| ClaimSelection.Select | internal/infrastructure/repository/queue/job/repository.go:107-118 | taking the earliest row again and again gives min(limit, eligible) rows, in order, none later than a row left behind |
| ClaimSelection.FilterMatchesIsClaimable | internal/domain/queue/job/model.go:207-216 | the SQL filter and IsClaimable agree at all times exactly on rows that are not scheduled without a time; every stored row is such |
| ClaimSelection.ClaimTakesEarliest | internal/infrastructure/repository/queue/job/repository.go:101-144 | in every run a claim takes exactly min(limit, claimable) jobs, none later than a claimable one it leaves, by schedule time (none first) and then creation time |
| ClaimSelection.PromotionInvisibleToClaims | internal/application/service/queue/router/service.go:574-601 | however many due jobs have been promoted and saved again unchanged, the possible claims and the rows they leave are the same as without |
| StatementMeaning.ClaimSelects | internal/infrastructure/repository/queue/job/repository.go:107-118 | a claim is legal if and only if it takes pending or scheduled jobs of the queue that are due, without a schedule first, then by schedule, then by creation time: all of them, or as many as the limit (1 by default) |
| StatementMeaning.ClaimWrites | internal/infrastructure/repository/queue/job/repository.go:101-144 | a claim writes status, worker, attempt, start and update times of the rows taken, and nothing else |
| StatementMeaning.ReclaimSelects | internal/infrastructure/repository/queue/job/repository.go:157-190 | a sweep is legal if and only if it takes running jobs with a lost lease in active queues of active tenants, the oldest leases first: all of them, or as many as the limit (500 by default) |
| StatementMeaning.ReclaimWrites | internal/infrastructure/repository/queue/job/repository.go:157-190 | a sweep makes the rows taken wait, without worker and start time, and writes nothing else |
| StatementMeaning.HeartbeatWrites | internal/application/service/queue/worker/service.go:77-98 | a heartbeat of a worker known in the project dates the worker and every job it runs there; of any other it does nothing |
| StatementMeaning.VisitWrites | internal/domain/queue/lifecycle/guard.go:31-66 | a handler gets past the guard exactly if neither its tenant nor its queue is deleting |
| StatementMeaning.AdmitWrites | internal/domain/queue/lifecycle/guard.go:31-66 | an enqueue gets past the guard exactly if neither its tenant nor its queue is deleting |
| StatementMeaning.ReadGoesAhead | internal/application/service/queue/router/service.go:278-455 | having read the job, ack and nack go ahead exactly on a running one of that worker or of none; cancel on a pending, scheduled, running or failed one; control retry on a failed or dead-lettered one; promotion on a scheduled one that is due in an active queue of an active tenant |
| StatementMeaning.RefusalsMean | internal/application/service/queue/router/service.go:290-355 | the answers otherwise: no such job in the queue; a status the request does not allow; another worker |
| StatementMeaning.ReadWrites | internal/application/service/queue/router/service.go:278-455 | going ahead, the handler holds the row as it has read it; turned away, it holds nothing; no table changes |
| StatementMeaning.DueSelects | internal/infrastructure/repository/queue/job/repository.go:72-91 | the scheduler's snapshot holds the scheduled jobs due in active queues of active tenants, those due first: all of them, or as many as the limit (100 by default) |
| StatementMeaning.SaveNeeds | internal/application/service/queue/router/service.go:503-522 | a handler can save its copy at any time, one it publishes only once that is due |
| StatementMeaning.SaveWrites | internal/infrastructure/repository/queue/job/repository.go:25-27 | a save writes the one row whole, over whatever is there, or inserts it again unless another job of the queue has its idempotency key; no other row changes |
| StatementMeaning.ChangeMeans | internal/domain/queue/job/model.go:133-237 | the row each handler saves, column by column; a nack dead-letters at the last attempt and otherwise schedules the job after the delay asked for or the default one |
| StatementMeaning.SaveKeeps | internal/application/service/queue/router/service.go:370-372 | after its save the scheduler, and a nack that has put the job back into a queue that is there, goes on holding the row; any other handler is done |
| StatementMeaning.DraftMeans | internal/application/service/queue/router/service.go:115-157 | an enqueue with its queue builds a row dated now, a delay overriding the schedule, unless its key is taken, its project negative, its name blank or its schedule more than a minute past |
| StatementMeaning.TrimmedIsInside | internal/domain/queue/queue/validation.go:8-20 | trimming a name takes white space off both ends, all of it, and nothing else |
| StatementMeaning.LookUpWrites | internal/application/service/queue/router/service.go:104-113 | an enqueue builds its row if its queue is there and not deleting, goes on to create it if it is missing and its name, trimmed, has 1 to 255 characters, and is rejected otherwise |
| StatementMeaning.EnsureWrites | internal/domain/queue/queue/model.go:66-114 | a creation inserts a missing queue with a valid name under the next id, active, with 30 seconds and 25 attempts unless others are given; a row that is there stays |
| StatementMeaning.CreateWrites | internal/application/service/queue/queue/service.go:25-40 | an enqueue that found no queue creates it in the same way, and builds its row for whatever row is there then |
| StatementMeaning.InsertWrites | internal/application/service/queue/router/service.go:159-161 | an insert adds the row unless its key has been taken meanwhile; its handler goes on holding it |
| StatementMeaning.RowMeans | internal/domain/queue/job/model.go:95-130 | the inserted row, column by column |
| StatementMeaning.UpdateReads | internal/application/service/queue/queue/service.go:42-56 | a config update copies a queue that is not deleting and changes the timeout and the attempts asked for, and no other column |
| StatementMeaning.UpdateSaves | internal/infrastructure/repository/queue/queue/repository.go:40-42 | its save writes the whole row over the one with its id, or inserts it; a row recreated under another id stays |
| StatementMeaning.RegisterWrites | internal/application/service/queue/worker/service.go:41-75 | a worker registers exactly if neither its tenant nor one of its queues is deleting |
| StatementMeaning.DropStaleWrites | internal/application/service/queue/cleanup/service.go:210-238 | a stale worker goes exactly if it was last seen before the cutoff and runs no job of its project |
| StatementMeaning.CreateTenantWrites | internal/application/service/tenant/service.go:33-54 | a missing tenant with a positive id becomes active |
| StatementMeaning.PurgeWrites | internal/infrastructure/repository/queue/job/repository.go:247-268 | a purge deletes rows of the given statuses with a terminal time before the cutoff: all of them, or as many as the limit (1000 by default) |
| StatementMeaning.RequestDeleteWrites | internal/application/service/queue/cleanup/service.go:66-94 | a deletion turns a queue deleting unless it is missing, already deleting, or has a pending, scheduled or running job and no force; those jobs are then to be cancelled first |
| StatementMeaning.ForceCancelWrites | internal/infrastructure/repository/queue/job/repository.go:306-317 | the forced cancelling ends the pending, scheduled and running jobs of the queue now, without worker and start time, and touches no other row |
| StatementMeaning.DeleteBatchWrites | internal/infrastructure/repository/queue/job/repository.go:270-286 | a batch deletes jobs of the queue: all of them, or as many as the limit (1000 by default); an empty one ends the loop |
| StatementMeaning.DetachWrites | internal/application/service/queue/cleanup/service.go:333-351 | detaching takes the queue off the list of every worker of the project |
| StatementMeaning.CascadeWrites | internal/application/service/queue/cleanup/service.go:240-268 | the removal of the row ends the cascade; a resumed cascade starts at its batches; a crash loses all cascades |
| StatementMeaning.TenantMarkWrites | internal/application/service/queue/cleanup/service.go:118-143 | a tenant turns deleting once; its cascade marks all queues of the project and lists exactly these |
| StatementMeaning.TenantBatchWrites | internal/infrastructure/repository/queue/job/repository.go:288-304 | a batch deletes jobs of the project: all of them, or as many as the limit (1000 by default); an empty one ends the loop |
| StatementMeaning.TenantDropWrites | internal/application/service/queue/cleanup/service.go:297-331 | the rest of the cascade removes the workers of the project, the listed queues one by one, and then the tenant |
| Storage.Database.UpdateWhere | internal/infrastructure/repository/queue/job/repository.go:306-317 | row by row in any order, exactly the selected rows are rewritten |
| Storage.Database.Create | internal/infrastructure/database/migration/2026080101_dataplane_tables.go:33-38 | inserts the row unless its id or its idempotency key in the queue is taken, and then changes nothing |
| Storage.Database.Save | internal/infrastructure/repository/queue/job/repository.go:25-27 | writes the whole row over the one with its id, or inserts it again if there is none and its idempotency key is not taken |
| Storage.Database.SaveQueue | internal/infrastructure/repository/queue/queue/repository.go:40-42 | writes the whole row over the one with its primary key, inserts it if there is none, and fails on a row recreated under another key |
| Storage.Database.DeleteSome | internal/infrastructure/repository/queue/job/repository.go:247-304 | a batched delete removes exactly min(limit, eligible) eligible rows and no other |
| Storage.Database.FindDueScheduled | internal/infrastructure/repository/queue/job/repository.go:72-91 | returns the (default 100) earliest due jobs of served queues, without repetition, in order |
| Storage.Database.ClaimPending | internal/infrastructure/repository/queue/job/repository.go:101-144 | the statement is one legal claim step, and returns exactly the rows it claimed, as they are stored |
| Storage.Database.ReclaimExpired | internal/infrastructure/repository/queue/job/repository.go:146-203 | the statement is one legal reclaim step; it makes running jobs wait again whose lease began longer ago than the timeout of their queue, queue and tenant being active, whoever holds it: all of them unless the limit (500 by default) binds; no other row changes |
| Storage.Database.ExtendLease | internal/infrastructure/repository/queue/job/repository.go:205-219 | renews exactly the running jobs of the worker, none for an empty worker id |
| Storage.Database.PurgeTerminalBefore | internal/infrastructure/repository/queue/job/repository.go:247-268 | deletes min(limit, qualifying) qualifying rows and nothing else; an empty status list deletes nothing |
| Storage.Database.DeleteByQueue | internal/infrastructure/repository/queue/job/repository.go:270-286 | deletes min(limit, jobs of the queue) of the queue's jobs and nothing else |
| Storage.Database.DeleteByProject | internal/infrastructure/repository/queue/job/repository.go:288-304 | deletes min(limit, jobs of the project) of the project's jobs and nothing else |
| Storage.Database.ForceCancelActiveByQueue | internal/infrastructure/repository/queue/job/repository.go:306-317 | each pending, scheduled or running job of the queue is cancelled now and loses its worker, every other row stays, and no job of the queue is left that is not terminal |
| QueueService.CreateQueue | internal/application/service/queue/queue/service.go:25-40 | inserts a valid queue with defaults, or returns the row that is already there |
| QueueService.Ensure | internal/application/service/queue/queue/service.go:86-98 | returns a queue that is there unless it is deleting; else, after anything others do, creates it or returns the row that is there by then |
| QueueService.UpdateQueueConfig | internal/application/service/queue/queue/service.go:42-63 | is a read and, after anything others do, a save of the changed copy; refused exactly for a missing or deleting queue, changing nothing; afterwards a row not recreated meanwhile is as it was read but for the timeout and the attempts asked for |
| Enqueuing.EnqueueJob | internal/application/service/queue/router/service.go:90-185 | takes the enqueue's own steps in order, with anything others do between them, to the save after publishing, and stops at the first that ends it: refused exactly by the guard, then by the rate gate, changing nothing; an existing job of the key; a deleting queue or an invalid row; a key taken meanwhile; else the request's row is inserted, created between the call and the insert, and saved again exactly if it was due when it came to be published and the broker took it |
| JobHandlers.AckJob | internal/application/service/queue/router/service.go:278-301 | is the guard, then a read, whose first failing check is the answer (no such job, not running, another worker), then a save of the completed copy, with anything others do in between |
| JobHandlers.NackJob | internal/application/service/queue/router/service.go:333-405 | is the guard, then a read, whose first failing check is the answer (no such job, not running, another worker), then a save of the copy retried or dead-lettered; a retried job in a queue that is there is saved once more exactly if it is due at once, by an overflowing default delay, and published |
| JobHandlers.Publish | internal/application/service/queue/router/service.go:503-522 | saves the row once more exactly if it was claimable and the broker took it, after anything others do meanwhile |
| JobHandlers.CancelJob | internal/application/service/queue/router/service.go:438-460 | is the guard, then a read, then a save of the cancelled copy, with anything others do in between; refused exactly for a missing, completed, cancelled or dead-lettered job |
| JobHandlers.RetryJob | internal/application/service/queue/job/service.go:106-140 | is the guard, then a read, then a save of the revived copy, with anything others do in between; refused exactly for a missing job and for one neither failed nor dead-lettered |
| QueueService.HeartbeatWorker | internal/application/service/queue/worker/service.go:77-98 | is one heartbeat step; an unknown worker changes nothing |
| Scheduling.PublishDueScheduled | internal/application/service/queue/router/service.go:574-601 | reads in one snapshot the scheduled jobs that are due in active queues of active tenants, earliest first: all of them, or 100; then, with anything others do in between, takes each in order: gives it up exactly if its queue is gone, else saves it promoted, and unless that is refused saves it again exactly if it was published; no handler is left |
| LongPoll.Dequeue | internal/application/service/queue/router/service.go:188-276 | whatever others do meanwhile: past guard and rate gate it claims at least once before it returns jobs or none, exactly once without a wait and at most ceil(wait / 500 ms) times with one, waiting at most 500 ms after each claim that got nothing; each claim takes min(batch, awaiting) jobs; without a job it returns only once the wait is over or the caller has left; what it returns is what its last claim took, stored, running for the caller under a lease starting now, and followed by its heartbeat; undisturbed it returns min(batch, awaiting) jobs of those awaiting at the start |
| LongPoll.AttemptClaim | internal/application/service/queue/router/service.go:205-232 | one claim of min(batch, awaiting) jobs, followed by a heartbeat exactly when a named worker got something |
| LongPoll.EmptyClaimFoundNothing | internal/application/service/queue/router/service.go:240-258 | at every claim of a poll that took nothing no job of the queue was claimable |
| Cleanup.PurgeableShrinksOverRun | internal/infrastructure/repository/queue/job/repository.go:247-268 | once a cutoff is past, no run makes another row qualify for the purge |
| Cleanup.PurgeAll | internal/application/service/queue/cleanup/service.go:177-207 | for any batch size, choice of rows and interference the loop stops with no qualifying row left; undisturbed it equals one set deletion |
| Cleanup.PurgeTerminalJobs | internal/application/service/queue/cleanup/service.go:169-208 | both loops stop; no completed or cancelled row past its cutoff and no failed or dead-lettered row past its own is left; every batch is of the one kind and cutoff or the other; undisturbed nothing else is touched |
| Cleanup.StepKeepsCascade | internal/application/service/queue/cleanup/service.go:240-268 | no step of anyone else moves a cascade in flight, adds to the jobs of its queue and those expected, or lists a detached queue again |
| Cleanup.CascadeQueue | internal/application/service/queue/cleanup/service.go:240-268 | with any steps of others between its statements the cascade is some non-empty batches, an empty one, the detaching and the removal of the row, the batches at most as many as the jobs, inserts and saves that can still come at its start; row and listings are gone; a job that is left or still to come was expected when the last batch found the queue empty |
| Cleanup.DetachQueueFromWorkers | internal/application/service/queue/cleanup/service.go:333-351 | every worker of the project, and no other, loses the queue from its list |
| Cleanup.RequestDeleteQueue | internal/application/service/queue/cleanup/service.go:66-116 | refuses exactly a missing queue, one already deleting, and, without force, one with a pending, scheduled or running job, changing nothing; otherwise marks it, cancels those jobs if there are any, and finishes the deletion exactly if no job is left then, else leaves its cascade in flight; after a finished one, jobs left or still to come were expected at its last batch, and near when the request came |
| TenantCleanup.StepKeepsTenantCascade | internal/application/service/queue/cleanup/service.go:270-331 | no step of anyone else moves a tenant cascade in flight or adds to its project's jobs, those expected and workers; nor to its queue rows, once nothing is under way that could |
| TenantCleanup.CascadeTenant | internal/application/service/queue/cleanup/service.go:270-331 | with any steps of others between its statements the tenant cascade stops after at most jobs + inserts and saves that can still come + queues + 4 statements of its own; tenant and workers are gone; a job that is left or still to come was expected when the last batch found no job; no queue row is left if no enqueue or config update was under way at the start and nobody creates queues of the project directly |
| TenantCleanup.MarkEach | internal/application/service/queue/cleanup/service.go:270-331 | every queue of the project, and no other, turns deleting |
| TenantCleanup.RequestDeleteTenant | internal/application/service/queue/cleanup/service.go:118-143 | is one step that puts the cascade in flight, unless the tenant is missing or already deleting |
| Container.OrderedBuildIsSound | internal/bootstrap/container/container.go:35-61 | if services can be listed so that each comes after its dependencies, nothing reachable from any of them is a cycle or a missing factory |
| Container.ChainDescends | internal/bootstrap/container/container.go:35-61 | along any dependency path through newly built services the build position strictly falls |
| Container.DependenciesFirst | internal/bootstrap/container/container.go:35-61 | a service is built after everything it depends on, directly or not |
| Container.ShutdownOrder | internal/bootstrap/container/container.go:77-87 | in reverse order a lifecycle service comes before every lifecycle service it depends on, directly or not |
| Container.Container.Get | internal/bootstrap/container/container.go:35-61 | terminates; what it builds, in which order, and what it reports are those of the depth-first visit in the order the factories ask; success builds in dependency order and wires to what was there; failure comes with a path from the request to a missing factory or back onto itself, matching the error; either way the initializing marks are restored |
| Container.Container.Resolve | internal/bootstrap/container/container.go:35-61 | an outside request succeeds if and only if no cycle and no missing factory is reachable up to services already built; no type is built twice; dependencies are built depth first, in the order the factories ask for them, up to the first failure, which is the one reported |
| Container.Container.RegisterInstance | internal/bootstrap/container/container.go:31-33 | handing an instance in keeps everything already built consistent |
| Container.Container.Shutdown | internal/bootstrap/container/container.go:77-87 | visits every lifecycle service once, dependents before dependencies, and reports the last failure |
| CanonicalJson.EscapeIsPrefixFree | internal/api/http/middleware/auth/token_request.go:162-166 | no character's encoding starts another's, and none starts with the closing quote |
| CanonicalJson.QuoteIsUnique | internal/api/http/middleware/auth/token_request.go:162-166 | a quoted string can be read back in one way only, whatever follows |
| CanonicalJson.EscapeCodes | internal/api/http/middleware/auth/token_request.go:162-166 | the code of every character: the two-character escapes of section 7 of RFC 8259 save the solidus, four lower-case hexadecimal digits for the other control characters, <, >, &, U+2028 and U+2029, itself for the rest |
| CanonicalJson.AscendingIsUnique | internal/api/http/middleware/auth/token_request.go:151-155 | sorting makes the key order a function of the key set |
| CanonicalJson.LessMeans | internal/api/http/middleware/auth/token_request.go:151-155 | a key comes first if it is a proper prefix, or has the smaller character where the two first differ |
| CanonicalJson.TextMeans | internal/api/http/middleware/auth/token_request.go:148-194 | the text of a value: literals, numbers and quoted strings as they are; items in their order and members in ascending order of their keys, with commas between them, a colon after each key, and no white space |
| CanonicalJson.TextIsUnique | internal/api/http/middleware/auth/token_request.go:148-194 | a canonical text followed by a delimiter determines the nested value and where it ends |
| CanonicalJson.SameTextIff | internal/api/http/middleware/auth/token_request.go:133-146 | two values have the same canonical text if and only if they are equal as JSON values, members unordered as in section 4 of RFC 8259 |
| CanonicalJson.SortStrings | internal/api/http/middleware/auth/token_request.go:151-155 | keys taken from a map in any order end up in the one ascending order |
| CanonicalJson.WriteCanonicalJSON | internal/api/http/middleware/auth/token_request.go:148-194 | the recursive writer appends exactly the canonical text and keeps what the buffer held |
| CanonicalJson.CanonicalJSON | internal/api/http/middleware/auth/token_request.go:135-146 | returns exactly the canonical text of the decoded value |
| RateLimiter.FixedWindowLimiter.Allow | internal/domain/messaging/backpressure/ratelimit.go:43-64 | decision and new window are those of the window automaton, which DecisionMeans says in full |
| RateLimiter.FixedWindowLimiter.constructor | internal/domain/messaging/backpressure/ratelimit.go:23-32 | negative limits become 0, the window is one second and starts empty at creation |
| RateLimiter.DecisionMeans | internal/domain/messaging/backpressure/ratelimit.go:43-64 | without a limit every call is admitted; at the end of a window or later a call opens the next one and is its first; before it a call is admitted and counted exactly while fewer than the limit have been |
| RateLimiter.WindowBound | internal/domain/messaging/backpressure/ratelimit.go:43-64 | any half-open interval of one window's length holds at most 2L admissions |
| RateLimiter.WindowBoundIsReached | internal/domain/messaging/backpressure/ratelimit.go:43-64 | for every limit and window above one tick some run reaches 2L |
| RateLimiter.RunBound | internal/domain/messaging/backpressure/ratelimit.go:43-64 | from creation t0 to t at most L (floor((t - t0) / W) + 1) calls are admitted |
| RateLimiter.RefusedIff | internal/domain/messaging/backpressure/ratelimit.go:57-59 | a call is refused if and only if the current window is still open and has seen exactly L admissions |
| RateLimiter.UnderTheLimitIsAdmitted | internal/domain/messaging/backpressure/ratelimit.go:43-64 | fewer than L admissions in the last window's length guarantee admission |
| RateLimiter.ProjectLimiter.Allow | internal/domain/messaging/backpressure/ratelimit.go:80-94 | decision and registry are those of the project's own limiter, replaced when missing or when the limit changed; projects never share one |
| RateLimiter.ServeMeans | internal/domain/messaging/backpressure/ratelimit.go:80-94 | a call without a limit leaves no trace; a project's first call, or first with another limit, is admitted and counted by a new limiter; any other is decided by the limiter there is; other projects' limiters stay |
| RateLimiter.ProjectsAreIsolated | internal/domain/messaging/backpressure/ratelimit.go:80-94 | a project gets the same answers, and ends with the same limiter, as if no other project had called |
| RateLimiter.ProjectBound | internal/domain/messaging/backpressure/ratelimit.go:80-94 | a project with an unchanging limit is admitted at most twice its limit in any second, whatever others do |
| SubscriptionIndex.LookupIsScan | internal/infrastructure/repository/messaging/subscription/repository.go:169-195 | the reverse lookup equals a scan of the whole forward map |
| SubscriptionIndex.FindableIds | internal/infrastructure/repository/messaging/subscription/repository.go:250-263 | the ids in the forward map are exactly the keys of the reverse map |
| SubscriptionIndex.ReverseIsDetermined | internal/infrastructure/repository/messaging/subscription/repository.go:13-20 | one forward map has exactly one agreeing reverse map |
| SubscriptionIndex.Repository.AddToChannel | internal/infrastructure/repository/messaging/subscription/repository.go:33-63 | adds exactly one pair and refreshes the activity; a nil or closed subscription is refused without change; the maps stay inverse; ids stay distinct if and only if no other stored subscription has this one's id |
| SubscriptionIndex.Repository.RemoveFromChannel | internal/infrastructure/repository/messaging/subscription/repository.go:66-106 | removes exactly the pair; a missing channel is an error that changes nothing; the maps stay inverse without empty sets |
| SubscriptionIndex.Repository.RemoveSubscriptionFromAll | internal/infrastructure/repository/messaging/subscription/repository.go:110-141 | removes exactly the pairs of the subscription, keeping the maps inverse without empty sets |
| SubscriptionIndex.Repository.GetAllChannelsForSubscription | internal/infrastructure/repository/messaging/subscription/repository.go:169-195 | lists each channel that holds the subscription once, and refreshes its activity only if there is one |
| SubscriptionIndex.Repository.CleanClosedSubscriptions | internal/infrastructure/repository/messaging/subscription/repository.go:199-247 | leaves exactly the pairs whose subscription was open and recent, returns the number of pairs removed, and closes exactly the subscriptions it removes |
| SubscriptionIndex.Repository.FindByID | internal/infrastructure/repository/messaging/subscription/repository.go:250-263 | finds a stored subscription with the id if and only if the id is in the reverse map |
| Egress.FirstInFirstOut | internal/application/service/messaging/egress/pipeline.go:95-133 | in every interleaving what reached Send followed by the queue is the accepted sequence; the queue stays within capacity |
| Egress.Conservation | internal/application/service/messaging/egress/pipeline.go:95-120 | in every interleaving non-empty payloads offered = handed to Send + queued + dropped + refused + still waiting |
| Egress.SlowConsumerIff | internal/application/service/messaging/egress/pipeline.go:176-183 | a set callback fires exactly on drops that bring the drops since the last successful Send to the threshold or beyond |
| Egress.AfterStop | internal/application/service/messaging/egress/pipeline.go:89-133 | after Stop only payloads already waiting can still be accepted, and after the writer has left nothing is sent |
| Egress.WriterNeverStuck | internal/application/service/messaging/egress/pipeline.go:122-133 | a living writer with something queued, or stopped, always has a move |
| Egress.Pipeline.constructor | internal/application/service/messaging/egress/pipeline.go:53-81 | capacity and threshold below 1 become 256 and 10; the pipeline starts empty |
| Egress.Pipeline.Enqueue | internal/application/service/messaging/egress/pipeline.go:95-107 | the first select: empty payloads vanish, a stopped pipeline refuses, anything else waits |
| Egress.Pipeline.FinishEnqueue | internal/application/service/messaging/egress/pipeline.go:109-119 | the blocking select refuses, accepts or drops according to the ready case taken, and fires the callback exactly as the automaton says |
| Egress.Pipeline.WriterTurn | internal/application/service/messaging/egress/pipeline.go:122-133 | takes the oldest payload, or leaves once stopped |
| Egress.Pipeline.Delivered | internal/application/service/messaging/egress/pipeline.go:135-160 | only a successful Send resets the count of drops |
| Base62.ValueOfDigits | internal/shared/id/generator.go:105-159 | decoding the k-digit code of n gives n modulo 62^k |
| Base62.DigitsOfValue | internal/shared/id/generator.go:105-159 | every code is the code of its value, which is below 62^k |
| Base62.OrderPreserved | internal/shared/id/generator.go:105-134 | below 62^k codes sort as the numbers do, both ways |
| Base62.EncodeFixed | internal/shared/id/generator.go:105-134 | the loops yield the last digits of the number, padded or truncated to the width; negative numbers give the empty code |
| Base62.AlphabetMeans | internal/shared/id/generator.go:101 | the 62 digits are 0-9, A-Z and a-z in this order |
| Base62.IndexOf | internal/shared/id/generator.go:141-150 | the scan finds the digit of a character exactly when it is in the alphabet |
| Base62.Decode | internal/shared/id/generator.go:137-159 | fails exactly on a foreign character; otherwise gives the value of the code modulo 2^64 |
| Base62.HashRoundTrip | internal/shared/id/generator.go:48-63 | at width 11 or more every non-negative 64-bit int comes back, and no prefix on the way exceeds it |
| Base62.ParseRoundTripIff | internal/shared/id/generator.go:53-63 | at width 11 or more a hash is the hash of what it parses to if and only if its value fits in a 64-bit int |
| Base62.HashID | internal/shared/id/generator.go:48-50 | hashing encodes at the configured width |
| Base62.ParseHashID | internal/shared/id/generator.go:53-63 | succeeds exactly on codes of the configured width |

## Left out

- HTTP and WebSocket handlers, NATS, Redis and GORM: only the relational meaning of the SQL is kept; database errors do not occur.
- The broker is a yes or no for each publication. The sequence number it returns, and the refresh of updated_at that a save brings, are columns nothing reads; telemetry, logs, webhooks and metadata (`UpdateProgress`) decide no job's status. The save of the whole row after a publication is modelled.
- The rate gate inside Enqueue and Dequeue is a boolean parameter; execution profiles and their webhook fields are not modelled.
- Rows locked by another transaction, which a claim skips: a statement sees every row.
- One step each: the guard's two reads; an enqueue's look for its queue, or its creation with the read of the row, together with the lookup of the idempotency key; a nack's save with its lookup of the queue; a deletion request's read, count and mark; a tenant cascade's listing and marking of queues.
- A handler's clock is read when it saves, not before. `PurgeableShrinksOverRun`, and with it what `PurgeAll` and `PurgeTerminalJobs` leave under interference, rests on this: in the code a row can be saved with a terminal time slightly past.
- Worker rows are written in one step with the reads they follow from: a registration with its guard, a heartbeat with its read and its lease extension, a detach with its list of workers. A heartbeat saved across a detach would list the queue again: the clauses on workers and their listings in `DropRowLeavesNothing`, `TenantBarrierStep`, `CascadeQueue` and `CascadeTenant` rest on this.
- Two cascades of the same queue at once (a row revived and deleted again, or a resume beside a cascade), a tenant cascade beside a cascade of one of its queues, and the tenant service's Ensure (it writes an active status over a deleting one): excluded steps. `OverlapStrands` shows why the first must be.
- Job ids are never reused, as ULIDs are not; timestamps have no rounding; white space and name lengths are counted in characters, not bytes.
- Schedule leader election: mutual exclusion is not a property of that code.
- The channel service's local subscription counter: it is decremented without a membership test and does not equal the index.
- "No claim after deleting": not a property of the long poll, which checks the guard once.
- Worker registration, stale-worker removal, tenant creation, resuming cascades and crashes are steps of the model without a method of their own.
- API keys, limits rows, list and count queries, DTOs, configuration.
- Registering a factory from within a factory, failing constructors and failing Initialize calls of the container; services are identified by their type.
- JSON decoding (duplicate keys, number parsing) and invalid UTF-8; a number is held as the text the encoder prints for it.
- GetAllLocalForChannel of the subscription index; the send channels and the payload delivery of subscriptions.
- Data races: each limiter call, subscription operation and egress move is atomic. The nil limiter, which always allows, is not modelled.
- ULID generation and parsing.
- JobGuarantees.ClaimAccounting: needs a history without a lost update of the job, as do RetryBound, NackDeadLettersIff, CompletesOnce and BackoffOverRuns; `LateNackBreaksAccounting` shows a run with one, `LostIff` says what one is.
- Timing.NotClaimedBefore: needs a run without a stale save of the job, as does NackHoldsOff, because such a save can write any row the job has had over the schedule.
- Timing.NackHoldsOff: needs the same.
- Timing.FirstInFirstOut: is about jobs that were never nacked and lost no update, because a nack gives a job a schedule, and jobs without one go first.
- JobGuarantees.RetryBound: needs the same as ClaimAccounting.
- JobGuarantees.NackDeadLettersIff: needs the same as ClaimAccounting.
- JobGuarantees.CompletesOnce: needs the same as ClaimAccounting.
- JobGuarantees.FinalForever: needs that no handler holds a copy of the job; `FinalHoldsIff` makes this exact.
- JobGuarantees.BackoffOverRuns: holds for MaxAttempts up to 12399 only, because the delay overflows past that; `BackoffHoldsIff` makes the limit exact among histories without a lost update.
- Stranding.NoJobIsStranded: needs every removed row to be of a queue with no jobs and none incoming, because the code holds neither enqueues nor handlers off; `NothingStrandedIff` makes the condition exact and `Races.dfy` has the failing runs.
- Cleanup.CascadeQueue: assumes that no config update of the row was under way when the queue was marked, because one can revive the queue; `LoopNeedNotStop` shows that the loop then need not stop.
- Cleanup.RequestDeleteQueue: assumes the same, and that no other cascade of the queue is in flight, the excluded overlap above.
- Cleanup.PurgeTerminalJobs: under interference it needs retentions that are not negative, because with a cutoff in the future others can keep adding rows to delete; `PurgeNeedNotStop` is the run.
- TenantCleanup.CascadeTenant: assumes no cascade of one of the project's queues is in flight when it starts, the excluded overlap above.
- SubscriptionIndex.Repository.RemoveFromChannel: assumes, like the other operations that remove or look up, that no two stored subscriptions have the same id, which generated ids give; `AddToChannel` says when that stays so.
- Egress.Pipeline.Enqueue: the blocking select is a separate member, so that anything can happen between the two; the timer is a choice, not a clock.
