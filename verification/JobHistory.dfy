/** What happens to one job over a whole run.

    `FateOf` classifies what a step does to a job, `StepRow` shows that the job's row changes by
    exactly that transition and only when the transition is legal, and `HistoryOf` counts the fates
    of a run.  `HistoryInvariant` ties the stored row to the history; the theorems about claims,
    retries, back-off, leases and fencing are read off it. */
module JobHistory {
  import opened Wrappers
  import opened JobModel
  import opened QueueState
  import opened QueueSteps
  import opened StepEquations

  datatype Fate =
    | Untouched
    | Created(row: Job)
    | Claimed(worker: string)
    | Acked(worker: string, result: string)
    | Retried(worker: string, delay: int, byDefault: bool)
    | DeadLettered(worker: string, reason: string)
    | Withdrawn
    | ForceWithdrawn
    | Reclaimed
    | Revived
    | Promoted
    | Extended
    | Removed
    | Overwritten(row: Job)

  function Lookup(s: State, id: JobId): Option<Job> {
    if id in s.jobs then Some(s.jobs[id]) else None
  }

  /** What a handler does to a job that has not changed since it read it. */
  function FateOfChange(c: Copy): Fate {
    match c.change
    case Completing(worker, result) => Acked(worker, result)
    case Failing(worker, reason, retryDelay) =>
      if c.read.CanRetry() then Retried(worker, NackDelay(c.read.attempt, retryDelay), retryDelay <= 0)
      else DeadLettered(worker, reason)
    case Cancelling => Withdrawn
    case Reviving => Revived
    case Promoting => Promoted
    case Republishing => Untouched
  }

  /** What the save of a copy does to its job: what the handler meant, if the job is still as it was
      read; otherwise the copy overwrites what has happened since, or brings a deleted row back. */
  function FateOfSave(s: State, c: Copy): Fate {
    if Lookup(s, c.id) == Some(c.read) then FateOfChange(c)
    else if Storable(s, c) then Overwritten(c.change.Of(c.read, s.now))
    else Untouched
  }

  ghost function FateOf(s: State, e: Event, id: JobId): Fate {
    if !Enabled(s, e) then Untouched else
    match e
    case EnqueueInsert(i, _) => if i == id && Insertable(s, id) then Created(s.requests[id].Row()) else Untouched
    case Claim(_, worker, _, picked) => if id in picked then Claimed(worker) else Untouched
    case JobSave(token) => if s.copies[token].id == id then FateOfSave(s, s.copies[token]) else Untouched
    case Reclaim(_, picked) => if id in picked then Reclaimed else Untouched
    case Heartbeat(project, worker) =>
      if worker in s.workers && s.workers[worker].project == project && worker != ""
         && id in LeasesOf(s.jobs, project, worker)
      then Extended else Untouched
    case ForceCancel(key) => if id in ActiveJobsOf(s.jobs, key) then ForceWithdrawn else Untouched
    case Purge(_, _, _, picked) => if id in picked then Removed else Untouched
    case DeleteBatch(_, _, picked) => if id in picked then Removed else Untouched
    case TenantDeleteBatch(_, _, picked) => if id in picked then Removed else Untouched
    case _ => Untouched
  }

  /** The row a fate leaves. */
  ghost function After(f: Fate, row: Option<Job>, now: int): Option<Job>
    requires row.None? ==> f.Untouched? || f.Created? || f.Removed? || f.Overwritten?
  {
    match f
    case Untouched => row
    case Created(j) => Some(j)
    case Claimed(worker) => Some(SqlClaimed(row.value, worker, now))
    case Acked(_, result) => Some(AsCompleted(row.value, result, now))
    case Retried(_, delay, _) => Some(AsRetry(row.value, delay, now))
    case DeadLettered(_, reason) => Some(AsDlq(row.value, reason, now))
    case Withdrawn => Some(AsCancelled(row.value, now))
    case ForceWithdrawn => Some(SqlForceCancelled(row.value, now))
    case Reclaimed => Some(SqlReclaimed(row.value, now))
    case Revived => Some(AsRevived(row.value, now))
    case Promoted => Some(AsPromoted(row.value, now))
    case Extended => Some(SqlExtended(row.value, now))
    case Removed => None
    case Overwritten(j) => Some(j)
  }

  /** When a fate may befall a row. */
  ghost predicate RowLegal(f: Fate, row: Option<Job>, issued: bool, now: int) {
    match f
    case Untouched => true
    case Created(j) =>
      !issued && j.WellShaped() && j.attempt == 0 && (j.status.Pending? || j.status.Scheduled?)
    case Removed => row.Some?
    case Claimed(_) => row.Some? && SqlClaimable(row.value, now)
    case Acked(worker, _) => row.Some? && row.value.status.Running? && WorkerAllowed(row.value, worker)
    case Retried(worker, delay, byDefault) =>
      && row.Some? && row.value.status.Running? && WorkerAllowed(row.value, worker) && row.value.CanRetry()
      && (byDefault ==> delay == DefaultBackoff(row.value.attempt))
      && (!byDefault ==> delay > 0)
    case DeadLettered(worker, _) =>
      row.Some? && row.value.status.Running? && WorkerAllowed(row.value, worker) && !row.value.CanRetry()
    case Withdrawn => row.Some? && (row.value.status.IsActive() || row.value.status.Failed?)
    case ForceWithdrawn => row.Some? && row.value.status.IsActive()
    case Reclaimed => row.Some? && row.value.status.Running?
    case Revived => row.Some? && (row.value.status.Failed? || row.value.status.Dlq?)
    case Promoted => row.Some? && row.value.status.Scheduled?
    case Extended => row.Some? && row.value.status.Running? && row.value.workerId != ""
    case Overwritten(j) =>
      && issued && (row.Some? ==> j.SameIdentity(row.value))
      && !j.status.Running? && (j.terminalAt.None? || j.terminalAt == Some(now))
  }

  ghost predicate Legal(s: State, f: Fate, id: JobId) {
    && RowLegal(f, Lookup(s, id), id in s.issued, s.now)
    && (f.Reclaimed? ==> id in s.jobs && LeaseExpired(s, s.jobs[id]))
  }

  /** A step changes a job's row by the transition of its fate, and only when that is legal; an id
      enters `issued` exactly when its job is created. */
  ghost predicate Explained(s: State, e: Event, id: JobId) {
    var f, t := FateOf(s, e, id), Step(s, e);
    && Legal(s, f, id)
    && Lookup(t, id) == After(f, Lookup(s, id), s.now)
    && (id in t.issued <==> id in s.issued || f.Created?)
    && t.now >= s.now
    && (!f.Untouched? ==> t.now == s.now)
  }

  // ---- what each step does to one row ----

  lemma StepRowSweep(s: State, e: Event, id: JobId)
    requires e.Tick? || e.Purge?
    ensures Explained(s, e, id)
  {
    hide Step, Enabled;
    StepOfSweep(s, e);
  }

  /** The insert goes through. */
  ghost predicate Inserts(s: State, e: Event) {
    e.EnqueueInsert? && Enabled(s, e) && Insertable(s, e.id)
  }

  lemma FateOfInsert(s: State, e: Event, id: JobId)
    requires e.EnqueueInsert?
    ensures FateOf(s, e, id) == if e.id == id && Inserts(s, e) then Created(s.requests[id].Row()) else Untouched
  {
    hide Step, Request.Row, ByIdempotencyKey;
    StepOfInsert(s, e);
  }

  lemma StepRowInsert(s: State, e: Event, id: JobId)
    requires e.EnqueueInsert?
    ensures Explained(s, e, id)
  {
    hide Explained, Inserts;
    if e.id == id && Inserts(s, e) {
      InsertIsExplained(s, e);
    } else if Inserts(s, e) {
      OtherInsert(s, e, id);
    } else {
      RefusedInsert(s, e, id);
    }
  }

  lemma RefusedInsert(s: State, e: Event, id: JobId)
    requires e.EnqueueInsert? && !Inserts(s, e)
    ensures Explained(s, e, id)
  {
    hide Step, Enabled, FateOf, Insertable, Explained, Without, Request.Row;
    FateOfInsert(s, e, id);
    StepOfInsert(s, e);
    UntouchedIsExplained(s, e, id);
  }

  lemma OtherInsert(s: State, e: Event, id: JobId)
    requires e.EnqueueInsert? && e.id != id && Inserts(s, e)
    ensures Explained(s, e, id)
  {
    hide Step, Enabled, FateOf, ByIdempotencyKey, Request.Row, Without;
    FateOfInsert(s, e, id);
    StepOfInsert(s, e);
  }

  lemma InsertIsExplained(s: State, e: Event)
    requires e.EnqueueInsert? && Inserts(s, e)
    ensures Explained(s, e, e.id)
  {
    hide Step, Enabled, FateOf, ByIdempotencyKey, NewJob, Without, Job.WellShaped;
    FateOfInsert(s, e, e.id);
    StepOfInsert(s, e);
  }

  lemma StepRowClaim(s: State, e: Event, id: JobId)
    requires e.Claim?
    ensures Explained(s, e, id)
  {
    hide Step, Enabled;
    StepOfClaim(s, e);
  }

  lemma StepRowReclaim(s: State, e: Event, id: JobId)
    requires e.Reclaim?
    ensures Explained(s, e, id)
  {
    hide Step, Enabled;
    StepOfReclaim(s, e);
  }

  lemma StepRowSave(s: State, e: Event, id: JobId)
    requires e.JobSave?
    ensures Explained(s, e, id)
  {
    hide Explained, Enabled;
    if Enabled(s, e) && e.token in s.copies && s.copies[e.token].id == id {
      SaveIsExplained(s, e);
    } else {
      SaveElsewhere(s, e, id);
      UntouchedIsExplained(s, e, id);
    }
  }

  lemma SaveIsExplained(s: State, e: Event)
    requires e.JobSave? && Enabled(s, e) && e.token in s.copies
    ensures Explained(s, e, s.copies[e.token].id)
  {
    hide Step, Enabled, FateOf, FateOfSave, RowLegal, JobsSaved;
    SaveFrame(s, e);
    SaveIsLegal(s, s.copies[e.token]);
    FateOfSaveEvent(s, e);
  }

  lemma SaveFrame(s: State, e: Event)
    requires e.JobSave? && Enabled(s, e) && e.token in s.copies
    ensures Step(s, e).jobs == JobsSaved(s, s.copies[e.token])
    ensures Step(s, e).issued == s.issued && Step(s, e).now == s.now && s.copies[e.token].id in s.issued
    ensures s.copies[e.token].id in s.jobs ==> s.copies[e.token].read.SameIdentity(s.jobs[s.copies[e.token].id])
  {
    hide *;
    StepOfSave(s, e);
  }

  lemma UntouchedIsExplained(s: State, e: Event, id: JobId)
    requires FateOf(s, e, id).Untouched? && Lookup(Step(s, e), id) == Lookup(s, id)
    requires Step(s, e).issued == s.issued && Step(s, e).now >= s.now
    ensures Explained(s, e, id)
  {
    hide Step, FateOf;
  }

  lemma FateOfSaveEvent(s: State, e: Event)
    requires e.JobSave? && Enabled(s, e)
    ensures e.token in s.copies
    ensures FateOf(s, e, s.copies[e.token].id) == FateOfSave(s, s.copies[e.token])
  {
    hide FateOfSave;
  }

  lemma SaveElsewhere(s: State, e: Event, id: JobId)
    requires e.JobSave? && !(Enabled(s, e) && e.token in s.copies && s.copies[e.token].id == id)
    ensures FateOf(s, e, id).Untouched? && Lookup(Step(s, e), id) == Lookup(s, id)
    ensures Step(s, e).issued == s.issued && Step(s, e).now == s.now
  {
    hide Step, Enabled, FateOfSave, Storable, Change.Of, CopiesSaved;
    StepOfSave(s, e);
  }

  /** The save writes the row of its fate, and the fate is a legal one. */
  lemma SaveIsLegal(s: State, c: Copy)
    requires c.id in s.issued && (c.id in s.jobs ==> c.read.SameIdentity(s.jobs[c.id]))
    ensures
      var f, t := FateOfSave(s, c), s.(jobs := JobsSaved(s, c));
      RowLegal(f, Lookup(s, c.id), true, s.now) && Lookup(t, c.id) == After(f, Lookup(s, c.id), s.now) && !f.Created?
      && !f.Reclaimed?
  {
    hide DefaultBackoff, ByIdempotencyKey;
  }

  lemma StepRowHeartbeat(s: State, e: Event, id: JobId)
    requires e.Heartbeat?
    ensures Explained(s, e, id)
  {
    hide Step, Enabled;
    StepOfHeartbeat(s, e);
  }

  lemma StepRowForceCancel(s: State, e: Event, id: JobId)
    requires e.ForceCancel?
    ensures Explained(s, e, id)
  {
    hide Step, Enabled;
    StepOfForceCancel(s, e);
  }

  lemma StepRowDeleteBatch(s: State, e: Event, id: JobId)
    requires e.DeleteBatch?
    ensures Explained(s, e, id)
  {
    hide Step, Enabled;
    StepOfDeleteBatch(s, e);
  }

  lemma StepRowTenantDeleteBatch(s: State, e: Event, id: JobId)
    requires e.TenantDeleteBatch?
    ensures Explained(s, e, id)
  {
    hide Step, Enabled;
    StepOfTenantDeleteBatch(s, e);
  }

  /** The events that leave the jobs table and the clock alone. */
  predicate Administrative(e: Event) {
    || e.EnqueueAdmit? || e.EnqueueDraft? || e.EnqueueCreate? || e.EnqueueAbandon?
    || e.JobVisit? || e.JobRead? || e.JobAbandon?
    || e.EnsureQueue? || e.UpdateRead? || e.UpdateSave? || e.UpdateAbandon?
    || e.CreateTenant? || e.RegisterWorker? || e.DropStaleWorker?
    || e.RequestDelete? || e.Detach? || e.DropRow? || e.Resume? || e.RequestDeleteTenant?
    || e.TenantMark? || e.TenantDropWorkers? || e.TenantDropQueue? || e.TenantDropRow?
    || e.ResumeTenant? || e.Crash?
  }

  ghost predicate SameJobs(s: State, t: State) {
    t.jobs == s.jobs && t.issued == s.issued && t.now == s.now
  }

  lemma RequestKeepsJobs(s: State, e: Event)
    requires Administrative(e) && RequestEvent(e)
    ensures SameJobs(s, Step(s, e))
  {
    hide Step;
    if EnqueueEvent(e) {
      EnqueueFrame(s, e);
    } else {
      EntryFrame(s, e);
    }
  }

  lemma CascadeKeepsJobs(s: State, e: Event)
    requires Administrative(e) && (QueueCascadeEvent(e) || TenantCascadeEvent(e))
    ensures SameJobs(s, Step(s, e))
  {
    hide Step, Enabled, SameJobs;
    if e.RequestDelete? || e.TenantMark? {
      MarkKeepsJobs(s, e);
    } else if QueueCascadeEvent(e) {
      CascadeStatementKeepsJobs(s, e);
    } else {
      TenantStatementKeepsJobs(s, e);
    }
  }

  lemma MarkKeepsJobs(s: State, e: Event)
    requires e.RequestDelete? || e.TenantMark?
    ensures SameJobs(s, Step(s, e))
  {
    hide Step, Enabled, ActiveJobsOf, QueuesOf;
    if e.RequestDelete? { StepOfRequestDelete(s, e); } else { StepOfTenantMark(s, e); }
  }

  lemma CascadeStatementKeepsJobs(s: State, e: Event)
    requires e.Detach? || e.DropRow? || e.Resume? || e.Crash?
    ensures SameJobs(s, Step(s, e))
  {
    hide Step, Enabled, DetachedWorkers, Without;
    StepOfCascade(s, e);
  }

  lemma TenantStatementKeepsJobs(s: State, e: Event)
    requires e.RequestDeleteTenant? || e.ResumeTenant? || e.TenantDropWorkers? || e.TenantDropQueue? || e.TenantDropRow?
    ensures SameJobs(s, Step(s, e))
  {
    hide Step, Enabled, Without;
    if e.RequestDeleteTenant? || e.ResumeTenant? { StepOfTenantRequest(s, e); } else { StepOfTenantDrop(s, e); }
  }

  lemma StepAdministrative(s: State, e: Event)
    requires Administrative(e)
    ensures SameJobs(s, Step(s, e))
  {
    hide Step;
    if JobEvent(e) {
      JobEventFrame(s, e);
    } else if RequestEvent(e) {
      RequestKeepsJobs(s, e);
    } else {
      CascadeKeepsJobs(s, e);
    }
  }

  lemma StepRowAdministrative(s: State, e: Event, id: JobId)
    requires Administrative(e)
    ensures Explained(s, e, id)
  {
    hide Step, Enabled;
    StepAdministrative(s, e);
  }

  lemma StepRow(s: State, e: Event, id: JobId)
    ensures Explained(s, e, id)
  {
    hide Explained;
    if Administrative(e) { StepRowAdministrative(s, e, id); }
    if e.Tick? || e.Purge? { StepRowSweep(s, e, id); }
    if e.EnqueueInsert? { StepRowInsert(s, e, id); }
    if e.Claim? { StepRowClaim(s, e, id); }
    if e.JobSave? { StepRowSave(s, e, id); }
    if e.Reclaim? { StepRowReclaim(s, e, id); }
    if e.Heartbeat? { StepRowHeartbeat(s, e, id); }
    if e.ForceCancel? { StepRowForceCancel(s, e, id); }
    if e.DeleteBatch? { StepRowDeleteBatch(s, e, id); }
    if e.TenantDeleteBatch? { StepRowTenantDeleteBatch(s, e, id); }
  }

  // ---- histories ----

  /** What a run did to one job.  `holder` is the worker of the latest claim while that claim has not
      ended, `touched` the time of that claim or of its latest lease extension, `quadratic` whether
      every nack so far left the delay to the default, `lost` whether a save has written over a change
      that its handler had not seen. */
  datatype History = History(
    created: Option<Job>,
    claims: nat,
    retries: nat,
    reclaims: nat,
    acks: nat,
    deadLetters: nat,
    cancels: nat,
    revivals: nat,
    firstClaim: Option<int>,
    holder: Option<string>,
    touched: int,
    quadratic: bool,
    outcome: Option<(string, int)>,
    lost: bool)

  const Unborn: History := History(None, 0, 0, 0, 0, 0, 0, 0, None, None, 0, true, None, false)

  ghost function Record(h: History, f: Fate, running: bool, now: int): History {
    match f
    case Created(j) => h.(created := Some(j))
    case Claimed(worker) =>
      h.(claims := h.claims + 1, holder := Some(worker), touched := now,
         firstClaim := if h.firstClaim.Some? then h.firstClaim else Some(now))
    case Acked(_, result) => h.(acks := h.acks + 1, holder := None, outcome := Some((result, now)))
    case Retried(_, _, byDefault) =>
      h.(retries := h.retries + 1, holder := None, quadratic := h.quadratic && byDefault)
    case DeadLettered(_, reason) => h.(deadLetters := h.deadLetters + 1, holder := None, outcome := Some((reason, now)))
    case Withdrawn => h.(cancels := h.cancels + (if running then 1 else 0), holder := None)
    case ForceWithdrawn => h.(cancels := h.cancels + (if running then 1 else 0), holder := None)
    case Reclaimed => h.(reclaims := h.reclaims + 1, holder := None)
    case Revived => h.(revivals := h.revivals + 1)
    case Extended => h.(touched := now)
    case Overwritten(_) => h.(lost := true, holder := None)
    case _ => h
  }

  predicate IsRunning(row: Option<Job>) {
    row.Some? && row.value.status.Running?
  }

  ghost function HistoryOf(s0: State, es: seq<Event>, id: JobId): History {
    if es == [] then Unborn
    else
      var s, e := Run(s0, es[..|es| - 1]), es[|es| - 1];
      Record(HistoryOf(s0, es[..|es| - 1], id), FateOf(s, e, id), IsRunning(Lookup(s, id)), s.now)
  }

  // ---- the invariant ----

  /** 1 + 4 + 9 + ... + k * k. */
  function SumOfSquares(k: nat): nat {
    if k == 0 then 0 else SumOfSquares(k - 1) + k * k
  }

  lemma {:induction false} SumOfSquaresClosed(k: nat)
    ensures 6 * SumOfSquares(k) == k * (k + 1) * (2 * k + 1)
  {
    if k > 0 {
      SumOfSquaresClosed(k - 1);
      assert (k - 1) * k * (2 * k - 1) + 6 * (k * k) == k * (k + 1) * (2 * k + 1);
    }
  }

  /** The earliest time of the next claim after `retries` default back-offs. */
  function BackedOffUntil(first: int, retries: nat): int {
    first + SumOfSquares(retries) * MINUTE
  }

  /** The job's wait is over, or its schedule enforces it, or it was cancelled for good. */
  ghost predicate BackedOff(j: Job, h: History, now: int) {
    !h.lost && h.quadratic && j.maxAttempts <= MAX_BACKOFF_ATTEMPT + 1 && h.firstClaim.Some? ==>
      var until := BackedOffUntil(h.firstClaim.value, h.retries);
      || until <= now
      || (j.status.Pending? && j.scheduleAt.Some? && until <= j.scheduleAt.value)
      || j.status.Cancelled?
  }

  /** Every claim has ended in exactly one way, or is the one that is running. */
  predicate Accounted(j: Job, h: History) {
    && j.attempt == h.claims
    && h.claims == h.retries + h.reclaims + h.acks + h.deadLetters + h.cancels
                   + (if j.status.Running? then 1 else 0)
  }

  /** What no lost update can break: identity, shape and lease. */
  ghost predicate Agrees(j: Job, h: History) {
    && h.created.Some? && j.SameIdentity(h.created.value)
    && j.WellShaped()
    && (j.status.Running? <==> h.holder.Some?)
    && (j.status.Running? ==> j.workerId == h.holder.value && j.startedAt == Some(h.touched))
  }

  ghost predicate Consistent(j: Job, h: History) {
    && Agrees(j, h)
    && (!h.lost ==>
          && Accounted(j, h)
          && (h.acks > 0 <==> j.status.Completed?)
          && (j.status.Completed? ==>
                h.outcome == Some((j.result, j.terminalAt.value)) && j.completedAt == j.terminalAt)
          && (j.status.Dlq? ==> h.outcome == Some((j.errorMessage, j.terminalAt.value)))
          && (h.reclaims == 0 && h.revivals == 0 && (j.status.Pending? || j.status.Scheduled?) ==> j.CanRetry()))
  }

  /** What holds of a job's history even after its row is gone. */
  ghost predicate Bounded(h: History) {
    h.created.Some? ==>
      && h.created.value.maxAttempts >= 1
      && (!h.lost ==>
            && h.retries <= h.created.value.maxAttempts - 1
            && h.acks <= 1
            && (h.reclaims == 0 && h.revivals == 0 ==> h.claims <= h.created.value.maxAttempts))
  }

  ghost predicate JobInv(row: Option<Job>, issued: bool, h: History, now: int) {
    && (issued <==> h.created.Some?)
    && (!issued ==> h == Unborn && row.None?)
    && (h.firstClaim.Some? <==> h.claims > 0)
    && Bounded(h)
    && (row.Some? ==> Consistent(row.value, h) && BackedOff(row.value, h, now))
  }

  /** A row the job has had: what a handler may have read, or may save. */
  ghost predicate Version(j: Job, h: History) {
    h.created.Some? && j.SameIdentity(h.created.value) && j.WellShaped()
  }

  ghost predicate FateFits(f: Fate, h: History) {
    f.Overwritten? ==> Version(f.row, h)
  }

  /** Every copy of the job that a handler holds is a row the job has had. */
  ghost predicate CopiesAgree(s: State, id: JobId, h: History) {
    forall t :: t in s.copies && s.copies[t].id == id ==> Version(s.copies[t].read, h)
  }

  /** No legal fate breaks the bounds or the agreement of row and history. */
  lemma FateKeepsConsistent(f: Fate, row: Option<Job>, issued: bool, h: History, now: int)
    requires JobInv(row, issued, h, now) && RowLegal(f, row, issued, now) && FateFits(f, h)
    ensures
      var row', h' := After(f, row, now), Record(h, f, IsRunning(row), now);
      && (issued || f.Created? <==> h'.created.Some?)
      && (h'.firstClaim.Some? <==> h'.claims > 0)
      && Bounded(h')
      && (row'.Some? ==> Consistent(row'.value, h'))
  {
  }

  /** No legal fate breaks the back-off. */
  lemma FateKeepsBackedOff(f: Fate, row: Option<Job>, issued: bool, h: History, now: int)
    requires JobInv(row, issued, h, now) && RowLegal(f, row, issued, now) && FateFits(f, h)
    requires After(f, row, now).Some?
    ensures BackedOff(After(f, row, now).value, Record(h, f, IsRunning(row), now), now)
  {
    match f
    case Retried(_, _, _) => NackKeepsBackoff(f, row.value, h, now);
    case Claimed(_) =>
      if h.claims == 0 && !h.lost {
        assert h.retries == 0;
        assert SumOfSquares(0) == 0;
      }
    case _ =>
  }

  /** A default nack after attempt `a` adds a * a minutes, and `a` exceeds the retries so far. */
  lemma NackKeepsBackoff(f: Fate, j: Job, h: History, now: int)
    requires f.Retried? && Consistent(j, h) && BackedOff(j, h, now) && RowLegal(f, Some(j), true, now)
    ensures BackedOff(AsRetry(j, f.delay, now), Record(h, f, true, now), now)
  {
    var k, a := h.retries + 1, j.attempt;
    if !h.lost && h.quadratic && f.byDefault && j.maxAttempts <= MAX_BACKOFF_ATTEMPT + 1 {
      BackoffExact(a);
      SquareMonotone(k, a);
      assert f.delay == a * a * MINUTE;
      assert k * k * MINUTE <= a * a * MINUTE;
      assert SumOfSquares(k) == SumOfSquares(k - 1) + k * k;
    }
  }

  lemma FateKeepsJobInv(f: Fate, row: Option<Job>, issued: bool, h: History, now: int, later: int)
    requires JobInv(row, issued, h, now) && RowLegal(f, row, issued, now) && FateFits(f, h)
    requires later >= now
    ensures JobInv(After(f, row, now), issued || f.Created?, Record(h, f, IsRunning(row), now), later)
  {
    FateKeepsConsistent(f, row, issued, h, now);
    if After(f, row, now).Some? {
      FateKeepsBackedOff(f, row, issued, h, now);
    }
  }

  lemma ChangeKeepsVersion(c: Copy, h: History, now: int)
    requires Version(c.read, h)
    ensures Version(c.change.Of(c.read, now), h)
  {
    hide NackDelay;
  }

  lemma SaveFits(s: State, e: Event, id: JobId, h: History)
    requires CopiesAgree(s, id, h)
    ensures FateFits(FateOf(s, e, id), h)
  {
    hide Enabled, Storable, Version, Change.Of, NackDelay, SettleOutcome;
    if e.JobSave? && Enabled(s, e) && e.token in s.copies && s.copies[e.token].id == id {
      ChangeKeepsVersion(s.copies[e.token], h, s.now);
    } else if FateOf(s, e, id).Overwritten? {
      assert false by { OnlySavesOverwrite(s, e, id); }
    }
  }

  lemma OnlySavesOverwrite(s: State, e: Event, id: JobId)
    ensures FateOf(s, e, id).Overwritten? ==>
              && e.JobSave? && Enabled(s, e) && e.token in s.copies && s.copies[e.token].id == id
              && Lookup(s, id) != Some(s.copies[e.token].read)
  {
  }

  /** A copy that is there after a step was there before, or has just been read, saved by a handler that
      goes on to publish it, or inserted by its enqueue. */
  lemma CopyMoves(s: State, e: Event, token: nat)
    ensures
      var t := Step(s, e);
      token in t.copies ==> CopyMove(s, e, token, t.copies[token])
  {
    hide Step, CopyMove;
    if token !in Step(s, e).copies {
    } else if e.JobRead? {
      ReadMoves(s, e, token);
    } else if e.JobSave? {
      SaveMoves(s, e, token);
    } else if e.EnqueueInsert? {
      InsertMoves(s, e, token);
    } else {
      OthersKeepCopies(s, e, token);
      CopyStayed(s, e, token);
    }
  }

  ghost predicate CopyMove(s: State, e: Event, token: nat, c: Copy) {
    || (token in s.copies && c == s.copies[token])
    || ReadsCopy(s, e, token, c) || KeepsCopy(s, e, token, c) || InsertsCopy(s, e, token, c)
  }

  lemma CopyStayed(s: State, e: Event, token: nat)
    ensures token in s.copies ==> CopyMove(s, e, token, s.copies[token])
  {
  }

  lemma ReadMoves(s: State, e: Event, token: nat)
    requires e.JobRead? && token in Step(s, e).copies
    ensures CopyMove(s, e, token, Step(s, e).copies[token])
  {
    hide *;
    CopiesAfterRead(s, e);
    ReadMoved(s, e, token, Step(s, e).copies[token]);
  }

  lemma ReadMoved(s: State, e: Event, token: nat, c: Copy)
    requires e.JobRead?
    requires (token in s.copies && c == s.copies[token])
             || (&& Enabled(s, e) && GoesAhead(s, e.key, e.id, e.change) && token == e.token
                 && Found(s, e.key, e.id) && c == JobCopy(e.id, s.jobs[e.id], e.change))
    ensures CopyMove(s, e, token, c)
  {
    hide Enabled, GoesAhead;
  }

  lemma SaveMoves(s: State, e: Event, token: nat)
    requires e.JobSave? && token in Step(s, e).copies
    ensures CopyMove(s, e, token, Step(s, e).copies[token])
  {
    hide Step, Enabled, JobsSaved, CopiesSaved, GoesOn, Change.Of, ReadsCopy, InsertsCopy;
    StepOfSave(s, e);
    if Enabled(s, e) { CopiesAfterSave(s, e.token); }
  }

  lemma InsertMoves(s: State, e: Event, token: nat)
    requires e.EnqueueInsert? && token in Step(s, e).copies
    ensures CopyMove(s, e, token, Step(s, e).copies[token])
  {
    hide *;
    CopiesAfterInsert(s, e);
    InsertMoved(s, e, token, Step(s, e).copies[token]);
  }

  lemma InsertMoved(s: State, e: Event, token: nat, c: Copy)
    requires e.EnqueueInsert?
    requires (token in s.copies && c == s.copies[token])
             || (Enabled(s, e) && Insertable(s, e.id) && token == e.token
                 && c == JobCopy(e.id, s.requests[e.id].Row(), Republishing))
    ensures CopyMove(s, e, token, c)
  {
    hide Enabled, Request.Row;
  }

  ghost predicate ReadsCopy(s: State, e: Event, token: nat, c: Copy) {
    && e.JobRead? && e.token == token && Enabled(s, e) && GoesAhead(s, e.key, e.id, e.change)
    && Found(s, e.key, e.id) && c == JobCopy(e.id, s.jobs[e.id], e.change)
  }

  ghost predicate KeepsCopy(s: State, e: Event, token: nat, c: Copy) {
    && e == JobSave(token) && Enabled(s, e) && token in s.copies
    && GoesOn(s, s.copies[token]) && s.copies[token].change.Publishes(s.copies[token].read)
    && c == JobCopy(s.copies[token].id, s.copies[token].change.Of(s.copies[token].read, s.now), Republishing)
  }

  ghost predicate InsertsCopy(s: State, e: Event, token: nat, c: Copy) {
    && e.EnqueueInsert? && e.token == token && Inserts(s, e)
    && c == JobCopy(e.id, s.requests[e.id].Row(), Republishing)
  }

  lemma CopiesAgreeStep(s: State, e: Event, id: JobId, h: History)
    requires CopiesAgree(s, id, h) && (id in s.jobs ==> Agrees(s.jobs[id], h))
    requires FateOf(s, e, id).Created? ==> h.created.None?
    ensures CopiesAgree(Step(s, e), id, Record(h, FateOf(s, e, id), IsRunning(Lookup(s, id)), s.now))
  {
    hide Step, Enabled, FateOf, Record, Version, CopyMove, Agrees;
    var h', t := Record(h, FateOf(s, e, id), IsRunning(Lookup(s, id)), s.now), Step(s, e);
    forall token | token in t.copies && t.copies[token].id == id ensures Version(t.copies[token].read, h') {
      CopyMoves(s, e, token);
      MovedVersion(s, e, id, h, token, t.copies[token]);
    }
  }

  lemma MovedVersion(s: State, e: Event, id: JobId, h: History, token: nat, c: Copy)
    requires CopiesAgree(s, id, h) && (id in s.jobs ==> Agrees(s.jobs[id], h))
    requires FateOf(s, e, id).Created? ==> h.created.None?
    requires CopyMove(s, e, token, c) && c.id == id
    ensures Version(c.read, Record(h, FateOf(s, e, id), IsRunning(Lookup(s, id)), s.now))
  {
    hide Enabled, FateOf, Record, Job.WellShaped, Job.SameIdentity, Accounted, GoesAhead, Change.Of, Request.Row, GoesOn,
         Inserts;
    CreationStays(h, FateOf(s, e, id), IsRunning(Lookup(s, id)), s.now);
    if KeepsCopy(s, e, token, c) {
      ChangeKeepsVersion(s.copies[token], h, s.now);
    } else if InsertsCopy(s, e, token, c) {
      InsertedVersion(s, e, h);
    }
  }

  lemma InsertedVersion(s: State, e: Event, h: History)
    requires Inserts(s, e)
    ensures Version(s.requests[e.id].Row(), Record(h, FateOf(s, e, e.id), IsRunning(Lookup(s, e.id)), s.now))
  {
    hide FateOf;
    FateOfInsert(s, e, e.id);
  }

  lemma CreationStays(h: History, f: Fate, running: bool, now: int)
    requires f.Created? ==> h.created.None?
    ensures h.created.Some? ==> Record(h, f, running, now).created == h.created
  {
  }

  lemma OthersKeepCopies(s: State, e: Event, token: nat)
    requires !e.JobRead? && !e.JobSave? && !e.EnqueueInsert?
    ensures token in Step(s, e).copies ==> token in s.copies && Step(s, e).copies[token] == s.copies[token]
    ensures token in s.copies && !(e == JobAbandon(token)) ==> token in Step(s, e).copies
    ensures Step(s, e).visits == s.visits || JobEvent(e)
  {
    hide Step;
    if e.JobAbandon? {
      StepOfJobAbandon(s, e);
    } else if e.JobVisit? {
      StepOfVisit(s, e);
    } else if RowEvent(e) {
      RowEventFrame(s, e);
    } else if EnqueueEvent(e) {
      EnqueueFrame(s, e);
    } else if RequestEvent(e) {
      EntryFrame(s, e);
    } else {
      CascadeFrame(s, e);
    }
  }

  /** The invariant holds of every job in every run. */
  lemma {:induction false} HistoryInvariant(s0: State, es: seq<Event>, id: JobId)
    requires Initial(s0)
    ensures JobInv(Lookup(Run(s0, es), id), id in Run(s0, es).issued, HistoryOf(s0, es, id), Run(s0, es).now)
    ensures CopiesAgree(Run(s0, es), id, HistoryOf(s0, es, id))
    decreases |es|
  {
    hide Step, FateOf, Record;
    if es != [] {
      var init, e := es[..|es| - 1], es[|es| - 1];
      HistoryInvariant(s0, init, id);
      var s, h := Run(s0, init), HistoryOf(s0, init, id);
      StepRow(s, e, id);
      SaveFits(s, e, id, h);
      FateKeepsJobInv(FateOf(s, e, id), Lookup(s, id), id in s.issued, h, s.now, Step(s, e).now);
      CopiesAgreeStep(s, e, id, h);
    }
  }
}
