/** The atomic steps of the queue services as a transition system, and runs of steps.

    One event is one request, one SQL statement, or one statement of an enqueue, a config update, a
    handler that reads and saves a job, or a cascade.  A step whose precondition does not hold leaves the
    state as it is, so every sequence of events is a run. */
module QueueSteps {
  import opened Wrappers
  import opened JobModel
  import opened QueueState

  datatype Event =
    | Tick(elapsed: nat)
    | EnqueueAdmit(id: JobId, key: QueueKey, payload: string, idempotencyKey: string,
                   scheduleAt: Option<int>, delay: int)
    | EnqueueDraft(id: JobId)
    | EnqueueCreate(id: JobId)
    | EnqueueInsert(id: JobId, token: nat)
    | EnqueueAbandon(id: JobId)
    | Claim(key: QueueKey, worker: string, limit: int, picked: set<JobId>)
    | JobVisit(token: nat, key: QueueKey)
    | JobRead(token: nat, key: QueueKey, id: JobId, change: Change)
    | JobSave(token: nat)
    | JobAbandon(token: nat)
    | Reclaim(limit: int, picked: set<JobId>)
    | Heartbeat(project: int, worker: string)
    | Purge(statuses: set<Status>, before: int, limit: int, picked: set<JobId>)
    | EnsureQueue(key: QueueKey, visibility: int, maxAttempts: int)
    | UpdateRead(token: nat, key: QueueKey, newVisibility: Option<int>, newMaxAttempts: Option<int>)
    | UpdateSave(token: nat)
    | UpdateAbandon(token: nat)
    | CreateTenant(project: int)
    | RegisterWorker(worker: string, project: int, names: seq<string>)
    | DropStaleWorker(worker: string, before: int)
    | RequestDelete(key: QueueKey, force: bool)
    | ForceCancel(key: QueueKey)
    | DeleteBatch(key: QueueKey, limit: int, picked: set<JobId>)
    | Detach(key: QueueKey)
    | DropRow(key: QueueKey)
    | Resume(key: QueueKey)
    | RequestDeleteTenant(project: int)
    | TenantMark(project: int)
    | TenantDeleteBatch(project: int, limit: int, picked: set<JobId>)
    | TenantDropWorkers(project: int)
    | TenantDropQueue(project: int, name: string)
    | TenantDropRow(project: int)
    | ResumeTenant(project: int)
    | Crash

  // ---- outcomes of the requests that name a job ----

  datatype Outcome = Done | Barred(w: Writable) | NotFound | InvalidTransition | WorkerMismatch | SaveRefused

  function Found(s: State, key: QueueKey, id: JobId): bool {
    id in s.jobs && KeyOf(s.jobs[id]) == key
  }

  function SettleOutcome(s: State, key: QueueKey, id: JobId, worker: string): Outcome {
    if !Found(s, key, id) then NotFound
    else if !s.jobs[id].status.Running? then InvalidTransition
    else if !WorkerAllowed(s.jobs[id], worker) then WorkerMismatch
    else Done
  }

  function CancelOutcome(s: State, key: QueueKey, id: JobId): Outcome {
    if !Found(s, key, id) then NotFound
    else if s.jobs[id].status in {Completed, Cancelled, Dlq} then InvalidTransition
    else Done
  }

  function RetryOutcome(s: State, key: QueueKey, id: JobId): Outcome {
    if !Found(s, key, id) then NotFound
    else if s.jobs[id].status !in {Failed, Dlq} then InvalidTransition
    else Done
  }

  /** The scheduler's query selects the job. */
  predicate IsDue(s: State, key: QueueKey, id: JobId) {
    Found(s, key, id) && DueScheduled(s, s.jobs[id])
  }

  /** The handler finds the job and goes ahead. */
  predicate GoesAhead(s: State, key: QueueKey, id: JobId, change: Change) {
    match change
    case Completing(worker, _) => SettleOutcome(s, key, id, worker).Done?
    case Failing(worker, _, _) => SettleOutcome(s, key, id, worker).Done?
    case Cancelling => CancelOutcome(s, key, id).Done?
    case Reviving => RetryOutcome(s, key, id).Done?
    case Promoting => IsDue(s, key, id)
    case Republishing => false
  }

  lemma GoesAheadFits(s: State, key: QueueKey, id: JobId, change: Change)
    requires GoesAhead(s, key, id, change)
    ensures Found(s, key, id) && change.Fits(s.jobs[id])
    ensures change.Promoting? ==> Served(s, s.jobs[id])
  {
  }

  // ---- lazy queue creation ----

  const DEFAULT_VISIBILITY: int := 30 * SECOND

  predicate ValidQueue(key: QueueKey) {
    key.project >= 0 && 0 < |TrimSpace(key.name)| <= 255
  }

  function NewQueue(serial: nat, visibility: int, maxAttempts: int): Queue {
    Queue(serial, Active,
          if visibility <= 0 then DEFAULT_VISIBILITY else visibility,
          if maxAttempts <= 0 then DEFAULT_MAX_ATTEMPTS else maxAttempts)
  }

  /** The queues table after an insert that leaves a row already there as it is, whatever its status. */
  function QueueCreated(s: State, key: QueueKey, visibility: int, maxAttempts: int): (r: map<QueueKey, Queue>)
    ensures key in r <==> key in s.queues || ValidQueue(key)
    ensures s.queues.Keys <= r.Keys <= s.queues.Keys + {key}
    ensures forall k :: k in s.queues ==> r[k] == s.queues[k]
    ensures key in r && key !in s.queues ==> r[key].status.Active?
  {
    if key !in s.queues && ValidQueue(key) then s.queues[key := NewQueue(s.nextQueue, visibility, maxAttempts)]
    else s.queues
  }

  function SerialCreated(s: State, key: QueueKey): nat {
    if key !in s.queues && ValidQueue(key) then s.nextQueue + 1 else s.nextQueue
  }

  // ---- enqueue ----

  datatype DraftOutcome =
    | Draft(draft: Request)
    | Duplicate(existing: set<JobId>)
    | InvalidJob

  function EffectiveSchedule(scheduleAt: Option<int>, delay: int, now: int): Option<int> {
    if delay > 0 then Some(now + delay) else scheduleAt
  }

  /** What an enqueue with its queue's row in hand finds: its key taken, its row invalid, or a row. */
  function DraftOutcomeOf(s: State, r: Request, q: Queue): DraftOutcome
    requires !r.Drafted?
  {
    if ByIdempotencyKey(s.jobs, r.key, r.idempotencyKey) != {} then
      Duplicate(ByIdempotencyKey(s.jobs, r.key, r.idempotencyKey))
    else
      var at := EffectiveSchedule(r.scheduleAt, r.delay, s.now);
      if !ValidCreate(r.key.project, r.key.name, at, s.now) then InvalidJob
      else Draft(Drafted(r.key, r.payload, r.idempotencyKey, at, q.maxAttempts, s.now))
  }

  function RequestsDrafted(s: State, id: JobId, q: Queue): map<JobId, Request>
    requires id in s.requests && !s.requests[id].Drafted?
  {
    match DraftOutcomeOf(s, s.requests[id], q)
    case Draft(draft) => s.requests[id := draft]
    case _ => Without(s.requests, {id})
  }

  /** The requests table once the admitted enqueue has looked for its queue: it has its row built, or is
      refused, or has found no queue. */
  function RequestsFound(s: State, id: JobId): map<JobId, Request>
    requires id in s.requests && s.requests[id].Admitted?
  {
    var r := s.requests[id];
    if r.key in s.queues then
      if s.queues[r.key].status.IsActive() then RequestsDrafted(s, id, s.queues[r.key]) else Without(s.requests, {id})
    else if ValidQueue(r.key) then
      s.requests[id := Creating(r.key, r.payload, r.idempotencyKey, r.scheduleAt, r.delay)]
    else Without(s.requests, {id})
  }

  /** The requests table once the enqueue has created its queue, or found it created by someone else, with
      whatever status it has by now. */
  function RequestsCreated(s: State, id: JobId): map<JobId, Request>
    requires id in s.requests && s.requests[id].Creating?
  {
    var queues := QueueCreated(s, s.requests[id].key, 0, 0);
    if s.requests[id].key in queues then RequestsDrafted(s, id, queues[s.requests[id].key])
    else Without(s.requests, {id})
  }

  /** The draft's insert succeeds: the unique index on queue and idempotency key has room for it. */
  predicate Insertable(s: State, id: JobId) {
    && id in s.requests && s.requests[id].Drafted? && id !in s.issued
    && ByIdempotencyKey(s.jobs, s.requests[id].key, s.requests[id].idempotencyKey) == {}
  }

  // ---- saving a job ----

  /** Saving a whole row writes it over the row with its id, or inserts it when that row is gone and the
      unique index has room for it. */
  predicate Storable(s: State, c: Copy) {
    || c.id in s.jobs
    || (c.read.idempotencyKey.Some? ==>
          ByIdempotencyKey(s.jobs, KeyOf(c.read), c.read.idempotencyKey.value) == {})
  }

  function JobsSaved(s: State, c: Copy): map<JobId, Job> {
    if Storable(s, c) then s.jobs[c.id := c.change.Of(c.read, s.now)] else s.jobs
  }

  /** A handler publishes a waiting job only once it is claimable. */
  predicate Saveable(s: State, c: Copy) {
    c.change.Republishing? ==> c.read.IsClaimable(s.now)
  }

  /** Having saved, a handler that publishes goes on holding the row it has saved; after a nack it looks
      the queue up first. */
  predicate GoesOn(s: State, c: Copy) {
    && Storable(s, c) && c.change.Publishes(c.read)
    && (c.change.Failing? ==> KeyOf(c.read) in s.queues)
  }

  function CopiesSaved(s: State, token: nat): map<nat, Copy>
    requires token in s.copies
  {
    var c := s.copies[token];
    if GoesOn(s, c) then s.copies[token := JobCopy(c.id, c.change.Of(c.read, s.now), Republishing)]
    else Without(s.copies, {token})
  }

  // ---- config update ----

  function Edited(q: Queue, visibility: Option<int>, maxAttempts: Option<int>): Queue {
    q.(visibility := if visibility.Some? then visibility.value else q.visibility,
       maxAttempts := if maxAttempts.Some? then maxAttempts.value else q.maxAttempts)
  }

  /** Saving a whole row writes it over the row with its primary key, or inserts it when that row is
      gone; a row recreated under another primary key makes the insert fail. */
  function Saved(queues: map<QueueKey, Queue>, key: QueueKey, row: Queue): map<QueueKey, Queue> {
    if key in queues && queues[key].serial != row.serial then queues else queues[key := row]
  }

  // ---- set-at-a-time updates ----

  function UpdateRows(jobs: map<JobId, Job>, ids: set<JobId>, f: Job -> Job): map<JobId, Job> {
    map id | id in jobs :: if id in ids then f(jobs[id]) else jobs[id]
  }

  function Without<K, V>(m: map<K, V>, keys: set<K>): map<K, V> {
    m - keys
  }

  function RemoveName(names: seq<string>, name: string): (r: seq<string>)
    ensures name !in r
    ensures forall n :: n in names && n != name ==> n in r
    ensures forall n :: n in r ==> n in names
  {
    if names == [] then []
    else if names[0] == name then RemoveName(names[1..], name)
    else [names[0]] + RemoveName(names[1..], name)
  }

  /** The names that stay keep their order and their number: removal works piece by piece. */
  lemma {:induction false} RemoveNameConcat(a: seq<string>, b: seq<string>, name: string)
    ensures RemoveName(a + b, name) == RemoveName(a, name) + RemoveName(b, name)
    ensures forall n :: RemoveName([n], name) == if n == name then [] else [n]
  {
    hide RemoveName;
    if a == [] {
      RemoveNameShort(name);
      assert a + b == b;
    } else {
      RemoveNameConcat(a[1..], b, name);
      RemoveNameHead(a, name);
      RemoveNameHead(a + b, name);
      assert (a + b)[1..] == a[1..] + b && (a + b)[0] == a[0];
    }
  }

  lemma RemoveNameShort(name: string)
    ensures RemoveName([], name) == []
    ensures forall n :: RemoveName([n], name) == if n == name then [] else [n]
  {
  }

  lemma RemoveNameHead(a: seq<string>, name: string)
    requires a != []
    ensures RemoveName(a, name) == (if a[0] == name then [] else [a[0]]) + RemoveName(a[1..], name)
  {
  }

  // ---- steps ----

  /** A tenant cascade is past its listing, and the queue is on its list. */
  predicate TenantOwns(s: State, key: QueueKey) {
    && key.project in s.tenantCascades && !s.tenantCascades[key.project].TListing?
    && key.name in s.tenantCascades[key.project].names
  }

  /** The requests, sweeps and purges on existing job rows, and the clock. */
  predicate RowEvent(e: Event) {
    || e.Tick? || e.Claim? || e.JobVisit? || e.JobRead? || e.JobSave? || e.JobAbandon? || e.Reclaim?
    || e.Heartbeat? || e.Purge?
  }

  /** The statements of enqueues and config updates, and the creation of queues, tenants and workers. */
  predicate RequestEvent(e: Event) {
    || e.EnqueueAdmit? || e.EnqueueDraft? || e.EnqueueCreate? || e.EnqueueInsert? || e.EnqueueAbandon? || e.EnsureQueue?
    || e.UpdateRead? || e.UpdateSave? || e.UpdateAbandon? || e.CreateTenant? || e.RegisterWorker?
    || e.DropStaleWorker?
  }

  /** The deletion of queues. */
  predicate QueueCascadeEvent(e: Event) {
    || e.RequestDelete? || e.ForceCancel? || e.DeleteBatch? || e.Detach? || e.DropRow? || e.Resume?
    || e.Crash?
  }

  /** The deletion of tenants. */
  predicate TenantCascadeEvent(e: Event) {
    || e.RequestDeleteTenant? || e.TenantMark? || e.TenantDeleteBatch? || e.TenantDropWorkers?
    || e.TenantDropQueue? || e.TenantDropRow? || e.ResumeTenant?
  }

  predicate RowEnabled(s: State, e: Event)
    requires RowEvent(e)
  {
    match e
    case Claim(key, _, limit, picked) =>
      Earliest(s.jobs, Claimable(s, key), BySchedule, LimitOr(limit, CLAIM_LIMIT), picked)
    case JobVisit(token, _) => token !in s.visits && token !in s.copies
    case JobRead(token, key, _, change) =>
      && token !in s.copies
      && (if change.Promoting? then token !in s.visits else token in s.visits && s.visits[token] == key)
    case JobSave(token) =>
      && token in s.copies && s.copies[token].id in s.issued && Saveable(s, s.copies[token])
      && (s.copies[token].id in s.jobs ==> s.copies[token].read.SameIdentity(s.jobs[s.copies[token].id]))
    case JobAbandon(token) => token in s.copies || token in s.visits
    case Reclaim(limit, picked) =>
      Earliest(s.jobs, Expired(s), ByStart, LimitOr(limit, RECLAIM_LIMIT), picked)
    case Purge(statuses, before, limit, picked) =>
      Batch(Purgeable(s.jobs, statuses, before), LimitOr(limit, DELETE_LIMIT), picked)
    case _ => true
  }

  predicate RequestEnabled(s: State, e: Event)
    requires RequestEvent(e)
  {
    match e
    case EnqueueAdmit(id, _, _, _, _, _) => id !in s.issued && id !in s.requests
    case EnqueueDraft(id) => id in s.requests && s.requests[id].Admitted?
    case EnqueueCreate(id) => id in s.requests && s.requests[id].Creating?
    case EnqueueInsert(id, token) =>
      && id in s.requests && s.requests[id].Drafted? && id !in s.issued
      && token !in s.copies && token !in s.visits
    case EnqueueAbandon(id) => id in s.requests
    case UpdateRead(token, _, _, _) => token !in s.edits
    case UpdateSave(token) => token in s.edits
    case UpdateAbandon(token) => token in s.edits
    case CreateTenant(project) => project > 0 && project !in s.tenants
    case RegisterWorker(worker, _, _) => worker !in s.workers
    case _ => true
  }

  predicate QueueCascadeEnabled(s: State, e: Event)
    requires QueueCascadeEvent(e)
  {
    match e
    case RequestDelete(key, _) => key !in s.cascades && !TenantOwns(s, key)
    case ForceCancel(key) => key in s.cascades && s.cascades[key] == ForceCancelling
    case DeleteBatch(key, limit, picked) =>
      && key in s.cascades && s.cascades[key] == DeletingJobs
      && Batch(JobsOf(s.jobs, key), LimitOr(limit, DELETE_LIMIT), picked)
    case Detach(key) => key in s.cascades && s.cascades[key] == Detaching
    case DropRow(key) => key in s.cascades && s.cascades[key] == DroppingRow
    case Resume(key) =>
      && key in s.queues && s.queues[key].status.Deleting?
      && key !in s.cascades && key.project !in s.tenantCascades
    case _ => true
  }

  predicate TenantCascadeEnabled(s: State, e: Event)
    requires TenantCascadeEvent(e)
  {
    match e
    case TenantMark(project) =>
      && project in s.tenantCascades && s.tenantCascades[project] == TListing
      && forall k :: k in s.cascades ==> k.project != project
    case TenantDeleteBatch(project, limit, picked) =>
      && project in s.tenantCascades && s.tenantCascades[project].TDeletingJobs?
      && Batch(JobsOfProject(s.jobs, project), LimitOr(limit, DELETE_LIMIT), picked)
    case TenantDropWorkers(project) =>
      project in s.tenantCascades && s.tenantCascades[project].TDroppingWorkers?
    case TenantDropQueue(project, name) =>
      && project in s.tenantCascades && s.tenantCascades[project].TDroppingQueues?
      && name in s.tenantCascades[project].names
    case TenantDropRow(project) =>
      && project in s.tenantCascades && s.tenantCascades[project].TDroppingQueues?
      && s.tenantCascades[project].names == {}
    case ResumeTenant(project) =>
      && project in s.tenants && s.tenants[project].Deleting?
      && project !in s.tenantCascades && project > 0
    case _ => true
  }

  /** What a step assumes: the rows a statement selects are a legal selection, new ids are new, and
      at most one cascade is in flight per queue. */
  predicate Enabled(s: State, e: Event) {
    if RowEvent(e) then RowEnabled(s, e)
    else if RequestEvent(e) then RequestEnabled(s, e)
    else if QueueCascadeEvent(e) then QueueCascadeEnabled(s, e)
    else TenantCascadeEnabled(s, e)
  }

  function RowStep(s: State, e: Event): State
    requires RowEvent(e) && RowEnabled(s, e)
  {
    match e
    case Tick(elapsed) => s.(now := s.now + elapsed)
    case Claim(_, worker, _, picked) =>
      s.(jobs := UpdateRows(s.jobs, picked, j => SqlClaimed(j, worker, s.now)))
    case JobVisit(token, key) =>
      if QueueWritable(s, key) != Ok then s else s.(visits := s.visits[token := key])
    case JobRead(token, key, id, change) =>
      if GoesAhead(s, key, id, change) then
        GoesAheadFits(s, key, id, change);
        s.(visits := Without(s.visits, {token}), copies := s.copies[token := JobCopy(id, s.jobs[id], change)])
      else s.(visits := Without(s.visits, {token}))
    case JobSave(token) => s.(copies := CopiesSaved(s, token), jobs := JobsSaved(s, s.copies[token]))
    case JobAbandon(token) => s.(visits := Without(s.visits, {token}), copies := Without(s.copies, {token}))
    case Reclaim(_, picked) => s.(jobs := UpdateRows(s.jobs, picked, j => SqlReclaimed(j, s.now)))
    case Heartbeat(project, worker) =>
      if worker !in s.workers || s.workers[worker].project != project then s
      else
        var workers := s.workers[worker := s.workers[worker].(lastSeenAt := s.now)];
        if worker == "" then s.(workers := workers)
        else
          s.(workers := workers,
             jobs := UpdateRows(s.jobs, LeasesOf(s.jobs, project, worker), j => SqlExtended(j, s.now)))
    case Purge(_, _, _, picked) => s.(jobs := Without(s.jobs, picked))
  }

  function RequestStep(s: State, e: Event): State
    requires RequestEvent(e) && RequestEnabled(s, e)
  {
    match e
    case EnqueueAdmit(id, key, payload, idempotencyKey, scheduleAt, delay) =>
      if QueueWritable(s, key) != Ok then s
      else s.(requests := s.requests[id := Admitted(key, payload, idempotencyKey, scheduleAt, delay)])
    case EnqueueDraft(id) =>
      s.(requests := RequestsFound(s, id))
    case EnqueueCreate(id) =>
      s.(queues := QueueCreated(s, s.requests[id].key, 0, 0), nextQueue := SerialCreated(s, s.requests[id].key),
         requests := RequestsCreated(s, id))
    case EnqueueInsert(id, token) =>
      if Insertable(s, id) then
        s.(requests := Without(s.requests, {id}), jobs := s.jobs[id := s.requests[id].Row()],
           issued := s.issued + {id}, copies := s.copies[token := JobCopy(id, s.requests[id].Row(), Republishing)])
      else s.(requests := Without(s.requests, {id}))
    case EnqueueAbandon(id) => s.(requests := Without(s.requests, {id}))
    case EnsureQueue(key, visibility, maxAttempts) =>
      s.(queues := QueueCreated(s, key, visibility, maxAttempts), nextQueue := SerialCreated(s, key))
    case UpdateRead(token, key, visibility, maxAttempts) =>
      if key !in s.queues || !s.queues[key].status.IsActive() then s
      else s.(edits := s.edits[token := Edit(key, Edited(s.queues[key], visibility, maxAttempts))])
    case UpdateSave(token) =>
      s.(edits := Without(s.edits, {token}), queues := Saved(s.queues, s.edits[token].key, s.edits[token].row))
    case UpdateAbandon(token) => s.(edits := Without(s.edits, {token}))
    case CreateTenant(project) => s.(tenants := s.tenants[project := Active])
    case RegisterWorker(worker, project, names) =>
      if TenantWritable(s, project) != Ok then s
      else if exists n :: n in names && QueueWritable(s, QueueKey(project, n)) != Ok then s
      else s.(workers := s.workers[worker := Worker(project, names, s.now)])
    case DropStaleWorker(worker, before) =>
      if worker in s.workers && s.workers[worker].lastSeenAt < before
         && LeasesOf(s.jobs, s.workers[worker].project, worker) == {}
      then s.(workers := Without(s.workers, {worker}))
      else s
  }

  function QueueCascadeStep(s: State, e: Event): State
    requires QueueCascadeEvent(e) && QueueCascadeEnabled(s, e)
  {
    match e
    case RequestDelete(key, force) =>
      if key !in s.queues || s.queues[key].status.Deleting? then s
      else
        var active := ActiveJobsOf(s.jobs, key);
        if active != {} && !force then s
        else
          s.(queues := s.queues[key := s.queues[key].(status := Deleting)],
             cascades := s.cascades[key := if active != {} then ForceCancelling else DeletingJobs])
    case ForceCancel(key) =>
      s.(jobs := UpdateRows(s.jobs, ActiveJobsOf(s.jobs, key), j => SqlForceCancelled(j, s.now)),
         cascades := s.cascades[key := DeletingJobs])
    case DeleteBatch(key, _, picked) =>
      s.(jobs := Without(s.jobs, picked),
         cascades := s.cascades[key := if picked == {} then Detaching else DeletingJobs])
    case Detach(key) =>
      s.(workers := DetachedWorkers(s.workers, key),
         cascades := s.cascades[key := DroppingRow])
    case DropRow(key) =>
      s.(queues := Without(s.queues, {key}), cascades := Without(s.cascades, {key}))
    case Resume(key) => s.(cascades := s.cascades[key := DeletingJobs])
    case Crash => s.(cascades := map[], tenantCascades := map[])
  }

  function TenantCascadeStep(s: State, e: Event): State
    requires TenantCascadeEvent(e) && TenantCascadeEnabled(s, e)
  {
    match e
    case RequestDeleteTenant(project) =>
      if project <= 0 || project !in s.tenants || s.tenants[project].Deleting? then s
      else
        s.(tenants := s.tenants[project := Deleting],
           tenantCascades := s.tenantCascades[project := TListing])
    case TenantMark(project) =>
      s.(queues := map k | k in s.queues ::
                     if k.project == project then s.queues[k].(status := Deleting) else s.queues[k],
         tenantCascades := s.tenantCascades[project := TDeletingJobs(QueuesOf(s, project))])
    case TenantDeleteBatch(project, _, picked) =>
      var names := s.tenantCascades[project].names;
      s.(jobs := Without(s.jobs, picked),
         tenantCascades := s.tenantCascades[project :=
           if picked == {} then TDroppingWorkers(names) else TDeletingJobs(names)])
    case TenantDropWorkers(project) =>
      s.(workers := map w | w in s.workers && s.workers[w].project != project :: s.workers[w],
         tenantCascades := s.tenantCascades[project := TDroppingQueues(s.tenantCascades[project].names)])
    case TenantDropQueue(project, name) =>
      s.(queues := Without(s.queues, {QueueKey(project, name)}),
         tenantCascades := s.tenantCascades[project := TDroppingQueues(s.tenantCascades[project].names - {name})])
    case TenantDropRow(project) =>
      s.(tenants := Without(s.tenants, {project}),
         tenantCascades := Without(s.tenantCascades, {project}))
    case ResumeTenant(project) => s.(tenantCascades := s.tenantCascades[project := TListing])
  }

  function Apply(s: State, e: Event): State
    requires Enabled(s, e)
  {
    if RowEvent(e) then RowStep(s, e)
    else if RequestEvent(e) then RequestStep(s, e)
    else if QueueCascadeEvent(e) then QueueCascadeStep(s, e)
    else TenantCascadeStep(s, e)
  }

  function DetachedWorkers(workers: map<string, Worker>, key: QueueKey): map<string, Worker> {
    map w | w in workers ::
      if workers[w].project == key.project
      then workers[w].(queues := RemoveName(workers[w].queues, key.name))
      else workers[w]
  }

  function Step(s: State, e: Event): State {
    if Enabled(s, e) then Apply(s, e) else s
  }

  function Run(s: State, es: seq<Event>): State {
    if es == [] then s else Step(Run(s, es[..|es| - 1]), es[|es| - 1])
  }

  /** A state services can start from: no jobs, nothing in flight, any queues, tenants and workers. */
  ghost predicate Initial(s: State) {
    && s.jobs == map[] && s.issued == {} && s.requests == map[] && s.edits == map[] && s.copies == map[]
    && s.visits == map[] && s.cascades == map[] && s.tenantCascades == map[]
    && forall k :: k in s.queues ==> s.queues[k].serial < s.nextQueue && k.name != ""
  }

  lemma RunSnoc(s: State, es: seq<Event>, e: Event)
    ensures Run(s, es + [e]) == Step(Run(s, es), e)
  {
    assert (es + [e])[..|es|] == es;
  }

  lemma {:induction false} RunConcat(s: State, es: seq<Event>, fs: seq<Event>)
    ensures Run(s, es + fs) == Run(Run(s, es), fs)
    decreases |fs|
  {
    if fs == [] {
      assert es + fs == es;
    } else {
      var init, last := fs[..|fs| - 1], fs[|fs| - 1];
      assert es + fs == (es + init) + [last];
      RunSnoc(s, es + init, last);
      RunConcat(s, es, init);
    }
  }
}
