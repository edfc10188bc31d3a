/** The tables the queue services share, the lifecycle guard, and the row selections of the SQL
    statements (internal/domain/queue/lifecycle/guard.go,
    internal/infrastructure/repository/queue/job/repository.go). */
module QueueState {
  import opened Wrappers
  import opened JobModel

  datatype Lifecycle = Unset | Active | Deleting {
    /** The guard's test: an empty status counts as active. */
    predicate IsActive() {
      Unset? || Active?
    }
  }

  datatype QueueKey = QueueKey(project: int, name: string)

  /** A queue row; `serial` is its autoincrement primary key. */
  datatype Queue = Queue(serial: nat, status: Lifecycle, visibility: int, maxAttempts: int)

  datatype Worker = Worker(project: int, queues: seq<string>, lastSeenAt: int)

  /** Where a cascade that is in flight for one queue stands: its next statement. */
  datatype QueuePhase = ForceCancelling | DeletingJobs | Detaching | DroppingRow

  /** Where a tenant cascade stands; `names` are the queues listed when it started. */
  datatype TenantPhase =
    | TListing
    | TDeletingJobs(names: set<string>)
    | TDroppingWorkers(names: set<string>)
    | TDroppingQueues(names: set<string>)

  /** An enqueue under way: let through by the guard; or having found no queue, about to create it; or
      with its queue and its row, about to insert. */
  datatype Request =
    | Admitted(key: QueueKey, payload: string, idempotencyKey: string, scheduleAt: Option<int>, delay: int)
    | Creating(key: QueueKey, payload: string, idempotencyKey: string, scheduleAt: Option<int>, delay: int)
    | Drafted(key: QueueKey, payload: string, idempotencyKey: string, scheduleAt: Option<int>,
              maxAttempts: int, at: int)
  {
    /** The row a draft will insert. */
    function Row(): (j: Job)
      requires Drafted?
      ensures j.WellShaped() && j.attempt == 0 && (j.status.Pending? || j.status.Scheduled?)
      ensures KeyOf(j) == key && Republishing.Fits(j)
    {
      NewJob(key.project, key.name, payload, idempotencyKey, maxAttempts, scheduleAt, at)
    }
  }

  /** A config update under way: the changed copy of the row it has read, still to be saved. */
  datatype Edit = Edit(key: QueueKey, row: Queue)

  predicate WorkerAllowed(j: Job, worker: string) {
    j.workerId == "" || worker == j.workerId
  }

  /** What a handler does to the job it holds: ack, nack, cancel, control retry, promotion; or, once it has
      inserted or saved a waiting job and told the broker, save the same row once more. */
  datatype Change =
    | Completing(worker: string, result: string)
    | Failing(worker: string, reason: string, retryDelay: int)
    | Cancelling
    | Reviving
    | Promoting
    | Republishing
  {
    /** What the handler checks of the row before it changes its copy. */
    predicate Fits(j: Job) {
      match this
      case Completing(worker, _) => j.status.Running? && WorkerAllowed(j, worker)
      case Failing(worker, _, _) => j.status.Running? && WorkerAllowed(j, worker)
      case Cancelling => j.status !in {Completed, Cancelled, Dlq}
      case Reviving => j.status in {Failed, Dlq}
      case Promoting => j.status.Scheduled?
      case Republishing => (j.status.Pending? || (j.status.Scheduled? && j.scheduleAt.Some?)) && j.terminalAt.None?
    }

    /** The row the handler saves. */
    function Of(j: Job, now: int): Job {
      match this
      case Completing(_, result) => AsCompleted(j, result, now)
      case Failing(_, reason, retryDelay) =>
        if j.CanRetry() then AsRetry(j, NackDelay(j.attempt, retryDelay), now) else AsDlq(j, reason, now)
      case Cancelling => AsCancelled(j, now)
      case Reviving => AsRevived(j, now)
      case Promoting => AsPromoted(j, now)
      case Republishing => j
    }

    /** The handler goes on to publish the row it saves, and then saves it again. */
    predicate Publishes(j: Job) {
      Promoting? || (Failing? && j.CanRetry())
    }
  }

  datatype JobCopy = JobCopy(id: JobId, read: Job, change: Change)

  const SAMPLE: JobCopy := JobCopy("", NewJob(0, "", "", "", 0, None, 0), Cancelling)

  /** A job a handler has read and checked, inserted or saved, and has still to save whole. */
  type Copy = c: JobCopy | c.change.Fits(c.read) witness SAMPLE

  /** The tables, the clock, the requests and cascades in flight, the next queue id, and every job id
      inserted so far. */
  datatype State = State(
    now: int,
    jobs: map<JobId, Job>,
    queues: map<QueueKey, Queue>,
    tenants: map<int, Lifecycle>,
    workers: map<string, Worker>,
    requests: map<JobId, Request>,
    edits: map<nat, Edit>,
    copies: map<nat, Copy>,
    visits: map<nat, QueueKey>,
    cascades: map<QueueKey, QueuePhase>,
    tenantCascades: map<int, TenantPhase>,
    nextQueue: nat,
    issued: set<JobId>)

  function KeyOf(j: Job): QueueKey {
    QueueKey(j.project, j.queue)
  }

  // ---- lifecycle guard ----

  datatype Writable = Ok | TenantDeleting | QueueDeleting

  function TenantWritable(s: State, project: int): Writable {
    if project <= 0 || project !in s.tenants || s.tenants[project].IsActive() then Ok
    else TenantDeleting
  }

  function QueueWritable(s: State, key: QueueKey): (w: Writable)
    ensures w.TenantDeleting? <==> key.project > 0 && key.project in s.tenants && s.tenants[key.project].Deleting?
    ensures w.QueueDeleting? <==>
              !w.TenantDeleting? && key.name != "" && key in s.queues && s.queues[key].status.Deleting?
  {
    if TenantWritable(s, key.project) != Ok then TenantWritable(s, key.project)
    else if key.name == "" || key !in s.queues || s.queues[key].status.IsActive() then Ok
    else QueueDeleting
  }

  // ---- ORDER BY ... LIMIT ----

  datatype SortKey = SortKey(rank: int, major: int, minor: int)

  predicate Leq(a: SortKey, b: SortKey) {
    || a.rank < b.rank
    || (a.rank == b.rank && a.major < b.major)
    || (a.rank == b.rank && a.major == b.major && a.minor <= b.minor)
  }

  /** The three orders in use: schedule_at nulls first then created_at (claim), started_at
      (reclaim), schedule_at (promotion). */
  datatype Order = BySchedule | ByStart | ByDue

  function SortKeyOf(o: Order, j: Job): SortKey {
    match o
    case BySchedule =>
      if j.scheduleAt.None? then SortKey(0, 0, j.createdAt) else SortKey(1, j.scheduleAt.value, j.createdAt)
    case ByStart => SortKey(0, if j.startedAt.Some? then j.startedAt.value else 0, 0)
    case ByDue => SortKey(0, if j.scheduleAt.Some? then j.scheduleAt.value else 0, 0)
  }

  /** `picked` is a result of LIMIT `limit` over the `eligible` rows, in no particular order. */
  predicate Batch(eligible: set<JobId>, limit: int, picked: set<JobId>) {
    picked <= eligible && |picked| == Min(limit, |eligible|)
  }

  /** `picked` is a result of ORDER BY `o` LIMIT `limit` over the `eligible` rows; rows that tie at
      the boundary may be chosen either way. */
  predicate Earliest(jobs: map<JobId, Job>, eligible: set<JobId>, o: Order, limit: int, picked: set<JobId>) {
    && eligible <= jobs.Keys
    && Batch(eligible, limit, picked)
    && (forall x, y :: x in picked && y in eligible - picked ==>
          Leq(SortKeyOf(o, jobs[x]), SortKeyOf(o, jobs[y])))
  }

  // ---- WHERE clauses ----

  predicate SqlClaimable(j: Job, now: int) {
    && (j.status.Pending? || j.status.Scheduled?)
    && (j.scheduleAt.None? || j.scheduleAt.value <= now)
  }

  function Claimable(s: State, key: QueueKey): set<JobId> {
    set id | id in s.jobs && KeyOf(s.jobs[id]) == key && SqlClaimable(s.jobs[id], s.now)
  }

  /** The inner joins: the job's queue and tenant rows exist and both are 'active'. */
  predicate Served(s: State, j: Job) {
    && KeyOf(j) in s.queues && s.queues[KeyOf(j)].status.Active?
    && j.project in s.tenants && s.tenants[j.project].Active?
  }

  predicate LeaseExpired(s: State, j: Job) {
    && j.status.Running? && Served(s, j)
    && j.startedAt.Some?
    && j.startedAt.value + s.queues[KeyOf(j)].visibility < s.now
  }

  function Expired(s: State): set<JobId> {
    set id | id in s.jobs && LeaseExpired(s, s.jobs[id])
  }

  predicate DueScheduled(s: State, j: Job) {
    && j.status.Scheduled? && Served(s, j)
    && j.scheduleAt.Some? && j.scheduleAt.value <= s.now
  }

  function Due(s: State): set<JobId> {
    set id | id in s.jobs && DueScheduled(s, s.jobs[id])
  }

  predicate TerminalBefore(j: Job, statuses: set<Status>, before: int) {
    j.status in statuses && j.terminalAt.Some? && j.terminalAt.value < before
  }

  function Purgeable(jobs: map<JobId, Job>, statuses: set<Status>, before: int): set<JobId> {
    set id | id in jobs && TerminalBefore(jobs[id], statuses, before)
  }

  function JobsOf(jobs: map<JobId, Job>, key: QueueKey): set<JobId> {
    set id | id in jobs && KeyOf(jobs[id]) == key
  }

  /** The enqueues of the queue whose next statement is the insert. */
  function DraftsOf(requests: map<JobId, Request>, key: QueueKey): set<JobId> {
    set id | id in requests && requests[id].Drafted? && requests[id].key == key
  }

  /** The enqueues of the queue that are past its status: about to create it, or to insert. */
  function ComingOf(requests: map<JobId, Request>, key: QueueKey): set<JobId> {
    set id | id in requests && !requests[id].Admitted? && requests[id].key == key
  }

  /** The handlers the guard has let through to the queue, and that have still to read a job. */
  function VisitorsOf(visits: map<nat, QueueKey>, key: QueueKey): set<nat> {
    set token | token in visits && visits[token] == key
  }

  function VisitorsOfProject(visits: map<nat, QueueKey>, project: int): set<nat> {
    set token | token in visits && visits[token].project == project
  }

  /** The handlers that hold a job of the queue and have still to save it; those with two saves to come;
      and these jobs. */
  function HoldersOf(copies: map<nat, Copy>, key: QueueKey): set<nat> {
    set token | token in copies && KeyOf(copies[token].read) == key
  }

  function PublishersOf(copies: map<nat, Copy>, key: QueueKey): set<nat> {
    set token | token in copies && KeyOf(copies[token].read) == key && copies[token].change.Publishes(copies[token].read)
  }

  function CopiedOf(copies: map<nat, Copy>, key: QueueKey): set<JobId> {
    set token | token in copies && KeyOf(copies[token].read) == key :: copies[token].id
  }

  function HoldersOfProject(copies: map<nat, Copy>, project: int): set<nat> {
    set token | token in copies && copies[token].read.project == project
  }

  function PublishersOfProject(copies: map<nat, Copy>, project: int): set<nat> {
    set token | token in copies && copies[token].read.project == project
                && copies[token].change.Publishes(copies[token].read)
  }

  function CopiedOfProject(copies: map<nat, Copy>, project: int): set<JobId> {
    set token | token in copies && copies[token].read.project == project :: copies[token].id
  }

  function RequestsOfProject(requests: map<JobId, Request>, project: int): set<JobId> {
    set id | id in requests && requests[id].key.project == project
  }

  function JobsOfProject(jobs: map<JobId, Job>, project: int): set<JobId> {
    set id | id in jobs && jobs[id].project == project
  }

  function ActiveJobsOf(jobs: map<JobId, Job>, key: QueueKey): set<JobId> {
    set id | id in jobs && KeyOf(jobs[id]) == key && jobs[id].status.IsActive()
  }

  function LeasesOf(jobs: map<JobId, Job>, project: int, worker: string): set<JobId> {
    set id | id in jobs && jobs[id].project == project && jobs[id].workerId == worker && jobs[id].status.Running?
  }

  function QueuesOf(s: State, project: int): set<string> {
    set k | k in s.queues && k.project == project :: k.name
  }

  /** The rows whose idempotency key is `k`; an empty key finds nothing. */
  function ByIdempotencyKey(jobs: map<JobId, Job>, key: QueueKey, k: string): set<JobId> {
    set id | k != "" && id in jobs && KeyOf(jobs[id]) == key && jobs[id].idempotencyKey == Some(k)
  }

  // ---- limits a non-positive argument falls back to ----

  function LimitOr(limit: int, fallback: nat): (n: nat)
    requires fallback > 0
    ensures n > 0
  {
    if limit <= 0 then fallback else limit
  }

  const CLAIM_LIMIT: nat := 1
  const DUE_LIMIT: nat := 100
  const RECLAIM_LIMIT: nat := 500
  const DELETE_LIMIT: nat := 1000
}
