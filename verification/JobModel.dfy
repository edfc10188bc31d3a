/** The job entity (internal/domain/queue/job/model.go).

    `Job` is the stored row without its primary key, which is the key of the jobs table.  The
    `As...` functions give the row each transition leaves behind; `JobEntity` is the object the
    services fetch, mutate in place through `Mark...`, and write back.  Times and durations are
    nanoseconds. */
module JobModel {
  import opened Wrappers

  type JobId = string

  const SECOND: int := 1_000_000_000
  const MINUTE: int := 60 * SECOND
  const DEFAULT_MAX_ATTEMPTS: int := 25

  datatype Status = Pending | Scheduled | Running | Completed | Failed | Cancelled | Dlq {
    predicate IsTerminal() {
      Completed? || Cancelled? || Failed? || Dlq?
    }

    predicate IsActive() {
      Pending? || Scheduled? || Running?
    }
  }

  datatype Job = Job(
    project: int,
    queue: string,
    status: Status,
    payload: string,
    result: string,
    idempotencyKey: Option<string>,
    attempt: nat,
    maxAttempts: int,
    scheduleAt: Option<int>,
    startedAt: Option<int>,
    completedAt: Option<int>,
    terminalAt: Option<int>,
    workerId: string,
    errorMessage: string,
    createdAt: int,
    updatedAt: int)
  {
    predicate IsTerminal() {
      status.IsTerminal()
    }

    predicate CanRetry() {
      attempt < maxAttempts
    }

    predicate IsClaimable(now: int) {
      match status
      case Pending => scheduleAt.None? || scheduleAt.value <= now
      case Scheduled => scheduleAt.Some? && scheduleAt.value <= now
      case _ => false
    }

    /** True when the check of terminal_at against the status reports no error. */
    predicate TerminalAtConsistent() {
      if IsTerminal() then terminalAt.Some? else terminalAt.None?
    }

    /** The columns no transition may touch. */
    predicate SameIdentity(j: Job) {
      && project == j.project && queue == j.queue && payload == j.payload
      && idempotencyKey == j.idempotencyKey && maxAttempts == j.maxAttempts
      && createdAt == j.createdAt
    }

    /** The shape every stored row has. */
    ghost predicate WellShaped() {
      && TerminalAtConsistent()
      && (status.Running? ==> startedAt.Some? && attempt >= 1)
      && (status.Pending? || status.Scheduled? ==> workerId == "" && startedAt.None?)
      && (status.Scheduled? ==> scheduleAt.Some?)
      && (completedAt.Some? <==> status.Completed?)
      && maxAttempts >= 1
    }
  }

  // ---- creation ----

  /** The characters of Unicode's White_Space property. */
  predicate IsSpace(c: char) {
    var n := c as int;
    || 0x09 <= n <= 0x0D || n == 0x20 || n == 0x85 || n == 0xA0 || n == 0x1680
    || 0x2000 <= n <= 0x200A || n == 0x2028 || n == 0x2029 || n == 0x202F || n == 0x205F || n == 0x3000
  }

  function TrimSpace(s: string): (t: string)
    ensures t == [] || (!IsSpace(t[0]) && !IsSpace(t[|t| - 1]))
    ensures |t| <= |s|
  {
    if s == [] then []
    else if IsSpace(s[0]) then TrimSpace(s[1..])
    else if IsSpace(s[|s| - 1]) then TrimSpace(s[..|s| - 1])
    else s
  }

  predicate ValidCreate(project: int, queue: string, scheduleAt: Option<int>, now: int) {
    && project >= 0
    && TrimSpace(queue) != []
    && (scheduleAt.Some? ==> now - MINUTE <= scheduleAt.value)
  }

  function NewJob(project: int, queue: string, payload: string, idempotencyKey: string,
                  maxAttempts: int, scheduleAt: Option<int>, now: int): (j: Job)
    ensures j.WellShaped() && j.attempt == 0
    ensures j.createdAt == now && j.updatedAt == now
    ensures j.project == project && j.queue == queue && j.payload == payload && j.scheduleAt == scheduleAt
    ensures j.status == if scheduleAt.Some? && now < scheduleAt.value then Scheduled else Pending
    ensures j.IsClaimable(now) <==> !j.status.Scheduled?
    ensures j.maxAttempts == if maxAttempts <= 0 then 25 else maxAttempts
    ensures j.idempotencyKey == (if idempotencyKey == "" then None else Some(idempotencyKey))
  {
    Job(project, queue,
        if scheduleAt.Some? && scheduleAt.value > now then Scheduled else Pending,
        payload, "",
        if idempotencyKey != "" then Some(idempotencyKey) else None,
        0, if maxAttempts <= 0 then DEFAULT_MAX_ATTEMPTS else maxAttempts,
        scheduleAt, None, None, None, "", "", now, now)
  }

  // ---- transitions of the entity ----

  function AsRunning(j: Job, worker: string, now: int): Job {
    j.(status := Running, workerId := worker, attempt := j.attempt + 1, startedAt := Some(now),
       terminalAt := None, updatedAt := now)
  }

  function AsCompleted(j: Job, result: string, now: int): Job {
    j.(status := Completed, result := result, completedAt := Some(now), terminalAt := Some(now),
       updatedAt := now)
  }

  function AsRetry(j: Job, delay: int, now: int): Job {
    j.(status := Pending, scheduleAt := Some(now + delay), startedAt := None, workerId := "",
       terminalAt := None, updatedAt := now)
  }

  function AsDlq(j: Job, reason: string, now: int): Job {
    j.(status := Dlq, errorMessage := reason, terminalAt := Some(now), updatedAt := now)
  }

  function AsCancelled(j: Job, now: int): Job {
    j.(status := Cancelled, terminalAt := Some(now), updatedAt := now)
  }

  function AsReclaimed(j: Job, now: int): Job {
    j.(status := Pending, workerId := "", startedAt := None, terminalAt := None, updatedAt := now)
  }

  function AsPromoted(j: Job, now: int): Job {
    j.(status := Pending, terminalAt := None, updatedAt := now)
  }

  function AsRevived(j: Job, now: int): Job {
    j.(status := Pending, scheduleAt := None, errorMessage := "", startedAt := None,
       completedAt := None, workerId := "", terminalAt := None, updatedAt := now)
  }

  // ---- the same transitions as the SET lists of the SQL statements ----

  function SqlClaimed(j: Job, worker: string, now: int): Job {
    j.(status := Running, workerId := worker, attempt := j.attempt + 1, startedAt := Some(now),
       updatedAt := now)
  }

  function SqlReclaimed(j: Job, now: int): Job {
    j.(status := Pending, workerId := "", startedAt := None, updatedAt := now)
  }

  function SqlExtended(j: Job, now: int): Job {
    j.(startedAt := Some(now), updatedAt := now)
  }

  function SqlForceCancelled(j: Job, now: int): Job {
    j.(status := Cancelled, terminalAt := Some(now), workerId := "", startedAt := None,
       updatedAt := now)
  }

  /** The claim and reclaim statements write the same row as the entity's own transitions exactly
      when terminal_at is clear, which the row shape gives for every row they select. */
  lemma SqlAgreesWithEntity(j: Job, worker: string, now: int)
    ensures SqlClaimed(j, worker, now) == AsRunning(j, worker, now) <==> j.terminalAt.None?
    ensures SqlReclaimed(j, now) == AsReclaimed(j, now) <==> j.terminalAt.None?
    ensures j.WellShaped() && !j.IsTerminal() ==> j.terminalAt.None?
  {
    assert SqlClaimed(j, worker, now).terminalAt == j.terminalAt;
    assert SqlReclaimed(j, now).terminalAt == j.terminalAt;
    assert AsRunning(j, worker, now) == SqlClaimed(j, worker, now).(terminalAt := None);
    assert AsReclaimed(j, now) == SqlReclaimed(j, now).(terminalAt := None);
  }

  // ---- back-off ----

  const TWO63: int := 0x8000_0000_0000_0000
  const TWO64: int := 0x1_0000_0000_0000_0000

  /** The value a 64-bit signed integer holds after an operation with mathematical result `n`. */
  function Wrap64(n: int): (r: int)
    ensures -TWO63 <= r < TWO63
    ensures -TWO63 <= n < TWO63 ==> r == n
  {
    (n + TWO63) % TWO64 - TWO63
  }

  /** attempt * attempt minutes, in the machine's arithmetic. */
  function DefaultBackoff(attempt: nat): int {
    Wrap64(Wrap64(attempt * attempt) * MINUTE)
  }

  function NackDelay(attempt: nat, requested: int): int {
    if requested <= 0 then DefaultBackoff(attempt) else requested
  }

  /** The last attempt whose default back-off does not overflow. */
  const MAX_BACKOFF_ATTEMPT: nat := 12398

  /** The default back-off is the quadratic delay for every attempt up to the last one that fits;
      from the next attempt on it is strictly shorter than the quadratic delay. */
  lemma BackoffExact(attempt: nat)
    ensures DefaultBackoff(attempt) >= attempt * attempt * MINUTE <==> attempt <= MAX_BACKOFF_ATTEMPT
    ensures attempt <= MAX_BACKOFF_ATTEMPT ==> DefaultBackoff(attempt) == attempt * attempt * MINUTE
  {
    var m := MAX_BACKOFF_ATTEMPT;
    if attempt <= m {
      SquareMonotone(attempt, m);
    } else {
      SquareMonotone(m + 1, attempt);
    }
  }

  /** At any attempt the default delay is attempt squared minutes as 64-bit arithmetic has it: off by a multiple of
      2^64, and within the range of a signed integer. */
  lemma BackoffWraps(attempt: nat) returns (k: int)
    ensures DefaultBackoff(attempt) == attempt * attempt * 60_000_000_000 + k * 0x1_0000_0000_0000_0000
    ensures -0x8000_0000_0000_0000 <= DefaultBackoff(attempt) < 0x8000_0000_0000_0000
  {
    var square := Wrap64(attempt * attempt);
    var i := WrapOffset(attempt * attempt);
    var j := WrapOffset(square * MINUTE);
    k := i * MINUTE + j;
    assert square * MINUTE == attempt * attempt * MINUTE + i * TWO64 * MINUTE;
  }

  lemma WrapOffset(n: int) returns (k: int)
    ensures Wrap64(n) == n + k * TWO64
  {
    k := -((n + TWO63) / TWO64);
  }

  lemma SquareMonotone(a: nat, b: nat)
    requires a <= b
    ensures 0 <= a * a <= b * b
  {
    assert b * b - a * a == (b - a) * (b + a);
  }

  /** One attempt past the limit the delay is negative, so the job is due before it is nacked. */
  lemma BackoffOverflow()
    ensures DefaultBackoff(MAX_BACKOFF_ATTEMPT + 1) < 0
  {
    assert (MAX_BACKOFF_ATTEMPT + 1) * (MAX_BACKOFF_ATTEMPT + 1) == 153735201;
  }

  // ---- the mutable entity ----

  class JobEntity {
    const id: JobId
    const project: int
    const queue: string
    const payload: string
    const idempotencyKey: Option<string>
    const maxAttempts: int
    const createdAt: int
    var status: Status
    var result: string
    var attempt: nat
    var scheduleAt: Option<int>
    var startedAt: Option<int>
    var completedAt: Option<int>
    var terminalAt: Option<int>
    var workerId: string
    var errorMessage: string
    var updatedAt: int

    constructor (id: JobId, j: Job)
      ensures Row() == j && this.id == id
    {
      this.id := id;
      project, queue, payload, idempotencyKey := j.project, j.queue, j.payload, j.idempotencyKey;
      maxAttempts, createdAt := j.maxAttempts, j.createdAt;
      status, result, attempt := j.status, j.result, j.attempt;
      scheduleAt, startedAt, completedAt, terminalAt := j.scheduleAt, j.startedAt, j.completedAt, j.terminalAt;
      workerId, errorMessage, updatedAt := j.workerId, j.errorMessage, j.updatedAt;
    }

    /** The row this entity is written back as. */
    function Row(): Job
      reads this
    {
      Job(project, queue, status, payload, result, idempotencyKey, attempt, maxAttempts,
          scheduleAt, startedAt, completedAt, terminalAt, workerId, errorMessage, createdAt, updatedAt)
    }

    method SetTerminalAt(now: int)
      modifies this`terminalAt
      ensures terminalAt == Some(now)
    {
      terminalAt := Some(now);
    }

    method ClearTerminalAt()
      modifies this`terminalAt
      ensures terminalAt == None
    {
      terminalAt := None;
    }

    method MarkRunning(worker: string, now: int)
      modifies this
      ensures Row() == AsRunning(old(Row()), worker, now)
      ensures var j := old(Row());
              Row() == j.(status := Running, workerId := worker, attempt := j.attempt + 1, startedAt := Some(now),
                          terminalAt := None, updatedAt := now)
    {
      status := Running;
      workerId := worker;
      attempt := attempt + 1;
      startedAt := Some(now);
      ClearTerminalAt();
      updatedAt := now;
    }

    method MarkCompleted(result: string, now: int)
      modifies this
      ensures Row() == AsCompleted(old(Row()), result, now)
    {
      status := Completed;
      this.result := result;
      completedAt := Some(now);
      SetTerminalAt(now);
      updatedAt := now;
    }

    method MarkFailed(reason: string, now: int)
      modifies this
      ensures Row() == old(Row()).(status := Failed, errorMessage := reason, terminalAt := Some(now), updatedAt := now)
    {
      status := Failed;
      errorMessage := reason;
      SetTerminalAt(now);
      updatedAt := now;
    }

    method MarkRetry(delay: int, now: int)
      modifies this
      ensures Row() == AsRetry(old(Row()), delay, now)
    {
      status := Pending;
      scheduleAt := Some(now + delay);
      startedAt := None;
      workerId := "";
      ClearTerminalAt();
      updatedAt := now;
    }

    method MarkDlq(reason: string, now: int)
      modifies this
      ensures Row() == AsDlq(old(Row()), reason, now)
    {
      status := Dlq;
      errorMessage := reason;
      SetTerminalAt(now);
      updatedAt := now;
    }

    method MarkCancelled(now: int)
      modifies this
      ensures Row() == AsCancelled(old(Row()), now)
    {
      status := Cancelled;
      SetTerminalAt(now);
      updatedAt := now;
    }

    method MarkReclaimed(now: int)
      modifies this
      ensures Row() == AsReclaimed(old(Row()), now)
      ensures Row() == old(Row()).(status := Pending, workerId := "", startedAt := None, terminalAt := None,
                                   updatedAt := now)
    {
      status := Pending;
      workerId := "";
      startedAt := None;
      ClearTerminalAt();
      updatedAt := now;
    }

    method MarkPendingForSchedule(now: int)
      modifies this
      ensures Row() == AsPromoted(old(Row()), now)
    {
      status := Pending;
      ClearTerminalAt();
      updatedAt := now;
    }

    method MarkRetryFromControl(now: int)
      modifies this
      ensures Row() == AsRevived(old(Row()), now)
    {
      status := Pending;
      scheduleAt := None;
      errorMessage := "";
      startedAt := None;
      completedAt := None;
      workerId := "";
      ClearTerminalAt();
      updatedAt := now;
    }
  }
}
