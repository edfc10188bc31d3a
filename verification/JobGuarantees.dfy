/** What a client of the queue can rely on for one job, over every run from an initial state.

    The counts need a history in which no update was lost: no handler saved the job after it had changed
    since that handler read it.  Shape, leases, fencing and finality do not. */
module JobGuarantees {
  import opened Wrappers
  import opened JobModel
  import opened QueueState
  import opened QueueSteps
  import opened StepEquations
  import opened JobHistory

  /** Every stored row keeps its shape: terminal_at is set exactly on terminal rows, running rows
      hold a lease, waiting rows hold none, scheduled rows have a schedule. */
  lemma {:induction false} RowShape(s0: State, es: seq<Event>, id: JobId)
    requires Initial(s0) && id in Run(s0, es).jobs
    ensures
      var j := Run(s0, es).jobs[id];
      && (j.terminalAt.Some? <==> j.status in {Completed, Cancelled, Failed, Dlq})
      && (j.status == Running ==> j.startedAt.Some? && j.attempt >= 1)
      && (j.status in {Pending, Scheduled} ==> j.workerId == "" && j.startedAt == None)
      && (j.status == Scheduled ==> j.scheduleAt.Some?)
      && (j.completedAt.Some? <==> j.status == Completed)
      && j.maxAttempts >= 1
  {
    HistoryInvariant(s0, es, id);
  }

  /** Every claim ended in exactly one way, or is the one still running. */
  lemma {:induction false} ClaimAccounting(s0: State, es: seq<Event>, id: JobId)
    requires Initial(s0) && id in Run(s0, es).jobs && !HistoryOf(s0, es, id).lost
    ensures
      var j, h := Run(s0, es).jobs[id], HistoryOf(s0, es, id);
      && j.attempt == h.claims
      && j.attempt == h.retries + h.reclaims + h.acks + h.deadLetters + h.cancels
                      + (if j.status.Running? then 1 else 0)
  {
    HistoryInvariant(s0, es, id);
  }

  // ---- retries ----

  /** A job is nack-retried fewer times than its attempts allow, reclaims and control retries
      notwithstanding; without those it is claimed at most that many times.  Both hold of deleted
      jobs too. */
  lemma {:induction false} RetryBound(s0: State, es: seq<Event>, id: JobId)
    requires Initial(s0) && id in Run(s0, es).issued && !HistoryOf(s0, es, id).lost
    ensures
      var h := HistoryOf(s0, es, id);
      && h.created.Some?
      && h.retries <= h.created.value.maxAttempts - 1
      && (h.reclaims == 0 && h.revivals == 0 ==> h.claims <= h.created.value.maxAttempts)
  {
    HistoryInvariant(s0, es, id);
  }

  /** A nack that saves an unchanged job dead-letters it exactly when it has been claimed at least
      MaxAttempts times; otherwise it retries it. */
  lemma NackDeadLettersIff(s0: State, es: seq<Event>, token: nat, id: JobId)
    requires Initial(s0) && !HistoryOf(s0, es, id).lost
    requires Enabled(Run(s0, es), JobSave(token))
    requires var c := Run(s0, es).copies[token];
             c.id == id && c.change.Failing? && Lookup(Run(s0, es), id) == Some(c.read)
    ensures
      var f, h := FateOf(Run(s0, es), JobSave(token), id), HistoryOf(s0, es, id);
      && (f.DeadLettered? <==> h.claims >= Run(s0, es).jobs[id].maxAttempts)
      && (f.Retried? <==> h.claims < Run(s0, es).jobs[id].maxAttempts)
  {
    HistoryInvariant(s0, es, id);
    hide NackDelay, Apply, Step;
  }

  /** If every nack so far used the default delay, a claim after k retries comes at least
      k(k+1)(2k+1)/6 minutes after the first one, even with reclaims and control retries between. */
  lemma {:induction false} BackoffOverRuns(s0: State, es: seq<Event>, e: Event, id: JobId)
    requires Initial(s0) && FateOf(Run(s0, es), e, id).Claimed?
    requires HistoryOf(s0, es, id).quadratic && HistoryOf(s0, es, id).claims > 0 && !HistoryOf(s0, es, id).lost
    requires Run(s0, es).jobs[id].maxAttempts <= MAX_BACKOFF_ATTEMPT + 1
    ensures
      var h := HistoryOf(s0, es, id);
      var k := h.retries;
      && h.firstClaim.Some?
      && 6 * (Run(s0, es).now - h.firstClaim.value) >= k * (k + 1) * (2 * k + 1) * MINUTE
  {
    hide Apply, Enabled, FateOf;
    HistoryInvariant(s0, es, id);
    StepRow(Run(s0, es), e, id);
    ClaimedIsBackedOff(Run(s0, es).jobs[id], HistoryOf(s0, es, id), Run(s0, es).now);
  }

  lemma ClaimedIsBackedOff(j: Job, h: History, now: int)
    requires Consistent(j, h) && BackedOff(j, h, now) && SqlClaimable(j, now)
    requires h.quadratic && h.firstClaim.Some? && !h.lost && j.maxAttempts <= MAX_BACKOFF_ATTEMPT + 1
    ensures 6 * (now - h.firstClaim.value) >= h.retries * (h.retries + 1) * (2 * h.retries + 1) * MINUTE
  {
    SumOfSquaresClosed(h.retries);
    assert BackedOffUntil(h.firstClaim.value, h.retries) <= now;
    hide SumOfSquares;
  }

  /** A default nack at attempt 12399 leaves the job due at once, its delay being negative. */
  lemma BackoffLostPastLimit(j: Job, now: int)
    requires j.status.Running? && j.attempt == MAX_BACKOFF_ATTEMPT + 1 && j.CanRetry()
    ensures AsRetry(j, NackDelay(j.attempt, 0), now).IsClaimable(now)
  {
    BackoffOverflow();
  }

  // ---- leases ----

  /** A sweep reclaims a job only when more than its queue's visibility timeout has passed since the
      later of its latest claim and its worker's latest heartbeat. */
  lemma ReclaimOnlyExpired(s0: State, es: seq<Event>, e: Event, id: JobId)
    requires Initial(s0) && FateOf(Run(s0, es), e, id).Reclaimed?
    ensures
      var s := Run(s0, es);
      && id in s.jobs && KeyOf(s.jobs[id]) in s.queues
      && s.now - HistoryOf(s0, es, id).touched > s.queues[KeyOf(s.jobs[id])].visibility
  {
    HistoryInvariant(s0, es, id);
    StepRow(Run(s0, es), e, id);
  }

  /** A heartbeat of a registered worker extends exactly the leases it holds in the project. */
  lemma FateOfHeartbeat(s: State, e: Event, id: JobId)
    requires e.Heartbeat?
    ensures FateOf(s, e, id) ==
            if e.worker in s.workers && s.workers[e.worker].project == e.project && e.worker != ""
               && id in LeasesOf(s.jobs, e.project, e.worker)
            then Extended else Untouched
  {
    hide Step, Enabled, LeasesOf;
    StepOfHeartbeat(s, e);
  }

  /** A heartbeat of a registered worker renews the lease of every job it runs. */
  lemma {:induction false} HeartbeatRenews(s0: State, es: seq<Event>, id: JobId, worker: string)
    requires Initial(s0) && id in Run(s0, es).jobs && worker != ""
    requires HistoryOf(s0, es, id).holder == Some(worker)
    requires worker in Run(s0, es).workers && Run(s0, es).workers[worker].project == Run(s0, es).jobs[id].project
    ensures
      var e := Heartbeat(Run(s0, es).jobs[id].project, worker);
      && FateOf(Run(s0, es), e, id) == Extended
      && HistoryOf(s0, es + [e], id).touched == Run(s0, es).now
      && Run(s0, es + [e]).jobs[id].startedAt == Some(Run(s0, es).now)
  {
    hide Step, Enabled, FateOf;
    var e := Heartbeat(Run(s0, es).jobs[id].project, worker);
    HistoryInvariant(s0, es, id);
    FateOfHeartbeat(Run(s0, es), e, id);
    StepRow(Run(s0, es), e, id);
    RunSnoc(s0, es, e);
    assert (es + [e])[..|es|] == es;
  }

  /** At this point of the run the job's lease, if it has one, is at most its timeout old. */
  ghost predicate Fresh(s0: State, es: seq<Event>, id: JobId) {
    var s := Run(s0, es);
    id in s.jobs && s.jobs[id].status.Running? && KeyOf(s.jobs[id]) in s.queues ==>
      s.now - HistoryOf(s0, es, id).touched <= s.queues[KeyOf(s.jobs[id])].visibility
  }

  lemma FreshStepKeeps(s0: State, es: seq<Event>, e: Event, id: JobId)
    requires Initial(s0) && Fresh(s0, es, id)
    ensures HistoryOf(s0, es + [e], id).reclaims == HistoryOf(s0, es, id).reclaims
  {
    hide Apply, Enabled, FateOf;
    assert (es + [e])[..|es|] == es;
    StepRow(Run(s0, es), e, id);
    if FateOf(Run(s0, es), e, id).Reclaimed? {
      ReclaimOnlyExpired(s0, es, e, id);
      assert false;
    }
  }

  /** A job whose lease stays fresh is never reclaimed. */
  lemma {:induction false} FreshLeaseIsKept(s0: State, es: seq<Event>, fs: seq<Event>, id: JobId)
    requires Initial(s0)
    requires forall n :: 0 <= n < |fs| ==> Fresh(s0, es + fs[..n], id)
    ensures HistoryOf(s0, es + fs, id).reclaims == HistoryOf(s0, es, id).reclaims
    decreases |fs|
  {
    hide HistoryOf, Fresh, Run;
    if fs == [] {
      assert es + fs == es;
    } else {
      var init, e := fs[..|fs| - 1], fs[|fs| - 1];
      forall n | 0 <= n < |init| ensures Fresh(s0, es + init[..n], id) {
        assert init[..n] == fs[..n];
      }
      FreshLeaseIsKept(s0, es, init, id);
      assert fs[..|init|] == init;
      FreshStepKeeps(s0, es + init, e, id);
      assert es + fs == es + init + [e];
    }
  }

  /** At step `m` of the run `worker` gives a sign of life for the job: it claims it, or it is
      registered in the project and sends a heartbeat. */
  ghost predicate Beats(s0: State, es: seq<Event>, m: nat, id: JobId, project: int, worker: string)
    requires m < |es|
  {
    var s, e := Run(s0, es[..m]), es[m];
    || FateOf(s, e, id) == Claimed(worker)
    || (&& worker != "" && e == Heartbeat(project, worker)
        && worker in s.workers && s.workers[worker].project == project)
  }

  ghost predicate RunsFor(s: State, id: JobId, project: int, worker: string) {
    id in s.jobs && s.jobs[id].status.Running? && s.jobs[id].project == project && s.jobs[id].workerId == worker
  }

  /** If the job runs for the worker right after a sign of life, its lease was renewed by it. */
  lemma {:induction false} BeatTouches(s0: State, es: seq<Event>, m: nat, id: JobId, project: int, worker: string)
    requires Initial(s0) && m < |es| && Beats(s0, es, m, id, project, worker)
    requires RunsFor(Run(s0, es[..m + 1]), id, project, worker)
    ensures HistoryOf(s0, es[..m + 1], id).touched == Run(s0, es[..m]).now
  {
    hide Step, Enabled, FateOf;
    var s, e := Run(s0, es[..m]), es[m];
    assert es[..m + 1][..m] == es[..m];
    StepRow(s, e, id);
    if e.Heartbeat? {
      FateOfHeartbeat(s, e, id);
    }
  }

  /** No step leaves a job running for a worker except its claim, a renewal, or leaving the row alone. */
  lemma TouchedGrows(s: State, e: Event, id: JobId, h: History, project: int, worker: string)
    requires RunsFor(Step(s, e), id, project, worker)
    ensures
      var h' := Record(h, FateOf(s, e, id), IsRunning(Lookup(s, id)), s.now);
      h'.touched == s.now || (h'.touched == h.touched && RunsFor(s, id, project, worker))
  {
    hide Step, Enabled, FateOf;
    StepRow(s, e, id);
  }

  /** If the job runs for the worker at any later point, its lease is no older than the sign of life. */
  lemma {:induction false} TouchedSinceBeat(s0: State, es: seq<Event>, m: nat, n: nat, id: JobId, project: int,
                                            worker: string)
    requires Initial(s0) && m < n <= |es| && Beats(s0, es, m, id, project, worker)
    ensures Run(s0, es[..n]).now >= Run(s0, es[..m]).now
    ensures RunsFor(Run(s0, es[..n]), id, project, worker) ==>
              HistoryOf(s0, es[..n], id).touched >= Run(s0, es[..m]).now
    decreases n
  {
    hide Step, Enabled, FateOf, Beats, RunsFor;
    var s, e := Run(s0, es[..n - 1]), es[n - 1];
    assert es[..n][..n - 1] == es[..n - 1];
    StepRow(s, e, id);
    if n > m + 1 {
      TouchedSinceBeat(s0, es, m, n - 1, id, project, worker);
      if RunsFor(Run(s0, es[..n]), id, project, worker) {
        TouchedGrows(s, e, id, HistoryOf(s0, es[..n - 1], id), project, worker);
      }
    } else if RunsFor(Run(s0, es[..n]), id, project, worker) {
      BeatTouches(s0, es, m, id, project, worker);
    }
  }

  /** If the job is running at the end of the run, its worker gave a sign of life no longer ago than
      the visibility timeout of its queue. */
  ghost predicate HeardFrom(s0: State, es: seq<Event>, id: JobId) {
    var s := Run(s0, es);
    id in s.jobs && s.jobs[id].status.Running? && KeyOf(s.jobs[id]) in s.queues ==>
      exists m :: 0 <= m < |es| && Beats(s0, es, m, id, s.jobs[id].project, s.jobs[id].workerId)
                  && s.now - Run(s0, es[..m]).now <= s.queues[KeyOf(s.jobs[id])].visibility
  }

  lemma {:induction false} HeardFromIsFresh(s0: State, es: seq<Event>, id: JobId)
    requires Initial(s0) && HeardFrom(s0, es, id)
    ensures Fresh(s0, es, id)
  {
    hide Beats;
    var s := Run(s0, es);
    if id in s.jobs && s.jobs[id].status.Running? && KeyOf(s.jobs[id]) in s.queues {
      var m :| 0 <= m < |es| && Beats(s0, es, m, id, s.jobs[id].project, s.jobs[id].workerId)
               && s.now - Run(s0, es[..m]).now <= s.queues[KeyOf(s.jobs[id])].visibility;
      TouchedSinceBeat(s0, es, m, |es|, id, s.jobs[id].project, s.jobs[id].workerId);
      assert es[..|es|] == es;
    }
  }

  /** A job is never reclaimed while its worker, after claiming it, sends heartbeats at gaps no longer
      than the visibility timeout, whatever else runs in between. */
  lemma {:induction false} HeartbeatsKeepTheLease(s0: State, es: seq<Event>, fs: seq<Event>, id: JobId)
    requires Initial(s0)
    requires forall n :: 0 <= n < |fs| ==> HeardFrom(s0, es + fs[..n], id)
    ensures HistoryOf(s0, es + fs, id).reclaims == HistoryOf(s0, es, id).reclaims
  {
    hide HeardFrom, Fresh, HistoryOf, Run;
    forall n | 0 <= n < |fs| ensures Fresh(s0, es + fs[..n], id) {
      HeardFromIsFresh(s0, es + fs[..n], id);
    }
    FreshLeaseIsKept(s0, es, fs, id);
  }

  // ---- fencing and completion ----

  /** Past the guard, ack and nack are accepted exactly from the worker of the job's latest claim, while
      that claim has not been reclaimed, nacked, acked or cancelled; a claim made without a worker id can
      be settled by anyone. */
  lemma {:induction false} SettleIff(s0: State, es: seq<Event>, key: QueueKey, id: JobId, worker: string)
    requires Initial(s0) && Found(Run(s0, es), key, id)
    ensures
      var h := HistoryOf(s0, es, id);
      SettleOutcome(Run(s0, es), key, id, worker).Done? <==>
        h.holder.Some? && (h.holder.value == "" || h.holder.value == worker)
  {
    HistoryInvariant(s0, es, id);
  }

  /** A job is acknowledged at most once in any run, and keeps the acknowledged result. */
  lemma {:induction false} CompletesOnce(s0: State, es: seq<Event>, id: JobId)
    requires Initial(s0) && !HistoryOf(s0, es, id).lost
    ensures
      var h, s := HistoryOf(s0, es, id), Run(s0, es);
      && h.acks <= 1
      && (h.acks == 1 && id in s.jobs ==>
            && s.jobs[id].status.Completed?
            && h.outcome.Some?
            && s.jobs[id].result == h.outcome.value.0
            && s.jobs[id].completedAt == Some(h.outcome.value.1))
  {
    HistoryInvariant(s0, es, id);
  }

  ghost predicate Final(s: State, id: JobId) {
    id in s.jobs && id in s.issued && (s.jobs[id].status.Completed? || s.jobs[id].status.Cancelled?)
  }

  /** No handler that has read, inserted or saved the job has still to save it. */
  ghost predicate NoCopies(s: State, id: JobId) {
    forall token :: token in s.copies ==> s.copies[token].id != id
  }

  lemma NoCopiesStep(s: State, e: Event, id: JobId)
    requires NoCopies(s, id) && id in s.issued
    requires e.JobRead? && e.id == id && id in s.jobs ==> !e.change.Fits(s.jobs[id])
    ensures NoCopies(Step(s, e), id)
  {
    hide Step, Enabled, GoesAhead, GoesOn, Change.Fits, Change.Of, Request.Row;
    var t := Step(s, e);
    forall token | token in t.copies ensures t.copies[token].id != id {
      CopyMoves(s, e, token);
      if ReadsCopy(s, e, token, t.copies[token]) { GoesAheadFits(s, e.key, e.id, e.change); }
    }
  }

  /** Without copies in handlers' hands a completed or cancelled row never changes again; it can only be
      deleted, and then the id stays unused. */
  lemma {:induction false} FinalForever(s: State, es: seq<Event>, id: JobId)
    requires Final(s, id) && NoCopies(s, id)
    ensures id in Run(s, es).issued && NoCopies(Run(s, es), id)
    ensures id in Run(s, es).jobs ==> Run(s, es).jobs[id] == s.jobs[id]
    decreases |es|
  {
    hide Step, Enabled, FateOf, NoCopies;
    if es != [] {
      var init, e := es[..|es| - 1], es[|es| - 1];
      FinalForever(s, init, id);
      StepRow(Run(s, init), e, id);
      NoCopiesNotOverwritten(Run(s, init), e, id);
      NoCopiesStep(Run(s, init), e, id);
    }
  }

  lemma NoCopiesNotOverwritten(s: State, e: Event, id: JobId)
    requires NoCopies(s, id)
    ensures !FateOf(s, e, id).Overwritten?
  {
    hide FateOf;
    OnlySavesOverwrite(s, e, id);
  }

  /** A dead-lettered row stays as it is, or is deleted, until a control retry or a lost update. */
  lemma {:induction false} DeadLetterHolds(s: State, es: seq<Event>, id: JobId)
    requires id in s.jobs && id in s.issued && s.jobs[id].status.Dlq?
    requires forall n :: 0 <= n < |es| ==>
               !FateOf(Run(s, es[..n]), es[n], id).Revived? && !FateOf(Run(s, es[..n]), es[n], id).Overwritten?
    ensures id in Run(s, es).issued
    ensures id in Run(s, es).jobs ==> Run(s, es).jobs[id] == s.jobs[id]
    decreases |es|
  {
    hide Apply, Enabled, FateOf;
    if es != [] {
      var init, e := es[..|es| - 1], es[|es| - 1];
      forall n | 0 <= n < |init|
        ensures !FateOf(Run(s, init[..n]), init[n], id).Revived? && !FateOf(Run(s, init[..n]), init[n], id).Overwritten?
      {
        assert init[..n] == es[..n];
      }
      DeadLetterHolds(s, init, id);
      StepRow(Run(s, init), e, id);
    }
  }
}
