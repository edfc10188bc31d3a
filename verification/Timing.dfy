/** When a job is claimed, and in which order, and when a lost lease is taken back, over whole runs.  These
    statements are about the columns of the rows and the clock; they name no transition and no selection. */
module Timing {
  import opened Wrappers
  import opened JobModel
  import opened QueueState
  import opened QueueSteps
  import opened StepEquations
  import opened JobHistory
  import opened CascadeSafety
  import opened Stranding
  import opened StatementMeaning

  // ---- the delay of a nack ----

  /** The save of a nack that may retry puts the job back, due after the delay asked for, or else after the square
      of the attempt in minutes: from then on, and not before, it is claimable. */
  lemma NackPutsOff(s: State, token: nat)
    requires token in s.copies && s.copies[token].change.Failing? && Enabled(s, JobSave(token))
    requires s.copies[token].id in s.jobs && s.copies[token].read.attempt < s.copies[token].read.maxAttempts
    ensures s.copies[token].id in Step(s, JobSave(token)).jobs
    ensures
      var c := s.copies[token];
      var j, delay, a := Step(s, JobSave(token)).jobs[c.id], c.change.retryDelay, c.read.attempt;
      && j.status == Pending && j.scheduleAt.Some? && j.workerId == "" && j.startedAt == None && j.attempt == a
      && (delay > 0 ==> j.scheduleAt.value == s.now + delay)
      && (delay <= 0 && a <= 12398 ==> j.scheduleAt.value == s.now + a * a * 60_000_000_000)
      && (forall u :: j.IsClaimable(u) <==> u >= j.scheduleAt.value)
  {
    hide Step, Enabled, Change.Of, DefaultBackoff;
    SaveWrites(s, token);
    ChangeMeans(s.copies[token], s.now);
    BackoffExact(s.copies[token].read.attempt);
  }

  /** The step saves the job for a handler that has not seen the row as it is: a lost update. */
  ghost predicate StaleSave(s: State, e: Event, id: JobId) {
    && e.JobSave? && e.token in s.copies && s.copies[e.token].id == id
    && (id !in s.jobs || s.jobs[id] != s.copies[e.token].read)
  }

  /** The time has come, or the job waits for it, or will never be claimed again. */
  ghost predicate PutOff(s: State, id: JobId, due: int) {
    && id in s.issued
    && (|| s.now >= due || id !in s.jobs || s.jobs[id].status == Cancelled
        || (s.jobs[id].status == Pending && s.jobs[id].scheduleAt == Some(due)))
  }

  ghost predicate Takes(s: State, e: Event, id: JobId) {
    e.Claim? && Enabled(s, e) && id in e.picked
  }

  lemma PutOffStep(s: State, e: Event, id: JobId, due: int)
    requires PutOff(s, id, due) && !StaleSave(s, e, id)
    ensures PutOff(Step(s, e), id, due)
    ensures Takes(s, e, id) ==> s.now >= due
  {
    hide Step, Enabled, FateOf;
    StepRow(s, e, id);
    OnlySavesOverwrite(s, e, id);
    if Takes(s, e, id) { TakenIsClaimed(s, e, id); }
  }

  lemma TakenIsClaimed(s: State, e: Event, id: JobId)
    requires Takes(s, e, id)
    ensures FateOf(s, e, id).Claimed?
  {
    hide Enabled;
  }

  lemma {:induction false} PutOffOverRun(s: State, es: seq<Event>, id: JobId, due: int)
    requires PutOff(s, id, due)
    requires forall n :: 0 <= n < |es| ==> !StaleSave(Run(s, es[..n]), es[n], id)
    ensures PutOff(Run(s, es), id, due)
    ensures forall n :: 0 <= n < |es| && Takes(Run(s, es[..n]), es[n], id) ==> Run(s, es[..n]).now >= due
    decreases |es|
  {
    hide Step, PutOff, Takes, StaleSave;
    if es != [] {
      var init, e := es[..|es| - 1], es[|es| - 1];
      assert forall n :: 0 <= n <= |init| ==> init[..n] == es[..n];
      PutOffOverRun(s, init, id, due);
      PutOffStep(Run(s, init), e, id, due);
    }
  }

  /** A job that waits for its schedule is not claimed before it in any run that loses no update of the job: not
      after a cancel, a reclaim, a promotion or a deletion either. */
  lemma NotClaimedBefore(s: State, es: seq<Event>, id: JobId)
    requires id in s.issued && id in s.jobs && s.jobs[id].status == Pending && s.jobs[id].scheduleAt.Some?
    requires forall n :: 0 <= n < |es| ==> !StaleSave(Run(s, es[..n]), es[n], id)
    ensures forall n :: 0 <= n < |es| && es[n].Claim? && Enabled(Run(s, es[..n]), es[n]) && id in es[n].picked ==>
              Run(s, es[..n]).now >= s.jobs[id].scheduleAt.value
  {
    hide Run, Enabled, StaleSave;
    PutOffOverRun(s, es, id, s.jobs[id].scheduleAt.value);
    forall n | 0 <= n < |es| && es[n].Claim? && Enabled(Run(s, es[..n]), es[n]) && id in es[n].picked
      ensures Run(s, es[..n]).now >= s.jobs[id].scheduleAt.value
    {
      assert Takes(Run(s, es[..n]), es[n], id);
    }
  }

  /** So no claim takes a nacked job before the delay asked for is over, or by default the square of its attempt
      in minutes. */
  lemma NackHoldsOff(s: State, token: nat, es: seq<Event>)
    requires token in s.copies && s.copies[token].change.Failing? && Enabled(s, JobSave(token))
    requires s.copies[token].id in s.jobs && s.copies[token].read.attempt < s.copies[token].read.maxAttempts
    requires forall n :: 0 <= n < |es| ==>
               !StaleSave(Run(Step(s, JobSave(token)), es[..n]), es[n], s.copies[token].id)
    ensures
      var c, t := s.copies[token], Step(s, JobSave(token));
      forall n :: 0 <= n < |es| && es[n].Claim? && Enabled(Run(t, es[..n]), es[n]) && c.id in es[n].picked ==>
        && (c.change.retryDelay > 0 ==> Run(t, es[..n]).now >= s.now + c.change.retryDelay)
        && (c.change.retryDelay <= 0 && c.read.attempt <= 12398 ==>
              Run(t, es[..n]).now >= s.now + c.read.attempt * c.read.attempt * 60_000_000_000)
  {
    hide Run, Step, Enabled, StaleSave;
    NackPutsOff(s, token);
    SaveNeeds(s, token);
    SaveWrites(s, token);
    NotClaimedBefore(Step(s, JobSave(token)), es, s.copies[token].id);
  }

  // ---- lost leases ----

  /** In every run a sweep reclaims jobs whose queue and tenant are active and whose last sign of life is older than
      the queue's visibility timeout: all of them, whoever runs them, unless its limit (500 by default) binds, and
      then none before one that has been silent for longer. */
  lemma {:induction false} SweepTakes(s0: State, es: seq<Event>, limit: int, picked: set<JobId>, id: JobId)
    requires Initial(s0) && Enabled(Run(s0, es), Reclaim(limit, picked)) && id in Run(s0, es).jobs
    ensures
      var s, n: nat := Run(s0, es), if limit <= 0 then 500 else limit;
      var j, key := s.jobs[id], QueueKey(s.jobs[id].project, s.jobs[id].queue);
      var overdue := && j.status == Running && key in s.queues && s.queues[key].status == Active
                     && j.project in s.tenants && s.tenants[j.project] == Active
                     && s.now - HistoryOf(s0, es, id).touched > s.queues[key].visibility;
      && |picked| <= n && (id in picked ==> overdue) && (|picked| < n && overdue ==> id in picked)
      && (FateOf(s, Reclaim(limit, picked), id).Reclaimed? <==> id in picked)
      && (overdue && id !in picked ==>
            forall x :: x in picked ==> HistoryOf(s0, es, x).touched <= HistoryOf(s0, es, id).touched)
  {
    hide Run, Enabled, HistoryOf;
    var s := Run(s0, es);
    var expired := set x | && x in s.jobs && s.jobs[x].status == Running && s.jobs[x].startedAt != None
                           && QueueKey(s.jobs[x].project, s.jobs[x].queue) in s.queues
                           && s.queues[QueueKey(s.jobs[x].project, s.jobs[x].queue)].status == Active
                           && s.jobs[x].project in s.tenants && s.tenants[s.jobs[x].project] == Active
                           && s.now - s.jobs[x].startedAt.value
                              > s.queues[QueueKey(s.jobs[x].project, s.jobs[x].queue)].visibility;
    ReclaimSelects(s, limit, picked, expired);
    forall x | x in s.jobs && s.jobs[x].status == Running
      ensures s.jobs[x].startedAt == Some(HistoryOf(s0, es, x).touched)
    {
      HistoryInvariant(s0, es, x);
    }
    FateOfReclaim(s, limit, picked, id);
  }

  lemma FateOfReclaim(s: State, limit: int, picked: set<JobId>, id: JobId)
    requires Enabled(s, Reclaim(limit, picked))
    ensures FateOf(s, Reclaim(limit, picked), id) == if id in picked then Reclaimed else Untouched
  {
    hide Enabled;
  }

  /** After a sweep that returns fewer than its limit no lost lease is left: every job still running in an active
      queue of an active tenant has had a sign of life within the queue's visibility timeout. */
  lemma {:induction false} SweepLeavesNone(s0: State, es: seq<Event>, limit: int, picked: set<JobId>, id: JobId)
    requires Initial(s0) && Enabled(Run(s0, es), Reclaim(limit, picked))
    requires |picked| < if limit <= 0 then 500 else limit
    requires id in Run(s0, es + [Reclaim(limit, picked)]).jobs
    ensures
      var fs := es + [Reclaim(limit, picked)];
      var t, j := Run(s0, fs), Run(s0, fs).jobs[id];
      var key := QueueKey(j.project, j.queue);
      j.status == Running && key in t.queues && t.queues[key].status == Active
      && j.project in t.tenants && t.tenants[j.project] == Active ==>
        t.now - HistoryOf(s0, fs, id).touched <= t.queues[key].visibility
  {
    hide Step, Enabled, FateOf;
    var e := Reclaim(limit, picked);
    var s := Run(s0, es);
    RunSnoc(s0, es, e);
    assert (es + [e])[..|es|] == es;
    ReclaimWrites(s, limit, picked);
    SweepTakes(s0, es, limit, picked, id);
    FateOfReclaim(s, limit, picked, id);
  }

  // ---- first in, first out ----

  /** Step `m` of the run is the last to build a row for the enqueue of `id`, an enqueue into `key` without a
      schedule or a delay. */
  ghost predicate DraftsAt(s0: State, es: seq<Event>, m: nat, id: JobId, key: QueueKey)
    requires m < |es|
  {
    var s, t := Run(s0, es[..m]), Run(s0, es[..m + 1]);
    && (es[m] == EnqueueDraft(id) || es[m] == EnqueueCreate(id))
    && id in s.requests && !s.requests[id].Drafted? && s.requests[id].key == key
    && s.requests[id].scheduleAt == None && s.requests[id].delay <= 0
    && id in t.requests && t.requests[id].Drafted?
    && forall k :: m < k < |es| ==> es[k] != EnqueueDraft(id) && es[k] != EnqueueCreate(id)
  }

  /** Of two jobs enqueued into a queue without a schedule, never nacked, and with no update lost, a claim that takes
      the one whose enqueue was later takes the earlier one too, if that is waiting: whatever else has happened to
      them, reclaims and control retries included. */
  lemma {:induction false} FirstInFirstOut(s0: State, es: seq<Event>, m: nat, n: nat, a: JobId, b: JobId, key: QueueKey,
                                           e: Event)
    requires Initial(s0) && m < |es| && n < |es| && DraftsAt(s0, es, m, a, key) && DraftsAt(s0, es, n, b, key)
    requires Run(s0, es[..m]).now < Run(s0, es[..n]).now
    requires forall id :: id in {a, b} ==> HistoryOf(s0, es, id).retries == 0 && !HistoryOf(s0, es, id).lost
    requires e.Claim? && Enabled(Run(s0, es), e) && b in e.picked
    requires a in Run(s0, es).jobs && Run(s0, es).jobs[a].status == Pending
    ensures a in e.picked
  {
    hide Run, Enabled, HistoryOf, DraftsAt;
    var s := Run(s0, es);
    var waiting := set id | && id in s.jobs && s.jobs[id].project == e.key.project && s.jobs[id].queue == e.key.name
                            && (s.jobs[id].status == Pending || s.jobs[id].status == Scheduled)
                            && (s.jobs[id].scheduleAt == None || s.jobs[id].scheduleAt.value <= s.now);
    ClaimSelects(s, e.key, e.worker, e.limit, e.picked, waiting);
    assert a in {a, b} && b in {a, b};
    Arrived(s0, es, m, a, key);
    Arrived(s0, es, n, b, key);
  }

  /** Such a job, if it is there, is in the queue, without a schedule, and was created when its row was built. */
  lemma {:induction false} Arrived(s0: State, es: seq<Event>, m: nat, id: JobId, key: QueueKey)
    requires Initial(s0) && m < |es| && DraftsAt(s0, es, m, id, key)
    requires HistoryOf(s0, es, id).retries == 0 && !HistoryOf(s0, es, id).lost
    ensures id in Run(s0, es).jobs ==>
              var j := Run(s0, es).jobs[id];
              QueueKey(j.project, j.queue) == key && j.createdAt == Run(s0, es[..m]).now && j.scheduleAt == None
  {
    hide Run, HistoryOf, DraftsAt;
    DraftBuilt(s0, es, m, id, key);
    DraftStays(s0, es, m + 1, |es|, id, key, Run(s0, es[..m]).now);
    assert es[..|es|] == es;
    HistoryInvariant(s0, es, id);
    if HistoryOf(s0, es, id).created.Some? { StaysUnscheduled(s0, es, id); }
  }

  /** The enqueue's draft, if there is one, and its job, if there has been one, are the row built at `at`. */
  ghost predicate BuiltAt(s: State, h: History, id: JobId, key: QueueKey, at: int) {
    && (id in s.requests && s.requests[id].Drafted? ==>
          s.requests[id].key == key && s.requests[id].scheduleAt == None && s.requests[id].at == at)
    && (h.created.Some? ==>
          var j := h.created.value;
          QueueKey(j.project, j.queue) == key && j.createdAt == at && j.scheduleAt == None)
  }

  lemma DraftBuilt(s0: State, es: seq<Event>, m: nat, id: JobId, key: QueueKey)
    requires Initial(s0) && m < |es| && DraftsAt(s0, es, m, id, key)
    ensures BuiltAt(Run(s0, es[..m + 1]), HistoryOf(s0, es[..m + 1], id), id, key, Run(s0, es[..m]).now)
    ensures forall k :: m < k < |es| ==> es[k] != EnqueueDraft(id) && es[k] != EnqueueCreate(id)
  {
    hide Step, Enabled, RequestsDrafted, HistoryOf;
    var s, t := Run(s0, es[..m]), Run(s0, es[..m + 1]);
    assert es[..m + 1] == es[..m] + [es[m]];
    RunSnoc(s0, es[..m], es[m]);
    InitialIsSound(s0);
    RunOrderly(s0, es[..m + 1]);
    RequestedIsUnborn(s0, es[..m + 1], id);
    DraftWrites(s, es[m], id);
  }

  lemma {:induction false} RequestedIsUnborn(s0: State, es: seq<Event>, id: JobId)
    requires Initial(s0) && Orderly(Run(s0, es)) && id in Run(s0, es).requests
    ensures HistoryOf(s0, es, id).created.None?
  {
    hide Run, HistoryOf;
    HistoryInvariant(s0, es, id);
  }

  /** What has been drafted in a step of the enqueue is dated now. */
  lemma DraftWrites(s: State, e: Event, id: JobId)
    requires e == EnqueueDraft(id) || e == EnqueueCreate(id)
    requires id in s.requests && !s.requests[id].Drafted?
    requires id in Step(s, e).requests && Step(s, e).requests[id].Drafted?
    ensures
      var d, r := Step(s, e).requests[id], s.requests[id];
      d.key == r.key && d.at == s.now && (r.scheduleAt == None && r.delay <= 0 ==> d.scheduleAt == None)
  {
    hide Step, Enabled, RequestsDrafted;
    if e == EnqueueDraft(id) {
      DraftNeeds(s, id);
      LookUpWrites(s, id);
      if s.requests[id].key in s.queues { DraftMeans(s, id, s.queues[s.requests[id].key]); }
    } else {
      DraftNeeds(s, id);
      CreateWrites(s, id);
      var u := Step(s, EnsureQueue(s.requests[id].key, 0, 0));
      if s.requests[id].key in u.queues { DraftMeans(s, id, u.queues[s.requests[id].key]); }
    }
  }

  lemma DraftNeeds(s: State, id: JobId)
    requires id in s.requests && !s.requests[id].Drafted?
    ensures s.requests[id].Admitted? || Step(s, EnqueueDraft(id)) == s
    ensures s.requests[id].Creating? || Step(s, EnqueueCreate(id)) == s
  {
    hide Step, Enabled, RequestsFound, RequestsCreated, QueueCreated, SerialCreated;
    StepOfDraft(s, EnqueueDraft(id));
    StepOfCreate(s, EnqueueCreate(id));
  }

  lemma {:induction false} DraftStays(s0: State, es: seq<Event>, m: nat, n: nat, id: JobId, key: QueueKey, at: int)
    requires m <= n <= |es| && BuiltAt(Run(s0, es[..m]), HistoryOf(s0, es[..m], id), id, key, at)
    requires forall k :: m <= k < n ==> es[k] != EnqueueDraft(id) && es[k] != EnqueueCreate(id)
    ensures BuiltAt(Run(s0, es[..n]), HistoryOf(s0, es[..n], id), id, key, at)
    decreases n
  {
    hide Step, BuiltAt, FateOf;
    if m < n {
      DraftStays(s0, es, m, n - 1, id, key, at);
      var s, e := Run(s0, es[..n - 1]), es[n - 1];
      assert es[..n][..n - 1] == es[..n - 1];
      DraftStaysStep(s, e, HistoryOf(s0, es[..n - 1], id), id, key, at);
    }
  }

  lemma DraftStaysStep(s: State, e: Event, h: History, id: JobId, key: QueueKey, at: int)
    requires BuiltAt(s, h, id, key, at) && e != EnqueueDraft(id) && e != EnqueueCreate(id)
    ensures BuiltAt(Step(s, e), Record(h, FateOf(s, e, id), IsRunning(Lookup(s, id)), s.now), id, key, at)
  {
    hide Step, Enabled, FateOf, RequestComes, Inserts;
    RequestOrigin(s, e, id);
    if id in Step(s, e).requests { NotDraftedNow(s, e, id); }
    CreatedByInsert(s, e, id);
    if FateOf(s, e, id).Created? { InsertsDraftOf(s, e, id); }
  }

  lemma NotDraftedNow(s: State, e: Event, id: JobId)
    requires e != EnqueueDraft(id) && e != EnqueueCreate(id) && id in Step(s, e).requests
    requires RequestComes(s, e, id, Step(s, e).requests[id], Step(s, e).queues)
    ensures Step(s, e).requests[id].Drafted? ==> id in s.requests && Step(s, e).requests[id] == s.requests[id]
  {
    hide Step, QueueWritable;
  }

  lemma InsertsDraftOf(s: State, e: Event, id: JobId)
    requires InsertsJob(s, e, id)
    ensures id in s.requests && s.requests[id].Drafted?
    ensures
      var d, j := s.requests[id], s.requests[id].Row();
      QueueKey(j.project, j.queue) == d.key && j.createdAt == d.at && j.scheduleAt == d.scheduleAt
  {
    hide Enabled;
  }

  /** A job created without a schedule gets one only by a nack. */
  ghost predicate Unscheduled(row: Option<Job>, h: History) {
    row.Some? && h.retries == 0 && !h.lost && h.created.Some? && h.created.value.scheduleAt == None ==>
      row.value.scheduleAt == None
  }

  lemma {:induction false} StaysUnscheduled(s0: State, es: seq<Event>, id: JobId)
    requires Initial(s0)
    ensures Unscheduled(Lookup(Run(s0, es), id), HistoryOf(s0, es, id))
    decreases |es|
  {
    hide Step, Enabled, FateOf, Unscheduled;
    if es == [] {
      NothingStored(s0, id);
    } else {
      var init, e := es[..|es| - 1], es[|es| - 1];
      StaysUnscheduled(s0, init, id);
      HistoryInvariant(s0, init, id);
      StepRow(Run(s0, init), e, id);
      UnscheduledStep(Run(s0, init), e, id, HistoryOf(s0, init, id));
    }
  }

  lemma NothingStored(s0: State, id: JobId)
    requires Initial(s0)
    ensures Unscheduled(Lookup(s0, id), Unborn)
  {
  }

  lemma UnscheduledStep(s: State, e: Event, id: JobId, h: History)
    requires Unscheduled(Lookup(s, id), h) && Explained(s, e, id)
    requires JobInv(Lookup(s, id), id in s.issued, h, s.now)
    ensures Unscheduled(Lookup(Step(s, e), id), Record(h, FateOf(s, e, id), IsRunning(Lookup(s, id)), s.now))
  {
    hide Step, Enabled, FateOf, BackedOff, Bounded, Accounted;
  }
}
