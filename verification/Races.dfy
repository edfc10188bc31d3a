/** Runs in which the barrier is not enough: each shows that a condition of the results on deletion
    cannot be dropped. */
module Races {
  import opened Wrappers
  import opened JobModel
  import opened QueueState
  import opened QueueSteps
  import opened StepEquations
  import opened JobHistory
  import opened CascadeSafety
  import opened Barrier
  import opened Stranding

  /** An empty database. */
  const BLANK: State := State(0, map[], map[], map[], map[], map[], map[], map[], map[], map[], map[], 0, {})

  /** The job is in a queue that does not exist. */
  ghost predicate Stranded(s: State, id: JobId, key: QueueKey) {
    id in s.jobs && KeyOf(s.jobs[id]) == key && key !in s.queues
  }

  function FreshQueue(status: Lifecycle): Queue {
    Queue(0, status, DEFAULT_VISIBILITY, DEFAULT_MAX_ATTEMPTS)
  }

  function Admission(id: JobId, key: QueueKey): Event {
    EnqueueAdmit(id, key, "", "", None, 0)
  }

  function Admittance(key: QueueKey): Request {
    Admitted(key, "", "", None, 0)
  }

  function FirstDraft(key: QueueKey): Request {
    Drafted(key, "", "", None, DEFAULT_MAX_ATTEMPTS, 0)
  }

  /** A database with at most this one queue and this one enqueue. */
  function With(queues: map<QueueKey, Queue>, requests: map<JobId, Request>, cascades: map<QueueKey, QueuePhase>): State {
    BLANK.(queues := queues, requests := requests, cascades := cascades, nextQueue := 1)
  }

  // ---- single steps ----

  lemma AdmitStep(s: State, id: JobId, key: QueueKey)
    requires QueueWritable(s, key).Ok? && id !in s.issued && id !in s.requests
    ensures Step(s, Admission(id, key)) == s.(requests := s.requests[id := Admittance(key)])
  {
    hide Step, Enabled, QueueWritable;
    StepOfAdmit(s, Admission(id, key));
  }

  /** The queue is there and active. */
  lemma DraftStep(s: State, id: JobId, key: QueueKey)
    requires ValidQueue(key) && id in s.requests && s.requests[id] == Admittance(key) && s.now == 0
    requires key in s.queues && s.queues[key] == FreshQueue(Active)
    ensures Step(s, EnqueueDraft(id)) == s.(requests := s.requests[id := FirstDraft(key)])
  {
    hide Step, Enabled, TrimSpace;
    StepOfDraft(s, EnqueueDraft(id));
    assert ByIdempotencyKey(s.jobs, key, "") == {};
  }

  function Creation(key: QueueKey): Request {
    Creating(key, "", "", None, 0)
  }

  /** The queue is not there. */
  lemma MissStep(s: State, id: JobId, key: QueueKey)
    requires ValidQueue(key) && id in s.requests && s.requests[id] == Admittance(key) && key !in s.queues
    ensures Step(s, EnqueueDraft(id)) == s.(requests := s.requests[id := Creation(key)])
  {
    hide Step, Enabled, TrimSpace;
    StepOfDraft(s, EnqueueDraft(id));
  }

  /** The queue is created, unless somebody else has created it, whatever has become of it. */
  lemma CreateStep(s: State, id: JobId, key: QueueKey)
    requires ValidQueue(key) && id in s.requests && s.requests[id] == Creation(key) && s.now == 0
    requires key in s.queues ==> s.queues[key].maxAttempts == DEFAULT_MAX_ATTEMPTS
    ensures
      var t := Step(s, EnqueueCreate(id));
      && t == s.(queues := t.queues, nextQueue := t.nextQueue, requests := s.requests[id := FirstDraft(key)])
      && t.queues == (if key in s.queues then s.queues
                      else s.queues[key := FreshQueue(Active).(serial := s.nextQueue)])
      && t.nextQueue == if key in s.queues then s.nextQueue else s.nextQueue + 1
  {
    hide Step, Enabled, TrimSpace;
    StepOfCreate(s, EnqueueCreate(id));
    assert ByIdempotencyKey(s.jobs, key, "") == {};
  }

  /** The inserted row, still to be published. */
  function Publication(id: JobId, key: QueueKey): Copy {
    JobCopy(id, FirstDraft(key).Row(), Republishing)
  }

  lemma InsertStep(s: State, id: JobId, key: QueueKey)
    requires id in s.requests && s.requests[id] == FirstDraft(key) && id !in s.issued
    requires 0 !in s.copies && 0 !in s.visits
    ensures Step(s, EnqueueInsert(id, 0)) ==
            s.(requests := Without(s.requests, {id}), jobs := s.jobs[id := FirstDraft(key).Row()],
               issued := s.issued + {id}, copies := s.copies[0 := Publication(id, key)])
  {
    hide Step, Enabled, Request.Row;
    StepOfInsert(s, EnqueueInsert(id, 0));
    assert ByIdempotencyKey(s.jobs, key, "") == {};
    assert Insertable(s, id);
  }

  /** The handler fails to publish. */
  lemma GiveUpStep(s: State)
    requires s.copies.Keys == {0} && s.visits == map[]
    ensures Step(s, JobAbandon(0)) == s.(copies := map[])
  {
    hide Step, Enabled;
    StepOfJobAbandon(s, JobAbandon(0));
  }

  // ---- an enqueue into an empty database ----

  function Enter(id: JobId, key: QueueKey): seq<Event> {
    [Admission(id, key)] + [EnqueueDraft(id)] + [EnqueueCreate(id)]
  }

  lemma EnterRun(id: JobId, key: QueueKey)
    requires ValidQueue(key)
    ensures Run(BLANK, Enter(id, key)) == With(map[key := FreshQueue(Active)], map[id := FirstDraft(key)], map[])
  {
    hide Step, Run, TrimSpace;
    var es := MissRun(id, key);
    CreateStep(Run(BLANK, es), id, key);
    RunSteps(BLANK, es, EnqueueCreate(id), Step(Run(BLANK, es), EnqueueCreate(id)));
  }

  lemma MissRun(id: JobId, key: QueueKey) returns (es: seq<Event>)
    requires ValidQueue(key)
    ensures es == [Admission(id, key)] + [EnqueueDraft(id)]
    ensures Run(BLANK, es) == BLANK.(requests := map[id := Creation(key)])
  {
    hide Step, Run, TrimSpace;
    RunNothing(BLANK);
    AdmitStep(BLANK, id, key);
    es := [Admission(id, key)];
    assert [] + es == es;
    RunSteps(BLANK, [], Admission(id, key), BLANK.(requests := map[id := Admittance(key)]));
    MissStep(Run(BLANK, es), id, key);
    RunSteps(BLANK, es, EnqueueDraft(id), BLANK.(requests := map[id := Creation(key)]));
    es := es + [EnqueueDraft(id)];
  }

  lemma MarkStep(s: State, key: QueueKey)
    requires key in s.queues && s.queues[key] == FreshQueue(Active) && s.jobs == map[] && key !in s.cascades
    requires s.tenantCascades == map[]
    ensures Step(s, RequestDelete(key, false)) ==
            s.(queues := s.queues[key := FreshQueue(Deleting)], cascades := s.cascades[key := DeletingJobs])
  {
    hide Step, Enabled;
    StepOfRequestDelete(s, RequestDelete(key, false));
  }

  lemma LastBatchStep(s: State, key: QueueKey)
    requires key in s.cascades && s.cascades[key] == DeletingJobs && JobsOf(s.jobs, key) == {}
    ensures Step(s, DeleteBatch(key, 1, {})) == s.(cascades := s.cascades[key := Detaching])
  {
    hide JobsOf;
  }

  lemma DetachStep(s: State, key: QueueKey)
    requires key in s.cascades && s.cascades[key] == Detaching && s.workers == map[]
    ensures Step(s, Detach(key)) == s.(cascades := s.cascades[key := DroppingRow])
  {
    hide Step, Enabled;
    StepOfCascade(s, Detach(key));
    assert DetachedWorkers(s.workers, key) == map[];
  }

  lemma DropStep(s: State, key: QueueKey)
    requires key in s.cascades && s.cascades[key] == DroppingRow
    ensures Step(s, DropRow(key)) == s.(queues := Without(s.queues, {key}), cascades := Without(s.cascades, {key}))
  {
    hide Step, Enabled;
    StepOfCascade(s, DropRow(key));
  }

  lemma RunSteps(s: State, es: seq<Event>, e: Event, t: State)
    requires Step(Run(s, es), e) == t
    ensures Run(s, es + [e]) == t
  {
    hide Step;
    RunSnoc(s, es, e);
  }

  // ---- an enqueue that outlives its queue ----

  /** An enqueue checks the barrier; the queue is deleted, row and all; then the enqueue inserts. */
  lemma EnqueueOutlivesQueue(id: JobId, key: QueueKey)
    requires ValidQueue(key)
    ensures
      var es := Enter(id, key) + [RequestDelete(key, false)] + [DeleteBatch(key, 1, {})]
                + [Detach(key)] + [DropRow(key)] + [EnqueueInsert(id, 0)];
      Initial(BLANK) && Stranded(Run(BLANK, es), id, key)
  {
    hide Step, Run, TrimSpace, Request.Row;
    var es := UpToDetach(id, key);
    var s := Run(BLANK, es);
    DropStep(s, key);
    RunSteps(BLANK, es, DropRow(key), Step(s, DropRow(key)));
    InsertStep(Step(s, DropRow(key)), id, key);
    RunSteps(BLANK, es + [DropRow(key)], EnqueueInsert(id, 0), Step(Step(s, DropRow(key)), EnqueueInsert(id, 0)));
  }

  /** The enqueue inserts between the cascade's last batch and the removal of the row. */
  lemma InsertOvertakesDrop(id: JobId, key: QueueKey)
    requires ValidQueue(key)
    ensures
      var es := Enter(id, key) + [RequestDelete(key, false)] + [DeleteBatch(key, 1, {})]
                + [Detach(key)] + [EnqueueInsert(id, 0)] + [DropRow(key)];
      Initial(BLANK) && Stranded(Run(BLANK, es), id, key)
  {
    hide Step, Run, TrimSpace, Request.Row;
    var es := UpToDetach(id, key);
    var s := Run(BLANK, es);
    InsertStep(s, id, key);
    var t := Step(s, EnqueueInsert(id, 0));
    RunSteps(BLANK, es, EnqueueInsert(id, 0), t);
    DropStep(t, key);
    RunSteps(BLANK, es + [EnqueueInsert(id, 0)], DropRow(key), Step(t, DropRow(key)));
  }

  lemma UpToDetach(id: JobId, key: QueueKey) returns (es: seq<Event>)
    requires ValidQueue(key)
    ensures es == Enter(id, key) + [RequestDelete(key, false)] + [DeleteBatch(key, 1, {})] + [Detach(key)]
    ensures Run(BLANK, es) ==
            With(map[key := FreshQueue(Deleting)], map[id := FirstDraft(key)], map[key := DroppingRow])
  {
    hide Step, Run, TrimSpace;
    var active, draft := map[key := FreshQueue(Active)], map[id := FirstDraft(key)];
    var gone := map[key := FreshQueue(Deleting)];
    es := Enter(id, key);
    EnterRun(id, key);
    MarkStep(With(active, draft, map[]), key);
    RunSteps(BLANK, es, RequestDelete(key, false), With(gone, draft, map[key := DeletingJobs]));
    es := es + [RequestDelete(key, false)];
    LastBatchStep(With(gone, draft, map[key := DeletingJobs]), key);
    RunSteps(BLANK, es, DeleteBatch(key, 1, {}), With(gone, draft, map[key := Detaching]));
    es := es + [DeleteBatch(key, 1, {})];
    DetachStep(With(gone, draft, map[key := Detaching]), key);
    RunSteps(BLANK, es, Detach(key), With(gone, draft, map[key := DroppingRow]));
    es := es + [Detach(key)];
  }

  // ---- saves that outlive their queue ----

  /** A database with one queue and at most this one job, with one handler still to save `c`. */
  ghost function HeldBy(c: Copy, id: JobId, key: QueueKey, status: Lifecycle, job: Option<Job>,
                        phase: Option<QueuePhase>): State {
    With(map[key := FreshQueue(status)], map[], if phase.Some? then map[key := phase.value] else map[]).(
      jobs := if job.Some? then map[id := job.value] else map[], copies := map[0 := c], issued := {id})
  }

  /** The statements of a deletion by force, on a queue with one waiting job. */
  function ForcedDeletion(id: JobId, key: QueueKey): seq<Event> {
    [RequestDelete(key, true)] + [ForceCancel(key)] + [DeleteBatch(key, 1, {id})]
    + [DeleteBatch(key, 1, {})] + [Detach(key)] + [DropRow(key)]
  }

  /** An enqueue inserts a job and publishes it; meanwhile the queue is deleted by force, row and all; then
      the enqueue saves the job, which inserts it again. */
  lemma PublishOutlivesQueue(id: JobId, key: QueueKey)
    requires ValidQueue(key)
    ensures
      var es := Enter(id, key) + [EnqueueInsert(id, 0)];
      Initial(BLANK) && Stranded(Run(BLANK, es + ForcedDeletion(id, key) + [JobSave(0)]), id, key)
  {
    hide Step, Run, TrimSpace, Request.Row, HeldBy, ForcedDeletion;
    var es := Enter(id, key) + [EnqueueInsert(id, 0)];
    InsertRun(id, key);
    SaveAfterDeletion(es, Publication(id, key), id, key);
  }

  /** A handler reads a job to cancel it; the queue is deleted by force, row and all; then the handler
      saves the job, which inserts it again. */
  lemma SaveOutlivesQueue(id: JobId, key: QueueKey)
    requires ValidQueue(key)
    ensures
      var es := Enter(id, key) + [EnqueueInsert(id, 0)] + [JobAbandon(0)] + [JobVisit(0, key)] + [CancelRead(key, id)];
      Initial(BLANK) && Stranded(Run(BLANK, es + ForcedDeletion(id, key) + [JobSave(0)]), id, key)
  {
    hide Step, Run, TrimSpace, Request.Row, HeldBy, ForcedDeletion;
    var es := UpToCancelRead(id, key);
    SaveAfterDeletion(es, JobCopy(id, FirstDraft(key).Row(), Cancelling), id, key);
  }

  lemma InsertRun(id: JobId, key: QueueKey)
    requires ValidQueue(key)
    ensures Run(BLANK, Enter(id, key) + [EnqueueInsert(id, 0)])
         == HeldBy(Publication(id, key), id, key, Active, Some(FirstDraft(key).Row()), None)
  {
    hide Step, Run, TrimSpace, Request.Row;
    EnterRun(id, key);
    InsertStep(Run(BLANK, Enter(id, key)), id, key);
    RunSteps(BLANK, Enter(id, key), EnqueueInsert(id, 0), Step(Run(BLANK, Enter(id, key)), EnqueueInsert(id, 0)));
  }

  lemma UpToCancelRead(id: JobId, key: QueueKey) returns (es: seq<Event>)
    requires ValidQueue(key)
    ensures es == Enter(id, key) + [EnqueueInsert(id, 0)] + [JobAbandon(0)] + [JobVisit(0, key)] + [CancelRead(key, id)]
    ensures Run(BLANK, es)
         == HeldBy(JobCopy(id, FirstDraft(key).Row(), Cancelling), id, key, Active, Some(FirstDraft(key).Row()), None)
  {
    hide Step, Run, TrimSpace, Request.Row;
    es := Enter(id, key) + [EnqueueInsert(id, 0)];
    InsertRun(id, key);
    GiveUpStep(Run(BLANK, es));
    var there := Step(Run(BLANK, es), JobAbandon(0));
    RunSteps(BLANK, es, JobAbandon(0), there);
    es := es + [JobAbandon(0)];
    CancelSteps(there, id, key);
    RunSteps(BLANK, es, JobVisit(0, key), Step(there, JobVisit(0, key)));
    es := es + [JobVisit(0, key)];
    RunSteps(BLANK, es, CancelRead(key, id), Step(Step(there, JobVisit(0, key)), CancelRead(key, id)));
    es := es + [CancelRead(key, id)];
  }

  lemma SaveAfterDeletion(es: seq<Event>, c: Copy, id: JobId, key: QueueKey)
    requires Run(BLANK, es) == HeldBy(c, id, key, Active, Some(FirstDraft(key).Row()), None)
    requires c.id == id && c.read == FirstDraft(key).Row()
    ensures Stranded(Run(BLANK, es + ForcedDeletion(id, key) + [JobSave(0)]), id, key)
  {
    hide Step, Run, TrimSpace, Request.Row, HeldBy;
    var last := HeldBy(c, id, key, Deleting, None, Some(DroppingRow)).(queues := map[], cascades := map[]);
    DeletionRun(es, c, id, key);
    LateSave(last, c, id, key);
    RunSteps(BLANK, es + ForcedDeletion(id, key), JobSave(0), Step(last, JobSave(0)));
  }

  lemma DeletionRun(es: seq<Event>, c: Copy, id: JobId, key: QueueKey)
    requires Run(BLANK, es) == HeldBy(c, id, key, Active, Some(FirstDraft(key).Row()), None)
    ensures Run(BLANK, es + ForcedDeletion(id, key))
         == HeldBy(c, id, key, Deleting, None, Some(DroppingRow)).(queues := map[], cascades := map[])
  {
    hide Step, Run, TrimSpace, Request.Row, HeldBy;
    var row := FirstDraft(key).Row();
    var gone := SqlForceCancelled(row, 0);
    var fs := es;
    ForceStatements(c, id, key);
    RunSteps(BLANK, fs, RequestDelete(key, true), HeldBy(c, id, key, Deleting, Some(row), Some(ForceCancelling)));
    fs := fs + [RequestDelete(key, true)];
    RunSteps(BLANK, fs, ForceCancel(key), HeldBy(c, id, key, Deleting, Some(gone), Some(DeletingJobs)));
    fs := fs + [ForceCancel(key)];
    RunSteps(BLANK, fs, DeleteBatch(key, 1, {id}), HeldBy(c, id, key, Deleting, None, Some(DeletingJobs)));
    fs := fs + [DeleteBatch(key, 1, {id})];
    EmptyStatements(c, id, key);
    RunSteps(BLANK, fs, DeleteBatch(key, 1, {}), HeldBy(c, id, key, Deleting, None, Some(Detaching)));
    fs := fs + [DeleteBatch(key, 1, {})];
    RunSteps(BLANK, fs, Detach(key), HeldBy(c, id, key, Deleting, None, Some(DroppingRow)));
    fs := fs + [Detach(key)];
    RunSteps(BLANK, fs, DropRow(key), Step(HeldBy(c, id, key, Deleting, None, Some(DroppingRow)), DropRow(key)));
    fs := fs + [DropRow(key)];
    assert es + ForcedDeletion(id, key) == fs;
  }

  lemma ForceStatements(c: Copy, id: JobId, key: QueueKey)
    ensures
      var row := FirstDraft(key).Row();
      var gone := SqlForceCancelled(row, 0);
      && Step(HeldBy(c, id, key, Active, Some(row), None), RequestDelete(key, true))
         == HeldBy(c, id, key, Deleting, Some(row), Some(ForceCancelling))
      && Step(HeldBy(c, id, key, Deleting, Some(row), Some(ForceCancelling)), ForceCancel(key))
         == HeldBy(c, id, key, Deleting, Some(gone), Some(DeletingJobs))
      && Step(HeldBy(c, id, key, Deleting, Some(gone), Some(DeletingJobs)), DeleteBatch(key, 1, {id}))
         == HeldBy(c, id, key, Deleting, None, Some(DeletingJobs))
  {
    MarkForced(c, id, key);
    ForceOne(c, id, key);
    DeleteOne(c, id, key);
    hide *;
  }

  lemma MarkForced(c: Copy, id: JobId, key: QueueKey)
    ensures
      var row := FirstDraft(key).Row();
      Step(HeldBy(c, id, key, Active, Some(row), None), RequestDelete(key, true))
      == HeldBy(c, id, key, Deleting, Some(row), Some(ForceCancelling))
  {
    hide Step;
    var s := HeldBy(c, id, key, Active, Some(FirstDraft(key).Row()), None);
    StepOfRequestDelete(s, RequestDelete(key, true));
    assert id in ActiveJobsOf(s.jobs, key);
  }

  lemma ForceOne(c: Copy, id: JobId, key: QueueKey)
    ensures
      var row := FirstDraft(key).Row();
      Step(HeldBy(c, id, key, Deleting, Some(row), Some(ForceCancelling)), ForceCancel(key))
      == HeldBy(c, id, key, Deleting, Some(SqlForceCancelled(row, 0)), Some(DeletingJobs))
  {
    hide Step, Enabled;
    var s := HeldBy(c, id, key, Deleting, Some(FirstDraft(key).Row()), Some(ForceCancelling));
    ForceReady(s, key);
    StepOfForceCancel(s, ForceCancel(key));
    assert ActiveJobsOf(s.jobs, key) == {id};
    assert UpdateRows(s.jobs, {id}, j => SqlForceCancelled(j, s.now))
        == map[id := SqlForceCancelled(FirstDraft(key).Row(), 0)];
  }

  lemma ForceReady(s: State, key: QueueKey)
    requires key in s.cascades && s.cascades[key] == ForceCancelling
    ensures Enabled(s, ForceCancel(key))
  {
  }

  lemma DeleteOne(c: Copy, id: JobId, key: QueueKey)
    ensures
      var gone := SqlForceCancelled(FirstDraft(key).Row(), 0);
      Step(HeldBy(c, id, key, Deleting, Some(gone), Some(DeletingJobs)), DeleteBatch(key, 1, {id}))
      == HeldBy(c, id, key, Deleting, None, Some(DeletingJobs))
  {
    hide Step;
    var s := HeldBy(c, id, key, Deleting, Some(SqlForceCancelled(FirstDraft(key).Row(), 0)), Some(DeletingJobs));
    assert JobsOf(s.jobs, key) == {id};
    StepOfDeleteBatch(s, DeleteBatch(key, 1, {id}));
  }

  lemma EmptyStatements(c: Copy, id: JobId, key: QueueKey)
    ensures Step(HeldBy(c, id, key, Deleting, None, Some(DeletingJobs)), DeleteBatch(key, 1, {}))
         == HeldBy(c, id, key, Deleting, None, Some(Detaching))
    ensures Step(HeldBy(c, id, key, Deleting, None, Some(Detaching)), Detach(key))
         == HeldBy(c, id, key, Deleting, None, Some(DroppingRow))
    ensures Step(HeldBy(c, id, key, Deleting, None, Some(DroppingRow)), DropRow(key))
         == HeldBy(c, id, key, Deleting, None, Some(DroppingRow)).(queues := map[], cascades := map[])
  {
    hide Step;
    LastBatchStep(HeldBy(c, id, key, Deleting, None, Some(DeletingJobs)), key);
    DetachStep(HeldBy(c, id, key, Deleting, None, Some(Detaching)), key);
    DropStep(HeldBy(c, id, key, Deleting, None, Some(DroppingRow)), key);
  }

  lemma LateSave(s: State, c: Copy, id: JobId, key: QueueKey)
    requires s == HeldBy(c, id, key, Deleting, None, Some(DroppingRow)).(queues := map[], cascades := map[])
    requires c.id == id && c.read == FirstDraft(key).Row()
    ensures
      var t := Step(s, JobSave(0));
      Stranded(t, id, key)
  {
    hide Step, Change.Of, CopiesSaved;
    StepOfSave(s, JobSave(0));
    ChangeKeepsIdentity(c, s.now);
  }

  // ---- an enqueue that finds no queue, and then a deleting one ----

  /** An enqueue finds no queue; somebody else creates it and deletes it; after the last batch the enqueue
      finds it created, deleting as it is, and goes on: its insert comes after the row's removal. */
  lemma CreationOutlivesQueue(id: JobId, key: QueueKey)
    requires ValidQueue(key)
    ensures
      var es := [Admission(id, key)] + [EnqueueDraft(id)] + [EnsureQueue(key, 0, 0)] + [RequestDelete(key, false)]
                + [DeleteBatch(key, 1, {})] + [Detach(key)] + [EnqueueCreate(id)] + [DropRow(key)]
                + [EnqueueInsert(id, 0)];
      Initial(BLANK) && Stranded(Run(BLANK, es), id, key)
  {
    hide Step, Run, TrimSpace, Request.Row;
    var coming, gone := map[id := Creation(key)], map[key := FreshQueue(Deleting)];
    var es := MissRun(id, key);
    EnsureBeside(id, key);
    RunSteps(BLANK, es, EnsureQueue(key, 0, 0), With(map[key := FreshQueue(Active)], coming, map[]));
    es := es + [EnsureQueue(key, 0, 0)];
    MarkStep(With(map[key := FreshQueue(Active)], coming, map[]), key);
    RunSteps(BLANK, es, RequestDelete(key, false), With(gone, coming, map[key := DeletingJobs]));
    es := es + [RequestDelete(key, false)];
    LastBatchStep(With(gone, coming, map[key := DeletingJobs]), key);
    RunSteps(BLANK, es, DeleteBatch(key, 1, {}), With(gone, coming, map[key := Detaching]));
    es := es + [DeleteBatch(key, 1, {})];
    DetachStep(With(gone, coming, map[key := Detaching]), key);
    RunSteps(BLANK, es, Detach(key), With(gone, coming, map[key := DroppingRow]));
    es := es + [Detach(key)];
    CreateStep(With(gone, coming, map[key := DroppingRow]), id, key);
    RunSteps(BLANK, es, EnqueueCreate(id), With(gone, map[id := FirstDraft(key)], map[key := DroppingRow]));
    es := es + [EnqueueCreate(id)];
    DropStep(With(gone, map[id := FirstDraft(key)], map[key := DroppingRow]), key);
    var last := With(map[], map[id := FirstDraft(key)], map[]);
    RunSteps(BLANK, es, DropRow(key), last);
    es := es + [DropRow(key)];
    InsertStep(last, id, key);
    RunSteps(BLANK, es, EnqueueInsert(id, 0), Step(last, EnqueueInsert(id, 0)));
  }

  lemma EnsureBeside(id: JobId, key: QueueKey)
    requires ValidQueue(key)
    ensures Step(BLANK.(requests := map[id := Creation(key)]), EnsureQueue(key, 0, 0))
         == With(map[key := FreshQueue(Active)], map[id := Creation(key)], map[])
  {
    hide Step, TrimSpace;
    StepOfEnsure(BLANK.(requests := map[id := Creation(key)]), EnsureQueue(key, 0, 0));
  }

  // ---- a config update that revives a deleting queue ----

  /** A config update reads the queue, the queue is marked deleting, the update saves the whole row: the
      queue is active again while its cascade is in flight. */
  lemma UpdateRevivesQueue(key: QueueKey)
    requires ValidQueue(key)
    ensures
      var es := [EnsureQueue(key, 0, 0)] + [UpdateRead(0, key, None, None)] + [RequestDelete(key, false)];
      && Initial(BLANK)
      && Run(BLANK, es) == Marked(key)
      && Run(BLANK, es + [UpdateSave(0)]) == With(map[key := FreshQueue(Active)], map[], map[key := DeletingJobs])
  {
    hide Step, Run, TrimSpace;
    var e0, e1, e2 := EnsureQueue(key, 0, 0), UpdateRead(0, key, None, None), RequestDelete(key, false);
    var active := map[key := FreshQueue(Active)];
    var read := With(active, map[], map[]).(edits := map[0 := Edit(key, FreshQueue(Active))]);
    var marked := Marked(key);
    RunNothing(BLANK);
    EnsureStep(key);
    assert [] + [e0] == [e0];
    RunSteps(BLANK, [], e0, With(active, map[], map[]));
    StepOfUpdate(With(active, map[], map[]), e1);
    RunSteps(BLANK, [e0], e1, read);
    MarkStep(read, key);
    RunSteps(BLANK, [e0] + [e1], e2, marked);
    StepOfUpdate(marked, UpdateSave(0));
    RunSteps(BLANK, [e0] + [e1] + [e2], UpdateSave(0), With(active, map[], map[key := DeletingJobs]));
  }

  /** The queue marked deleting, its cascade at the delete loop, and a config update still to be saved. */
  ghost function Marked(key: QueueKey): State {
    With(map[key := FreshQueue(Deleting)], map[], map[key := DeletingJobs]).(
      edits := map[0 := Edit(key, FreshQueue(Active))])
  }

  lemma EnsureStep(key: QueueKey)
    requires ValidQueue(key)
    ensures Step(BLANK, EnsureQueue(key, 0, 0)) == With(map[key := FreshQueue(Active)], map[], map[])
  {
    hide Step, TrimSpace;
    StepOfEnsure(BLANK, EnsureQueue(key, 0, 0));
  }

  /** Once revived, the queue takes jobs as fast as its cascade deletes them: for every n there is a run
      in which the one delete loop executes n non-empty batches. */
  lemma LoopNeedNotStop(key: QueueKey, n: nat) returns (es: seq<Event>, fs: seq<Event>)
    requires ValidQueue(key)
    ensures Initial(BLANK) && IsDeleting(Run(BLANK, es), key) && Load(Run(BLANK, es), key) == 0
    ensures Batches(Run(BLANK, es), fs, key) == n && RowStays(Run(BLANK, es), fs, key)
    ensures forall e :: e in fs ==> !e.Resume? && !e.Crash? && !e.RequestDelete?
  {
    hide Step, Run, TrimSpace, Load, RowStays, Batches;
    es := [EnsureQueue(key, 0, 0)] + [UpdateRead(0, key, None, None)] + [RequestDelete(key, false)];
    UpdateRevivesQueue(key);
    var s := Run(BLANK, es);
    RunSnoc(BLANK, es, UpdateSave(0));
    NothingMarked(key);
    fs := Rounds(s, key, n);
  }

  lemma NothingMarked(key: QueueKey)
    ensures IsDeleting(Marked(key), key) && Load(Marked(key), key) == 0
  {
    var s := Marked(key);
    assert JobsOf(s.jobs, key) == {} && ComingOf(s.requests, key) == {};
    assert HoldersOf(s.copies, key) == {} && PublishersOf(s.copies, key) == {} && VisitorsOf(s.visits, key) == {};
  }

  /** The k-th id. */
  function NthId(k: nat): JobId {
    seq(k, _ => 'x')
  }

  /** The revived queue, its cascade at the delete loop, after `k` jobs have come and gone. */
  ghost function Reviving(key: QueueKey, k: nat): State {
    With(map[key := FreshQueue(Active)], map[], map[key := DeletingJobs]).(issued := set i | 0 <= i < k :: NthId(i))
  }

  lemma {:induction false} Rounds(s: State, key: QueueKey, n: nat) returns (fs: seq<Event>)
    requires ValidQueue(key) && key in s.queues
    requires Step(s, UpdateSave(0)) == Reviving(key, 0)
    ensures Run(s, fs) == Reviving(key, n) && Batches(s, fs, key) == n && RowStays(s, fs, key)
    ensures forall e :: e in fs ==> !e.Resume? && !e.Crash? && !e.RequestDelete?
  {
    hide Step, TrimSpace, Reviving, Run, RowStays, Batches;
    if n == 0 {
      fs := [UpdateSave(0)];
      FirstSave(s, key);
    } else {
      fs := Rounds(s, key, n - 1);
      fs := OneRound(s, fs, key, n - 1);
    }
  }

  lemma FirstSave(s: State, key: QueueKey)
    requires key in s.queues && Step(s, UpdateSave(0)) == Reviving(key, 0)
    ensures Run(s, [UpdateSave(0)]) == Reviving(key, 0) && Batches(s, [UpdateSave(0)], key) == 0
    ensures RowStays(s, [UpdateSave(0)], key)
  {
    hide Step;
    var e := UpdateSave(0);
    assert [] + [e] == [e] && [e][..0] == [] && [e][..1] == [e];
    RunSteps(s, [], e, Reviving(key, 0));
  }

  /** One more step, with its effect on the count of batches. */
  lemma Extend(s: State, fs: seq<Event>, e: Event, t: State, key: QueueKey)
    requires Step(Run(s, fs), e) == t && RowStays(s, fs, key) && key in t.queues
    ensures Run(s, fs + [e]) == t && RowStays(s, fs + [e], key)
    ensures Batches(s, fs + [e], key) == Batches(s, fs, key)
              + if e.DeleteBatch? && e.key == key && e.picked != {} && Enabled(Run(s, fs), e) then 1 else 0
  {
    hide Step, Enabled, Run;
    RunSnoc(s, fs, e);
    assert (fs + [e])[..|fs|] == fs && (fs + [e])[..|fs| + 1] == fs + [e];
    forall n | 0 <= n <= |fs + [e]| ensures key in Run(s, (fs + [e])[..n]).queues {
      if n <= |fs| { assert (fs + [e])[..n] == fs[..n]; }
    }
  }

  lemma OneRound(s: State, es: seq<Event>, key: QueueKey, k: nat) returns (fs: seq<Event>)
    requires ValidQueue(key) && Run(s, es) == Reviving(key, k) && RowStays(s, es, key)
    ensures Run(s, fs) == Reviving(key, k + 1) && RowStays(s, fs, key)
    ensures Batches(s, fs, key) == Batches(s, es, key) + 1
    ensures fs == es + [Admission(NthId(k), key)] + [EnqueueDraft(NthId(k))] + [EnqueueInsert(NthId(k), 0)]
                  + [JobAbandon(0)] + [DeleteBatch(key, 1, {NthId(k)})]
  {
    hide Step, Enabled, TrimSpace, Run, RowStays, Batches, Request.Row;
    var id := NthId(k);
    IdsDiffer(k);
    var s0 := Reviving(key, k);
    AdmitStep(s0, id, key);
    var s1 := s0.(requests := map[id := Admittance(key)]);
    Extend(s, es, Admission(id, key), s1, key);
    fs := es + [Admission(id, key)];
    DraftStep(s1, id, key);
    var s2 := s0.(requests := map[id := FirstDraft(key)]);
    Extend(s, fs, EnqueueDraft(id), s2, key);
    fs := fs + [EnqueueDraft(id)];
    InsertStep(s2, id, key);
    var s3 := s0.(jobs := map[id := FirstDraft(key).Row()], issued := s0.issued + {id});
    Extend(s, fs, EnqueueInsert(id, 0), s3.(copies := map[0 := Publication(id, key)]), key);
    fs := fs + [EnqueueInsert(id, 0)];
    GiveUpStep(s3.(copies := map[0 := Publication(id, key)]));
    Extend(s, fs, JobAbandon(0), s3, key);
    fs := fs + [JobAbandon(0)];
    DeleteStep(s3, id, key);
    Extend(s, fs, DeleteBatch(key, 1, {id}), Reviving(key, k + 1), key);
    fs := fs + [DeleteBatch(key, 1, {id})];
  }

  lemma IdsDiffer(k: nat)
    ensures NthId(k) !in (set i | 0 <= i < k :: NthId(i))
    ensures (set i | 0 <= i < k + 1 :: NthId(i)) == (set i | 0 <= i < k :: NthId(i)) + {NthId(k)}
  {
    assert forall i: nat :: |NthId(i)| == i;
  }

  lemma DeleteStep(s: State, id: JobId, key: QueueKey)
    requires s.jobs == map[id := FirstDraft(key).Row()] && key in s.cascades && s.cascades[key] == DeletingJobs
    ensures Enabled(s, DeleteBatch(key, 1, {id}))
    ensures Step(s, DeleteBatch(key, 1, {id})) == s.(jobs := map[])
  {
    hide Step, Request.Row;
    assert JobsOf(s.jobs, key) == {id};
    StepOfDeleteBatch(s, DeleteBatch(key, 1, {id}));
    assert s.cascades[key := DeletingJobs] == s.cascades;
  }

  // ---- an enqueue that outlives its tenant ----

  /** The tenant of the key's project, with this enqueue let through, its cascade at this phase. */
  ghost function WithTenant(id: JobId, key: QueueKey, status: Lifecycle, phase: Option<TenantPhase>): State {
    BLANK.(tenants := map[key.project := status], requests := map[id := Admittance(key)],
           tenantCascades := if phase.Some? then map[key.project := phase.value] else map[])
  }

  /** An enqueue passes the guard; the tenant is deleted, row and all; then the enqueue creates its queue
      and inserts. */
  lemma EnqueueOutlivesTenant(id: JobId, key: QueueKey)
    requires ValidQueue(key) && key.project > 0
    ensures
      var p := key.project;
      var es := [CreateTenant(p)] + [Admission(id, key)] + [RequestDeleteTenant(p)] + [TenantMark(p)]
                + [TenantDeleteBatch(p, 1, {})] + [TenantDropWorkers(p)] + [TenantDropRow(p)]
                + [EnqueueDraft(id)] + [EnqueueCreate(id)] + [EnqueueInsert(id, 0)];
      && Initial(BLANK) && id in Run(BLANK, es).jobs && Run(BLANK, es).jobs[id].project == p
      && p !in Run(BLANK, es).tenants
  {
    hide Step, Run, TrimSpace, Request.Row, WithTenant;
    var p := key.project;
    var es := UpToTenantDrop(id, key);
    var s := Run(BLANK, es);
    MissStep(s, id, key);
    var t := Step(s, EnqueueDraft(id));
    RunSteps(BLANK, es, EnqueueDraft(id), t);
    CreateStep(t, id, key);
    var u := Step(t, EnqueueCreate(id));
    RunSteps(BLANK, es + [EnqueueDraft(id)], EnqueueCreate(id), u);
    InsertStep(u, id, key);
    RunSteps(BLANK, es + [EnqueueDraft(id)] + [EnqueueCreate(id)], EnqueueInsert(id, 0), Step(u, EnqueueInsert(id, 0)));
  }

  lemma UpToTenantDrop(id: JobId, key: QueueKey) returns (es: seq<Event>)
    requires key.project > 0
    ensures
      var p := key.project;
      es == [CreateTenant(p)] + [Admission(id, key)] + [RequestDeleteTenant(p)] + [TenantMark(p)]
            + [TenantDeleteBatch(p, 1, {})] + [TenantDropWorkers(p)] + [TenantDropRow(p)]
    ensures Run(BLANK, es) == BLANK.(requests := map[id := Admittance(key)])
  {
    hide Step, Run;
    var p := key.project;
    RunNothing(BLANK);
    es := [CreateTenant(p)];
    assert [] + es == es;
    StepOfCreateTenant(BLANK, CreateTenant(p));
    RunSteps(BLANK, [], CreateTenant(p), BLANK.(tenants := map[p := Active]));
    AdmitStep(Run(BLANK, es), id, key);
    RunSteps(BLANK, es, Admission(id, key), WithTenant(id, key, Active, None));
    es := es + [Admission(id, key)];
    StepOfTenantRequest(WithTenant(id, key, Active, None), RequestDeleteTenant(p));
    RunSteps(BLANK, es, RequestDeleteTenant(p), WithTenant(id, key, Deleting, Some(TListing)));
    es := es + [RequestDeleteTenant(p)];
    TenantStatements(id, key);
    RunSteps(BLANK, es, TenantMark(p), WithTenant(id, key, Deleting, Some(TDeletingJobs({}))));
    es := es + [TenantMark(p)];
    RunSteps(BLANK, es, TenantDeleteBatch(p, 1, {}), WithTenant(id, key, Deleting, Some(TDroppingWorkers({}))));
    es := es + [TenantDeleteBatch(p, 1, {})];
    RunSteps(BLANK, es, TenantDropWorkers(p), WithTenant(id, key, Deleting, Some(TDroppingQueues({}))));
    es := es + [TenantDropWorkers(p)];
    RunSteps(BLANK, es, TenantDropRow(p), BLANK.(requests := map[id := Admittance(key)]));
    es := es + [TenantDropRow(p)];
  }

  /** The tenant cascade's statements on a project without queues, jobs and workers. */
  lemma TenantStatements(id: JobId, key: QueueKey)
    requires key.project > 0
    ensures
      var p := key.project;
      && Step(WithTenant(id, key, Deleting, Some(TListing)), TenantMark(p))
         == WithTenant(id, key, Deleting, Some(TDeletingJobs({})))
      && Step(WithTenant(id, key, Deleting, Some(TDeletingJobs({}))), TenantDeleteBatch(p, 1, {}))
         == WithTenant(id, key, Deleting, Some(TDroppingWorkers({})))
      && Step(WithTenant(id, key, Deleting, Some(TDroppingWorkers({}))), TenantDropWorkers(p))
         == WithTenant(id, key, Deleting, Some(TDroppingQueues({})))
      && Step(WithTenant(id, key, Deleting, Some(TDroppingQueues({}))), TenantDropRow(p))
         == BLANK.(requests := map[id := Admittance(key)])
  {
    MarkNothing(id, key);
    DeleteNothing(id, key);
    DropWorkersAndRow(id, key);
    hide *;
  }

  lemma MarkNothing(id: JobId, key: QueueKey)
    requires key.project > 0
    ensures Step(WithTenant(id, key, Deleting, Some(TListing)), TenantMark(key.project))
         == WithTenant(id, key, Deleting, Some(TDeletingJobs({})))
  {
    hide Step, Enabled;
    var s := WithTenant(id, key, Deleting, Some(TListing));
    StepOfTenantMark(s, TenantMark(key.project));
    assert QueuesOf(s, key.project) == {};
    assert Step(s, TenantMark(key.project)).queues == map[];
  }

  lemma DeleteNothing(id: JobId, key: QueueKey)
    requires key.project > 0
    ensures Step(WithTenant(id, key, Deleting, Some(TDeletingJobs({}))), TenantDeleteBatch(key.project, 1, {}))
         == WithTenant(id, key, Deleting, Some(TDroppingWorkers({})))
  {
    hide JobsOfProject;
    assert JobsOfProject(map[], key.project) == {} by { NoJobsInProject(key.project); }
  }

  lemma NoJobsInProject(project: int)
    ensures JobsOfProject(map[], project) == {}
  {
  }

  lemma DropWorkersAndRow(id: JobId, key: QueueKey)
    requires key.project > 0
    ensures Step(WithTenant(id, key, Deleting, Some(TDroppingWorkers({}))), TenantDropWorkers(key.project))
         == WithTenant(id, key, Deleting, Some(TDroppingQueues({})))
    ensures Step(WithTenant(id, key, Deleting, Some(TDroppingQueues({}))), TenantDropRow(key.project))
         == BLANK.(requests := map[id := Admittance(key)])
  {
    hide Step, Enabled;
    var p := key.project;
    var s := WithTenant(id, key, Deleting, Some(TDroppingWorkers({})));
    var t := WithTenant(id, key, Deleting, Some(TDroppingQueues({})));
    TenantDropEnabled(s, t, p);
    StepOfTenantDrop(s, TenantDropWorkers(p));
    StepOfTenantDrop(t, TenantDropRow(p));
  }

  lemma TenantDropEnabled(s: State, t: State, p: int)
    requires p in s.tenantCascades && s.tenantCascades[p] == TDroppingWorkers({})
    requires p in t.tenantCascades && t.tenantCascades[p] == TDroppingQueues({})
    ensures Enabled(s, TenantDropWorkers(p)) && Enabled(t, TenantDropRow(p))
  {
  }

  // ---- two cascades of one queue ----

  /** One statement of a cascade of the queue that stands at `phase`, while another cascade of the same
      queue may stand elsewhere; the tables it leaves. */
  ghost function Turn(s: State, key: QueueKey, phase: QueuePhase, e: Event): State {
    Step(s.(cascades := map[key := phase]), e).(cascades := map[])
  }

  /** The first cascade of a queue is overtaken by a second one, resumed for the same queue.  Both find
      the queue empty and detach it; the first removes the row; an enqueue, finding no queue and no
      barrier, creates the queue again and inserts; the second removes the new row. */
  lemma OverlapStrands(id: JobId, key: QueueKey)
    requires ValidQueue(key)
    ensures
      var s0 := Run(BLANK, [EnsureQueue(key, 0, 0)] + [RequestDelete(key, false)]);
      var s1 := Turn(s0, key, DeletingJobs, DeleteBatch(key, 1, {}));
      var s2 := Turn(s1, key, DeletingJobs, DeleteBatch(key, 1, {}));
      var s3 := Turn(s2, key, Detaching, Detach(key));
      var s4 := Turn(s3, key, Detaching, Detach(key));
      var s5 := Turn(s4, key, DroppingRow, DropRow(key));
      var s6 := Run(s5, Enter(id, key) + [EnqueueInsert(id, 0)]);
      var s7 := Turn(s6, key, DroppingRow, DropRow(key));
      Stranded(s7, id, key)
  {
    hide Step, Run, TrimSpace, Request.Row;
    var gone := With(map[key := FreshQueue(Deleting)], map[], map[]);
    var e0, e1 := EnsureQueue(key, 0, 0), RequestDelete(key, false);
    RunNothing(BLANK);
    EnsureStep(key);
    assert [] + [e0] == [e0];
    RunSteps(BLANK, [], e0, With(map[key := FreshQueue(Active)], map[], map[]));
    MarkStep(With(map[key := FreshQueue(Active)], map[], map[]), key);
    RunSteps(BLANK, [e0], e1, With(map[key := FreshQueue(Deleting)], map[], map[key := DeletingJobs]));
    LastBatchStep(gone.(cascades := map[key := DeletingJobs]), key);
    DetachStep(gone.(cascades := map[key := Detaching]), key);
    DropStep(gone.(cascades := map[key := DroppingRow]), key);
    var s5 := With(map[], map[], map[]);
    RecreatedAndFilled(s5, id, key);
    var s6 := Run(s5, Enter(id, key) + [EnqueueInsert(id, 0)]);
    DropStep(s6.(cascades := map[key := DroppingRow]), key);
  }

  lemma RecreatedAndFilled(s: State, id: JobId, key: QueueKey)
    requires ValidQueue(key) && s == With(map[], map[], map[])
    ensures
      var t := Run(s, Enter(id, key) + [EnqueueInsert(id, 0)]);
      id in t.jobs && KeyOf(t.jobs[id]) == key
  {
    hide Step, Run, TrimSpace, Request.Row;
    RunNothing(s);
    AdmitStep(s, id, key);
    assert [] + [Admission(id, key)] == [Admission(id, key)];
    var s1 := s.(requests := map[id := Admittance(key)]);
    RunSteps(s, [], Admission(id, key), s1);
    MissStep(s1, id, key);
    var s2 := Step(s1, EnqueueDraft(id));
    RunSteps(s, [Admission(id, key)], EnqueueDraft(id), s2);
    CreateStep(s2, id, key);
    var s3 := Step(s2, EnqueueCreate(id));
    RunSteps(s, [Admission(id, key)] + [EnqueueDraft(id)], EnqueueCreate(id), s3);
    InsertStep(s3, id, key);
    RunSteps(s, Enter(id, key), EnqueueInsert(id, 0), Step(s3, EnqueueInsert(id, 0)));
  }

  // ---- a purge whose cutoff lies ahead ----

  /** The non-empty purge batches of a run. */
  ghost function Purges(s: State, es: seq<Event>): nat {
    if es == [] then 0
    else
      var e := es[|es| - 1];
      Purges(s, es[..|es| - 1])
      + (if e.Purge? && e.picked != {} && Enabled(Run(s, es[..|es| - 1]), e) then 1 else 0)
  }

  /** An active queue without jobs, after `k` jobs have come and gone. */
  ghost function Busy(key: QueueKey, k: nat): State {
    With(map[key := FreshQueue(Active)], map[], map[]).(issued := set i | 0 <= i < k :: NthId(i))
  }

  ghost function PurgeOf(before: int, id: JobId): Event {
    Purge({Completed, Cancelled}, before, 1, {id})
  }

  /** With any cutoff in the future a job cancelled now qualifies at once: for every n there is a run in
      which one purge loop executes n non-empty batches. */
  lemma {:induction false} PurgeNeedNotStop(key: QueueKey, before: int, n: nat) returns (es: seq<Event>)
    requires ValidQueue(key) && before > BLANK.now
    ensures Initial(BLANK) && Run(BLANK, es) == Busy(key, n) && Purges(BLANK, es) == n
    ensures forall e :: e in es && e.Purge? ==> e.before == before > Run(BLANK, es).now
  {
    hide Step, TrimSpace, Busy, Run, Purges;
    if n == 0 {
      es := [EnsureQueue(key, 0, 0)];
      BusyStart(key);
    } else {
      es := PurgeNeedNotStop(key, before, n - 1);
      es := PurgeRound(es, key, before, n - 1);
    }
    BusyClock(key, n);
  }

  lemma BusyClock(key: QueueKey, k: nat)
    ensures Busy(key, k).now == 0
  {
  }

  lemma BusyStart(key: QueueKey)
    requires ValidQueue(key)
    ensures Run(BLANK, [EnsureQueue(key, 0, 0)]) == Busy(key, 0) && Purges(BLANK, [EnsureQueue(key, 0, 0)]) == 0
  {
    hide Step, TrimSpace;
    var e := EnsureQueue(key, 0, 0);
    assert [] + [e] == [e] && [e][..0] == [];
    EnsureStep(key);
    RunSteps(BLANK, [], e, Step(BLANK, e));
  }

  lemma ExtendPurge(es: seq<Event>, e: Event, t: State)
    requires Step(Run(BLANK, es), e) == t
    ensures Run(BLANK, es + [e]) == t
    ensures Purges(BLANK, es + [e]) == Purges(BLANK, es)
              + if e.Purge? && e.picked != {} && Enabled(Run(BLANK, es), e) then 1 else 0
  {
    hide Step, Enabled, Run;
    RunSnoc(BLANK, es, e);
    assert (es + [e])[..|es|] == es;
  }

  lemma PurgeRound(es: seq<Event>, key: QueueKey, before: int, k: nat) returns (fs: seq<Event>)
    requires ValidQueue(key) && before > 0 && Run(BLANK, es) == Busy(key, k)
    ensures Run(BLANK, fs) == Busy(key, k + 1) && Purges(BLANK, fs) == Purges(BLANK, es) + 1
    ensures fs == es + [Admission(NthId(k), key)] + [EnqueueDraft(NthId(k))] + [EnqueueInsert(NthId(k), 0)]
                  + [JobAbandon(0)] + [JobVisit(0, key)] + [CancelRead(key, NthId(k))] + [JobSave(0)]
                  + [PurgeOf(before, NthId(k))]
  {
    hide Step, Enabled, TrimSpace, Run, Purges, Request.Row;
    var id := NthId(k);
    IdsDiffer(k);
    var s0 := Busy(key, k);
    AdmitStep(s0, id, key);
    var s1 := s0.(requests := map[id := Admittance(key)]);
    ExtendPurge(es, Admission(id, key), s1);
    fs := es + [Admission(id, key)];
    DraftStep(s1, id, key);
    var s2 := s0.(requests := map[id := FirstDraft(key)]);
    ExtendPurge(fs, EnqueueDraft(id), s2);
    fs := fs + [EnqueueDraft(id)];
    InsertStep(s2, id, key);
    var s3 := s0.(jobs := map[id := FirstDraft(key).Row()], issued := s0.issued + {id});
    ExtendPurge(fs, EnqueueInsert(id, 0), s3.(copies := map[0 := Publication(id, key)]));
    fs := fs + [EnqueueInsert(id, 0)];
    GiveUpStep(s3.(copies := map[0 := Publication(id, key)]));
    ExtendPurge(fs, JobAbandon(0), s3);
    fs := fs + [JobAbandon(0)];
    fs := CancelAndPurge(fs, s3, id, key, before);
  }

  lemma CancelAndPurge(es: seq<Event>, s3: State, id: JobId, key: QueueKey, before: int) returns (fs: seq<Event>)
    requires Run(BLANK, es) == s3 && s3.jobs == map[id := FirstDraft(key).Row()] && s3.now == 0 && s3.tenants == map[]
    requires s3.copies == map[] && s3.visits == map[] && s3.queues == map[key := FreshQueue(Active)]
    requires id in s3.issued && before > 0
    ensures Run(BLANK, fs) == s3.(jobs := map[]) && Purges(BLANK, fs) == Purges(BLANK, es) + 1
    ensures fs == es + [JobVisit(0, key)] + [CancelRead(key, id)] + [JobSave(0)] + [PurgeOf(before, id)]
  {
    hide Step, Enabled, TrimSpace, Run, Purges, Request.Row;
    CancelThenPurge(s3, id, key, before);
    CancelSteps(s3, id, key);
    ExtendPurge(es, JobVisit(0, key), Step(s3, JobVisit(0, key)));
    fs := es + [JobVisit(0, key)];
    ExtendPurge(fs, CancelRead(key, id), Step(Step(s3, JobVisit(0, key)), CancelRead(key, id)));
    fs := fs + [CancelRead(key, id)];
    ExtendPurge(fs, JobSave(0), s3.(jobs := map[id := AsCancelled(FirstDraft(key).Row(), 0)]));
    fs := fs + [JobSave(0)];
    ExtendPurge(fs, PurgeOf(before, id), s3.(jobs := map[]));
    fs := fs + [PurgeOf(before, id)];
  }

  function CancelRead(key: QueueKey, id: JobId): Event {
    JobRead(0, key, id, Cancelling)
  }

  /** A handler reads a pending job to cancel it. */
  lemma CancelSteps(s: State, id: JobId, key: QueueKey)
    requires s.jobs == map[id := FirstDraft(key).Row()] && s.tenants == map[] && s.copies == map[] && s.visits == map[]
    requires s.queues == map[key := FreshQueue(Active)]
    ensures Step(Step(s, JobVisit(0, key)), CancelRead(key, id))
         == s.(copies := map[0 := JobCopy(id, FirstDraft(key).Row(), Cancelling)])
  {
    hide Step, Request.Row;
    StepOfVisit(s, JobVisit(0, key));
    DraftIsPending(key);
    StepOfRead(s.(visits := map[0 := key]), CancelRead(key, id));
  }

  lemma DraftIsPending(key: QueueKey)
    ensures FirstDraft(key).Row().status.Pending? && KeyOf(FirstDraft(key).Row()) == key
  {
  }

  lemma CancelThenPurge(s: State, id: JobId, key: QueueKey, before: int)
    requires s.jobs == map[id := FirstDraft(key).Row()] && s.now == 0 && s.tenants == map[] && s.copies == map[]
    requires s.queues == map[key := FreshQueue(Active)] && s.visits == map[] && id in s.issued && before > 0
    ensures
      var t := s.(jobs := map[id := AsCancelled(FirstDraft(key).Row(), 0)]);
      && Step(s.(copies := map[0 := JobCopy(id, FirstDraft(key).Row(), Cancelling)]), JobSave(0)) == t
      && Enabled(t, PurgeOf(before, id)) && Step(t, PurgeOf(before, id)) == s.(jobs := map[])
  {
    hide Step;
    StepOfSave(s.(copies := map[0 := JobCopy(id, FirstDraft(key).Row(), Cancelling)]), JobSave(0));
    var t := s.(jobs := map[id := AsCancelled(FirstDraft(key).Row(), 0)]);
    PurgeReady(t, id, key, before);
    StepOfSweep(t, PurgeOf(before, id));
  }

  lemma PurgeReady(t: State, id: JobId, key: QueueKey, before: int)
    requires before > 0 && t.jobs == map[id := AsCancelled(FirstDraft(key).Row(), 0)]
    ensures Enabled(t, PurgeOf(before, id))
  {
    assert Purgeable(t.jobs, {Completed, Cancelled}, before) == {id};
  }
}
