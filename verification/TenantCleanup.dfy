/** Tenant deletion (internal/application/service/queue/cleanup/service.go RequestDeleteTenant,
    cascadeTenant): marks the project's queues, deletes its jobs in batches, then its workers, its
    queue rows and its own row, yielding after every statement. */
module TenantCleanup {
  import opened Wrappers
  import opened JobModel
  import opened QueueState
  import opened QueueSteps
  import opened JobHistory
  import opened StepEquations
  import opened CascadeSafety
  import opened Barrier
  import opened Stranding
  import opened TenantBarrier
  import opened Storage
  import opened Interleaving
  import opened Cleanup

  /** The steps that belong to the cascade of tenant `project`, or end every cascade. */
  predicate TenantDrives(e: Event, project: int) {
    match e
    case TenantMark(p) => p == project
    case TenantDeleteBatch(p, _, _) => p == project
    case TenantDropWorkers(p) => p == project
    case TenantDropQueue(p, _) => p == project
    case TenantDropRow(p) => p == project
    case ResumeTenant(p) => p == project
    case Crash => true
    case _ => false
  }

  ghost predicate TenantForeign(es: seq<Event>, project: int) {
    forall e :: e in es ==> !TenantDrives(e, project)
  }

  ghost predicate TenantUndisturbed(env: nat -> seq<Event>, project: int) {
    forall i :: TenantForeign(env(i), project)
  }

  ghost predicate TenantInFlight(s: State, project: int, phase: TenantPhase) {
    Orderly(s) && project in s.tenantCascades && s.tenantCascades[project] == phase
  }

  lemma TenantIsDeleting(s: State, project: int)
    requires Orderly(s) && project in s.tenantCascades
    ensures TenantBarred(s, project)
  {
  }

  /** Nobody else moves the cascade. */
  lemma TenantUntouched(s: State, e: Event, project: int)
    requires Orderly(s) && project in s.tenantCascades && !TenantDrives(e, project)
    ensures project in Step(s, e).tenantCascades && Step(s, e).tenantCascades[project] == s.tenantCascades[project]
  {
    hide Step, Enabled, Orderly;
    if RowEvent(e) || RequestEvent(e) {
      OthersKeepCascades(s, e);
    } else if QueueCascadeEvent(e) {
      QueueCascadesKeepTenantCascades(s, e);
    } else {
      TenantIsDeleting(s, project);
      OtherTenants(s, e, project);
    }
  }

  lemma QueueCascadesKeepTenantCascades(s: State, e: Event)
    requires QueueCascadeEvent(e) && !e.Crash?
    ensures Step(s, e).tenantCascades == s.tenantCascades
  {
    hide Step, Enabled;
    if e.RequestDelete? {
      StepOfRequestDelete(s, e);
    } else if e.ForceCancel? {
      StepOfForceCancel(s, e);
    } else if e.DeleteBatch? {
      StepOfDeleteBatch(s, e);
    } else {
      StepOfCascade(s, e);
    }
  }

  lemma OtherTenants(s: State, e: Event, project: int)
    requires TenantCascadeEvent(e) && TenantBarred(s, project) && project in s.tenantCascades && !TenantDrives(e, project)
    ensures project in Step(s, e).tenantCascades && Step(s, e).tenantCascades[project] == s.tenantCascades[project]
  {
    hide Step, Enabled;
    if e.RequestDeleteTenant? || e.ResumeTenant? {
      OtherTenantsRequest(s, e, project);
    } else if e.TenantMark? || e.TenantDeleteBatch? {
      OtherTenantsMarkAndDelete(s, e, project);
    } else {
      OtherTenantsDrop(s, e, project);
    }
  }

  lemma OtherTenantsRequest(s: State, e: Event, project: int)
    requires e.RequestDeleteTenant? || e.ResumeTenant?
    requires TenantBarred(s, project) && project in s.tenantCascades
    ensures project in Step(s, e).tenantCascades && Step(s, e).tenantCascades[project] == s.tenantCascades[project]
  {
    hide Step, Enabled;
    StepOfTenantRequest(s, e);
  }

  lemma OtherTenantsMarkAndDelete(s: State, e: Event, project: int)
    requires e.TenantMark? || e.TenantDeleteBatch?
    requires project in s.tenantCascades && e.project != project
    ensures project in Step(s, e).tenantCascades && Step(s, e).tenantCascades[project] == s.tenantCascades[project]
  {
    hide Step, Enabled, QueuesOf, JobsOfProject, Without;
    if e.TenantMark? { StepOfTenantMark(s, e); } else { StepOfTenantDeleteBatch(s, e); }
  }

  lemma OtherTenantsDrop(s: State, e: Event, project: int)
    requires e.TenantDropWorkers? || e.TenantDropQueue? || e.TenantDropRow?
    requires project in s.tenantCascades && e.project != project
    ensures project in Step(s, e).tenantCascades && Step(s, e).tenantCascades[project] == s.tenantCascades[project]
  {
    hide *;
    StepOfTenantDrop(s, e);
    if e.TenantDropRow? {
      OthersStay(s.tenantCascades, e.project, project);
    }
  }

  lemma OthersStay<V>(m: map<int, V>, gone: int, other: int)
    requires other in m && other != gone
    ensures other in Without(m, {gone}) && Without(m, {gone})[other] == m[other]
  {
  }

  /** What is near the project, its enqueues under way and its workers have become less, or stayed. */
  ghost predicate Dwindled(s: State, t: State, project: int) {
    && TenantNear(t, project) <= TenantNear(s, project)
    && TenantLoad(t, project) <= TenantLoad(s, project)
    && RequestsOfProject(t.requests, project) <= RequestsOfProject(s.requests, project)
    && WorkersOf(t, project) <= WorkersOf(s, project)
  }

  lemma StepDwindles(s: State, e: Event, project: int)
    requires TenantBarred(s, project)
    ensures Dwindled(s, Step(s, e), project)
    ensures e.TenantDeleteBatch? && e.project == project && e.picked != {} && Enabled(s, e) ==>
              TenantLoad(Step(s, e), project) < TenantLoad(s, project)
  {
    hide Step, Enabled, TenantNear, TenantLoad, WorkersOf, TenantBarred;
    TenantBarrierStep(s, e, project);
    TenantLoadStep(s, e, project);
    forall id | id in RequestsOfProject(Step(s, e).requests, project)
      ensures id in RequestsOfProject(s.requests, project)
    {
      TenantRequestEnters(s, e, project, id);
    }
  }

  /** Nothing under way can bring a queue row of the project back: every row it has is deleting, and no
      enqueue and no config update of the project is under way. */
  ghost predicate Closed(s: State, project: int) {
    && TenantBarred(s, project) && RequestsOfProject(s.requests, project) == {}
    && (forall token :: token in s.edits ==> s.edits[token].key.project != project)
    && (forall k :: k in s.queues && k.project == project ==> s.queues[k].status.Deleting?)
  }

  /** The step does not create a queue of the project directly. */
  predicate NoNewQueue(e: Event, project: int) {
    e.EnsureQueue? ==> e.key.project != project
  }

  lemma ClosedStep(s: State, e: Event, project: int)
    requires Closed(s, project) && NoNewQueue(e, project) && project in Step(s, e).tenants
    ensures Closed(Step(s, e), project) && QueuesOf(Step(s, e), project) <= QueuesOf(s, project)
  {
    hide Step, Enabled, RequestsOfProject, TenantNear, WorkersOf, QueuesOf;
    StepDwindles(s, e, project);
    TenantBarrierStep(s, e, project);
    ClosedEdits(s, e, project);
    forall k | k in Step(s, e).queues && k.project == project
      ensures k in s.queues && Step(s, e).queues[k].status.Deleting?
    {
      ClosedRow(s, e, k);
    }
    RowsWithin(s, Step(s, e), project);
  }

  lemma RowsWithin(s: State, t: State, project: int)
    requires forall k :: k in t.queues && k.project == project ==> k in s.queues
    ensures QueuesOf(t, project) <= QueuesOf(s, project)
  {
  }

  lemma ClosedEdits(s: State, e: Event, project: int)
    requires Closed(s, project)
    ensures forall token :: token in Step(s, e).edits ==> Step(s, e).edits[token].key.project != project
  {
    hide Step, Enabled, RequestsOfProject;
    if UpdateEvent(e) {
      StepOfUpdate(s, e);
    } else {
      OthersKeepEdits(s, e);
    }
  }

  lemma ClosedRow(s: State, e: Event, k: QueueKey)
    requires Closed(s, k.project) && NoNewQueue(e, k.project) && k in Step(s, e).queues
    ensures k in s.queues && Step(s, e).queues[k].status.Deleting?
  {
    hide Step, Enabled, Closed;
    RowMoves(s, e, k);
    RowIsThere(s, e, k);
    ClosedRows(s, k);
  }

  lemma RowIsThere(s: State, e: Event, k: QueueKey)
    requires Closed(s, k.project) && NoNewQueue(e, k.project) && k in Step(s, e).queues
    ensures k in s.queues
  {
    hide Step;
    if k !in s.queues {
      RowIsInserted(s, e, k);
      NotRequested(s, k.project);
    }
  }

  lemma NotRequested(s: State, project: int)
    requires RequestsOfProject(s.requests, project) == {}
    ensures forall id :: id in s.requests ==> s.requests[id].key.project != project
  {
    forall id | id in s.requests ensures s.requests[id].key.project != project {
      assert id !in RequestsOfProject(s.requests, project);
    }
  }

  lemma ClosedRows(s: State, k: QueueKey)
    requires Closed(s, k.project) && k in s.queues
    ensures s.queues[k].status.Deleting? && forall token :: !(token in s.edits && s.edits[token].key == k)
  {
  }

  /** A queue row is only ever inserted by a creation, for itself or within an enqueue, or by the save of a
      config update. */
  lemma RowIsInserted(s: State, e: Event, k: QueueKey)
    requires k !in s.queues && k in Step(s, e).queues
    ensures
      || (e.EnsureQueue? && e.key == k)
      || (e.EnqueueCreate? && e.id in s.requests && s.requests[e.id].key == k)
      || (e.UpdateSave? && e.token in s.edits && s.edits[e.token].key == k)
  {
    hide Step, Enabled, RequestsCreated, ValidQueue, NewQueue;
    if RowEvent(e) {
      RowEventFrame(s, e);
    } else if e.EnqueueCreate? {
      StepOfCreate(s, e);
    } else if EnqueueEvent(e) {
      EnqueueFrame(s, e);
    } else if UpdateEvent(e) {
      StepOfUpdate(s, e);
    } else if e.EnsureQueue? {
      StepOfEnsure(s, e);
    } else if RequestEvent(e) {
      EntryFrame(s, e);
    } else {
      CascadesInsertNoRow(s, e, k);
    }
  }

  lemma CascadesInsertNoRow(s: State, e: Event, k: QueueKey)
    requires (QueueCascadeEvent(e) || TenantCascadeEvent(e)) && k !in s.queues
    ensures k !in Step(s, e).queues
  {
    hide Step, Enabled;
    if e.RequestDelete? {
      StepOfRequestDelete(s, e);
    } else if e.DropRow? {
      StepOfCascade(s, e);
    } else if e.TenantMark? {
      StepOfTenantMark(s, e);
    } else if e.TenantDropQueue? {
      StepOfTenantDrop(s, e);
    } else {
      OthersKeepQueues(s, e);
    }
  }

  /** Others leave a tenant cascade in flight where it is, and add nothing to its project. */
  lemma StepKeepsTenantCascade(s: State, e: Event, project: int, phase: TenantPhase)
    requires TenantInFlight(s, project, phase) && !TenantDrives(e, project)
    ensures TenantInFlight(Step(s, e), project, phase) && Dwindled(s, Step(s, e), project)
    ensures Closed(s, project) && NoNewQueue(e, project) ==>
              Closed(Step(s, e), project) && QueuesOf(Step(s, e), project) <= QueuesOf(s, project)
  {
    hide Step, Enabled, Orderly, TenantDrives, Dwindled, Closed, TenantBarred, NoNewQueue, QueuesOf;
    StepOrderly(s, e);
    TenantIsDeleting(s, project);
    TenantUntouched(s, e, project);
    StepDwindles(s, e, project);
    TenantHasRow(Step(s, e), project);
    if Closed(s, project) && NoNewQueue(e, project) {
      ClosedStep(s, e, project);
    }
  }

  lemma TenantHasRow(s: State, project: int)
    requires Orderly(s) && project in s.tenantCascades
    ensures project in s.tenants
  {
  }

  ghost predicate NoNewQueues(es: seq<Event>, project: int) {
    forall e :: e in es ==> NoNewQueue(e, project)
  }

  lemma {:induction false} RunKeepsTenantCascade(s: State, es: seq<Event>, project: int, phase: TenantPhase)
    requires TenantInFlight(s, project, phase) && TenantForeign(es, project)
    ensures TenantInFlight(Run(s, es), project, phase) && Dwindled(s, Run(s, es), project)
    ensures Closed(s, project) && NoNewQueues(es, project) ==>
              Closed(Run(s, es), project) && QueuesOf(Run(s, es), project) <= QueuesOf(s, project)
    decreases |es|
  {
    hide Step, TenantInFlight, Dwindled, Closed, NoNewQueue, QueuesOf;
    if es == [] {
      DwindledRefl(s, project);
    } else {
      var t := Run(s, es[..|es| - 1]);
      RunKeepsTenantCascade(s, es[..|es| - 1], project, phase);
      assert es[|es| - 1] in es;
      StepKeepsTenantCascade(t, es[|es| - 1], project, phase);
      DwindledTwice(s, t, Run(s, es), project);
    }
  }

  /** The cascade's own steps. */
  ghost predicate TenantSteps(own: seq<Event>, project: int) {
    forall e :: e in own ==> TenantDrives(e, project) && !e.Crash? && !e.ResumeTenant?
  }

  /** Nobody creates queues of the project directly. */
  ghost predicate Shut(env: nat -> seq<Event>, project: int) {
    forall i :: NoNewQueues(env(i), project)
  }

  method TenantPause(db: Database, project: int, ghost phase: TenantPhase, env: nat -> seq<Event>, ghost turn: nat,
                     es: seq<Event>, ghost s0: State, ghost moves: seq<Move>)
      returns (ghost more: seq<Move>)
    requires TenantInFlight(db.View(), project, phase) && TenantUndisturbed(env, project)
    requires es == env(turn) && Woven(s0, moves, db.View(), env, turn)
    modifies db
    ensures TenantInFlight(db.View(), project, phase) && Dwindled(old(db.View()), db.View(), project)
    ensures moves <= more && Woven(s0, more, db.View(), env, turn + 1) && By(more, true) == By(moves, true)
    ensures Closed(old(db.View()), project) && Shut(env, project) ==>
              && Closed(db.View(), project)
              && QueuesOf(db.View(), project) <= QueuesOf(old(db.View()), project)
  {
    hide Step, Run, By, Woven, TenantInFlight, Dwindled, Closed, QueuesOf;
    RunKeepsTenantCascade(db.View(), es, project, phase);
    more := Yield(db, env, turn, es, s0, moves);
  }

  /** The own step `e` has just been executed, and moved the cascade to `phase`. */
  lemma TenantStepDone(s0: State, moves: seq<Move>, s: State, t: State, env: nat -> seq<Event>, turn: nat, e: Event,
                       project: int, phase: TenantPhase)
    requires Orderly(s) && project in s.tenantCascades
    requires t == Step(s, e) && project in t.tenantCascades && t.tenantCascades[project] == phase
    requires Woven(s0, moves, s, env, turn) && TenantSteps(By(moves, true), project)
    requires TenantDrives(e, project) && !e.Crash? && !e.ResumeTenant?
    ensures TenantInFlight(t, project, phase) && Dwindled(s, t, project)
    ensures Closed(s, project) ==> Closed(t, project) && QueuesOf(t, project) <= QueuesOf(s, project)
    ensures Woven(s0, moves + [Own(e)], t, env, turn) && TenantSteps(By(moves + [Own(e)], true), project)
    ensures |By(moves + [Own(e)], true)| == |By(moves, true)| + 1
  {
    hide Step, Orderly, Woven, By, Dwindled, Closed, TenantBarred, QueuesOf;
    StepOrderly(s, e);
    TenantIsDeleting(s, project);
    StepDwindles(s, e, project);
    TenantHasRow(t, project);
    if Closed(s, project) {
      ClosedStep(s, e, project);
    }
    OwnStep(s0, moves, s, env, turn, e);
  }

  /** Marks each queue of the project deleting. */
  method MarkEach(db: Database, project: int)
    modifies db`queues
    ensures db.queues.Keys == old(db.queues).Keys
    ensures forall k :: k in db.queues ==>
              db.queues[k] == if k.project == project then old(db.queues)[k].(status := Deleting) else old(db.queues)[k]
  {
    var rest := set k | k in db.queues && k.project == project;
    while rest != {}
      invariant rest <= db.queues.Keys == old(db.queues).Keys
      invariant forall k :: k in rest ==> k.project == project
      invariant forall k :: k in db.queues ==>
                  db.queues[k] == if k.project == project && k !in rest then old(db.queues)[k].(status := Deleting)
                                  else old(db.queues)[k]
      decreases |rest|
    {
      var k :| k in rest;
      if !db.queues[k].status.Deleting? {
        db.SaveQueue(k, db.queues[k].(status := Deleting));
      }
      rest := rest - {k};
    }
  }

  /** Lists the project's queues and marks each of them deleting. */
  method MarkQueues(db: Database, project: int, ghost env: nat -> seq<Event>, ghost turn: nat,
                    ghost s0: State, ghost moves: seq<Move>)
      returns (names: set<string>, ghost more: seq<Move>)
    requires TenantInFlight(db.View(), project, TListing)
    requires forall k :: k in db.cascades ==> k.project != project
    requires Woven(s0, moves, db.View(), env, turn) && TenantSteps(By(moves, true), project)
    modifies db`queues, db`tenantCascades
    ensures TenantInFlight(db.View(), project, TDeletingJobs(names)) && names == QueuesOf(old(db.View()), project)
    ensures Dwindled(old(db.View()), db.View(), project)
    ensures moves <= more && Woven(s0, more, db.View(), env, turn) && TenantSteps(By(more, true), project)
    ensures |By(more, true)| == |By(moves, true)| + 1
    ensures QueuesOf(db.View(), project) == names
    ensures NothingUnderWay(old(db.View()), project) ==> Closed(db.View(), project)
  {
    hide Step, Run, By, Woven, Orderly, TenantSteps, QueuesOf, Dwindled, Closed, NothingUnderWay;
    ghost var s := db.View();
    names := QueuesOf(db.View(), project);
    MarkEach(db, project);
    db.tenantCascades := db.tenantCascades[project := TDeletingJobs(names)];
    MarkedStep(s, db.View(), project);
    TenantStepDone(s0, moves, s, db.View(), env, turn, TenantMark(project), project, TDeletingJobs(names));
    more := moves + [Own(TenantMark(project))];
    RowsWithin(s, db.View(), project);
    RowsWithin(db.View(), s, project);
    if NothingUnderWay(s, project) {
      TenantIsDeleting(s, project);
      MarkCloses(s, db.View(), project);
    }
  }

  /** No enqueue and no config update of the project is under way. */
  ghost predicate NothingUnderWay(s: State, project: int) {
    && RequestsOfProject(s.requests, project) == {}
    && forall token :: token in s.edits ==> s.edits[token].key.project != project
  }

  lemma MarkCloses(s: State, t: State, project: int)
    requires NothingUnderWay(s, project) && TenantBarred(s, project)
    requires t == s.(queues := t.queues, tenantCascades := t.tenantCascades)
    requires forall k :: k in t.queues && k.project == project ==> t.queues[k].status.Deleting?
    ensures Closed(t, project)
  {
  }

  lemma MarkedStep(s: State, t: State, project: int)
    requires project in s.tenantCascades && s.tenantCascades[project] == TListing
    requires forall k :: k in s.cascades ==> k.project != project
    requires t.queues.Keys == s.queues.Keys
    requires forall k :: k in s.queues ==>
               t.queues[k] == if k.project == project then s.queues[k].(status := Deleting) else s.queues[k]
    requires t == s.(queues := t.queues,
                     tenantCascades := s.tenantCascades[project := TDeletingJobs(QueuesOf(s, project))])
    ensures t == Step(s, TenantMark(project))
  {
    hide Step, Enabled, QueuesOf;
    StepOfTenantMark(s, TenantMark(project));
    assert t.queues == Step(s, TenantMark(project)).queues;
  }

  /** One delete batch; an empty one moves the cascade on. */
  method TenantBatch(db: Database, project: int, batch: int, names: set<string>, ghost env: nat -> seq<Event>,
                     ghost turn: nat, ghost s0: State, ghost moves: seq<Move>)
      returns (n: nat, ghost more: seq<Move>)
    requires batch > 0 && TenantInFlight(db.View(), project, TDeletingJobs(names))
    requires Woven(s0, moves, db.View(), env, turn) && TenantSteps(By(moves, true), project)
    modifies db`jobs, db`tenantCascades
    ensures TenantInFlight(db.View(), project, if n == 0 then TDroppingWorkers(names) else TDeletingJobs(names))
    ensures Dwindled(old(db.View()), db.View(), project)
    ensures db.View().requests == old(db.View()).requests && db.View().copies == old(db.View()).copies
    ensures Woven(s0, more, db.View(), env, turn) && TenantSteps(By(more, true), project)
    ensures |By(more, true)| == |By(moves, true)| + 1
    ensures Closed(old(db.View()), project) ==>
              Closed(db.View(), project) && QueuesOf(db.View(), project) <= QueuesOf(old(db.View()), project)
    ensures if n == 0 then
              && TenantNear(db.View(), project) == TenantExpected(db.View(), project)
              && more == moves + [Own(TenantDeleteBatch(project, batch, {}))]
            else moves <= more && TenantLoad(db.View(), project) < TenantLoad(old(db.View()), project)
  {
    hide Step, Run, By, Woven, Orderly, TenantSteps, Dwindled, Closed, QueuesOf, JobsOfProject, TenantExpected,
         TenantLoad, Enabled;
    ghost var s := db.View();
    ghost var picked;
    n, picked := db.DeleteByProject(project, batch);
    if n == 0 {
      db.tenantCascades := db.tenantCascades[project := TDroppingWorkers(names)];
    }
    ghost var e := TenantDeleteBatch(project, batch, picked);
    TenantDeletedBatch(s, db.jobs, project, names, batch, picked);
    TenantStepDone(s0, moves, s, db.View(), env, turn, e, project,
                   if n == 0 then TDroppingWorkers(names) else TDeletingJobs(names));
    TenantIsDeleting(s, project);
    StepDwindles(s, e, project);
    more := moves + [Own(e)];
  }

  lemma TenantDeletedBatch(s: State, jobs: map<JobId, Job>, project: int, names: set<string>, batch: int,
                           picked: set<JobId>)
    requires batch > 0 && Batch(JobsOfProject(s.jobs, project), batch, picked) && jobs == Without(s.jobs, picked)
    requires project in s.tenantCascades && s.tenantCascades[project] == TDeletingJobs(names)
    ensures Step(s, TenantDeleteBatch(project, batch, picked)) ==
            s.(jobs := jobs, tenantCascades := if picked == {} then s.tenantCascades[project := TDroppingWorkers(names)]
                                               else s.tenantCascades)
    ensures picked == {} ==> JobsOfProject(jobs, project) == {}
    ensures Enabled(s, TenantDeleteBatch(project, batch, picked))
  {
    hide Step, JobsOfProject;
    TenantBatchReady(s, project, names, batch, picked);
    StepOfTenantDeleteBatch(s, TenantDeleteBatch(project, batch, picked));
    assert s.tenantCascades[project := TDeletingJobs(names)] == s.tenantCascades;
    assert picked == {} ==> jobs == s.jobs;
  }

  lemma TenantBatchReady(s: State, project: int, names: set<string>, batch: int, picked: set<JobId>)
    requires batch > 0 && Batch(JobsOfProject(s.jobs, project), batch, picked)
    requires project in s.tenantCascades && s.tenantCascades[project] == TDeletingJobs(names)
    ensures Enabled(s, TenantDeleteBatch(project, batch, picked))
  {
    hide JobsOfProject;
  }

  /** Deletes each worker of the project. */
  method DeleteEachWorker(db: Database, project: int)
    modifies db`workers
    ensures db.workers == map w | w in old(db.workers) && old(db.workers)[w].project != project :: old(db.workers)[w]
  {
    var rest := set w | w in db.workers && db.workers[w].project == project;
    while rest != {}
      invariant forall w :: w in rest ==> w in db.workers && db.workers[w].project == project
      invariant forall w :: w in db.workers <==>
                  w in old(db.workers) && (old(db.workers)[w].project != project || w in rest)
      invariant forall w :: w in db.workers ==> db.workers[w] == old(db.workers)[w]
      decreases |rest|
    {
      var w :| w in rest;
      db.workers := Without(db.workers, {w});
      rest := rest - {w};
    }
  }

  method DropWorkers(db: Database, project: int, names: set<string>, ghost env: nat -> seq<Event>, ghost turn: nat,
                     ghost s0: State, ghost moves: seq<Move>)
      returns (ghost more: seq<Move>)
    requires TenantInFlight(db.View(), project, TDroppingWorkers(names))
    requires Woven(s0, moves, db.View(), env, turn) && TenantSteps(By(moves, true), project)
    modifies db`workers, db`tenantCascades
    ensures TenantInFlight(db.View(), project, TDroppingQueues(names)) && WorkersOf(db.View(), project) == {}
    ensures Dwindled(old(db.View()), db.View(), project)
    ensures moves <= more && Woven(s0, more, db.View(), env, turn) && TenantSteps(By(more, true), project)
    ensures |By(more, true)| == |By(moves, true)| + 1
    ensures Closed(old(db.View()), project) ==>
              Closed(db.View(), project) && QueuesOf(db.View(), project) <= QueuesOf(old(db.View()), project)
  {
    hide Step, Run, By, Woven, Orderly, TenantSteps, Dwindled, Closed, QueuesOf;
    ghost var s, e := db.View(), TenantDropWorkers(project);
    TenantDropReady(s, e, names);
    StepOfTenantDrop(s, e);
    DeleteEachWorker(db, project);
    db.tenantCascades := db.tenantCascades[project := TDroppingQueues(names)];
    TenantStepDone(s0, moves, s, db.View(), env, turn, e, project, TDroppingQueues(names));
    more := moves + [Own(e)];
  }

  lemma TenantDropReady(s: State, e: Event, names: set<string>)
    requires e.TenantDropWorkers? || e.TenantDropQueue? || e.TenantDropRow?
    requires e.project in s.tenantCascades
    requires s.tenantCascades[e.project] ==
             if e.TenantDropWorkers? then TDroppingWorkers(names) else TDroppingQueues(names)
    requires e.TenantDropQueue? ==> e.name in names
    requires e.TenantDropRow? ==> names == {}
    ensures Enabled(s, e)
  {
  }

  method DropOneQueue(db: Database, project: int, name: string, names: set<string>, ghost env: nat -> seq<Event>,
                      ghost turn: nat, ghost s0: State, ghost moves: seq<Move>)
      returns (ghost more: seq<Move>)
    requires TenantInFlight(db.View(), project, TDroppingQueues(names)) && name in names
    requires Woven(s0, moves, db.View(), env, turn) && TenantSteps(By(moves, true), project)
    modifies db`queues, db`tenantCascades
    ensures TenantInFlight(db.View(), project, TDroppingQueues(names - {name}))
    ensures Dwindled(old(db.View()), db.View(), project)
    ensures moves <= more && Woven(s0, more, db.View(), env, turn) && TenantSteps(By(more, true), project)
    ensures |By(more, true)| == |By(moves, true)| + 1
    ensures QueuesOf(db.View(), project) <= QueuesOf(old(db.View()), project) - {name}
    ensures Closed(old(db.View()), project) ==> Closed(db.View(), project)
  {
    hide Step, Run, By, Woven, Orderly, TenantSteps, Dwindled, Closed, QueuesOf;
    ghost var s, e := db.View(), TenantDropQueue(project, name);
    TenantDropReady(s, e, names);
    StepOfTenantDrop(s, e);
    db.DeleteQueue(QueueKey(project, name));
    db.tenantCascades := db.tenantCascades[project := TDroppingQueues(names - {name})];
    TenantStepDone(s0, moves, s, db.View(), env, turn, e, project, TDroppingQueues(names - {name}));
    RowDropped(s, db.View(), project, name);
    more := moves + [Own(e)];
  }

  lemma RowDropped(s: State, t: State, project: int, name: string)
    requires t.queues == Without(s.queues, {QueueKey(project, name)})
    ensures QueuesOf(t, project) <= QueuesOf(s, project) - {name}
  {
  }

  method DropTenant(db: Database, project: int, ghost env: nat -> seq<Event>, ghost turn: nat,
                    ghost s0: State, ghost moves: seq<Move>)
      returns (ghost more: seq<Move>)
    requires TenantInFlight(db.View(), project, TDroppingQueues({}))
    requires Woven(s0, moves, db.View(), env, turn) && TenantSteps(By(moves, true), project)
    modifies db`tenants, db`tenantCascades
    ensures moves <= more && Woven(s0, more, db.View(), env, turn) && TenantSteps(By(more, true), project)
    ensures |By(more, true)| == |By(moves, true)| + 1
    ensures project !in db.tenants && project !in db.tenantCascades && Orderly(db.View())
    ensures Dwindled(old(db.View()), db.View(), project)
    ensures QueuesOf(db.View(), project) == QueuesOf(old(db.View()), project)
  {
    hide Step, Run, By, Woven, Orderly, Dwindled;
    ghost var s, e := db.View(), TenantDropRow(project);
    TenantDropReady(s, e, {});
    StepOfTenantDrop(s, e);
    StepOrderly(s, e);
    TenantIsDeleting(s, project);
    StepDwindles(s, e, project);
    OwnStep(s0, moves, s, env, turn, e);
    db.tenants := Without(db.tenants, {project});
    db.tenantCascades := Without(db.tenantCascades, {project});
    more := moves + [Own(e)];
  }

  /** The cascade's delete loop, up to and including the batch that finds no job of the project. */
  method DeleteProjectJobs(db: Database, project: int, batch: int, names: set<string>, env: nat -> seq<Event>, first: nat,
                           ghost s0: State, ghost moves: seq<Move>)
      returns (ghost more: seq<Move>, turn: nat, ghost last: nat)
    requires batch > 0 && TenantInFlight(db.View(), project, TDeletingJobs(names)) && TenantUndisturbed(env, project)
    requires Woven(s0, moves, db.View(), env, first) && TenantSteps(By(moves, true), project)
    modifies db
    ensures TenantInFlight(db.View(), project, TDroppingWorkers(names))
    ensures Dwindled(old(db.View()), db.View(), project)
    ensures Woven(s0, more, db.View(), env, turn) && TenantSteps(By(more, true), project)
    ensures |By(more, true)| <= |By(moves, true)| + TenantLoad(old(db.View()), project) + 1
    ensures last + 1 == |more| && more[last] == Own(TenantDeleteBatch(project, batch, {}))
    ensures TenantNear(db.View(), project) == TenantExpected(Run(s0, Events(more[..last])), project)
    ensures TenantExpected(Run(s0, Events(more[..last])), project) <= TenantNear(old(db.View()), project)
    ensures Closed(old(db.View()), project) && Shut(env, project) ==>
              Closed(db.View(), project) && QueuesOf(db.View(), project) <= QueuesOf(old(db.View()), project)
  {
    hide *;
    more, turn := moves, first;
    DwindledRefl(db.View(), project);
    while true
      invariant TenantInFlight(db.View(), project, TDeletingJobs(names))
      invariant Dwindled(old(db.View()), db.View(), project)
      invariant Woven(s0, more, db.View(), env, turn) && TenantSteps(By(more, true), project)
      invariant |By(more, true)| + TenantLoad(db.View(), project)
                <= |By(moves, true)| + TenantLoad(old(db.View()), project)
      invariant Closed(old(db.View()), project) && Shut(env, project) ==>
                  Closed(db.View(), project) && QueuesOf(db.View(), project) <= QueuesOf(old(db.View()), project)
      decreases TenantLoad(db.View(), project)
    {
      ghost var before, s := more, db.View();
      last := |more|;
      var n;
      n, more := TenantBatch(db, project, batch, names, env, turn, s0, more);
      ghost var t := db.View();
      DwindledTwice(old(db.View()), s, t, project);
      if n == 0 {
        assert more[..last] == before;
        WovenIsRun(s0, before, s, env, turn);
        SameExpected(s, db.View(), project);
        NearWithin(old(db.View()), s, project);
        return;
      }
      more := TenantPause(db, project, TDeletingJobs(names), env, turn, env(turn), s0, more);
      DwindledTwice(old(db.View()), t, db.View(), project);
      NearWithin(t, db.View(), project);
      turn := turn + 1;
    }
  }

  lemma SameExpected(s: State, t: State, project: int)
    requires t.requests == s.requests && t.copies == s.copies
    ensures TenantExpected(t, project) == TenantExpected(s, project) <= TenantNear(s, project)
  {
  }

  lemma DwindledRefl(s: State, project: int)
    ensures Dwindled(s, s, project)
  {
  }

  lemma DwindledTwice(s: State, t: State, u: State, project: int)
    requires Dwindled(s, t, project) && Dwindled(t, u, project)
    ensures Dwindled(s, u, project)
  {
  }

  /** The queues listed at the start, one after the other. */
  method DropQueues(db: Database, project: int, listed: set<string>, env: nat -> seq<Event>, first: nat,
                    ghost s0: State, ghost moves: seq<Move>)
      returns (ghost more: seq<Move>, turn: nat)
    requires TenantInFlight(db.View(), project, TDroppingQueues(listed)) && TenantUndisturbed(env, project)
    requires Woven(s0, moves, db.View(), env, first) && TenantSteps(By(moves, true), project)
    modifies db
    ensures TenantInFlight(db.View(), project, TDroppingQueues({}))
    ensures Dwindled(old(db.View()), db.View(), project)
    ensures moves <= more && Woven(s0, more, db.View(), env, turn) && TenantSteps(By(more, true), project)
    ensures |By(more, true)| == |By(moves, true)| + |listed|
    ensures Closed(old(db.View()), project) && Shut(env, project) && QueuesOf(old(db.View()), project) <= listed ==>
              QueuesOf(db.View(), project) == {}
  {
    hide *;
    more, turn := moves, first;
    var names := listed;
    DwindledRefl(db.View(), project);
    while names != {}
      invariant names <= listed && TenantInFlight(db.View(), project, TDroppingQueues(names))
      invariant Dwindled(old(db.View()), db.View(), project)
      invariant moves <= more && Woven(s0, more, db.View(), env, turn) && TenantSteps(By(more, true), project)
      invariant |By(more, true)| + |names| == |By(moves, true)| + |listed|
      invariant Closed(old(db.View()), project) && Shut(env, project) && QueuesOf(old(db.View()), project) <= listed ==>
                  Closed(db.View(), project) && QueuesOf(db.View(), project) <= names
      decreases |names|
    {
      var name :| name in names;
      ghost var s := db.View();
      more := DropOneQueue(db, project, name, names, env, turn, s0, more);
      DwindledTwice(old(db.View()), s, db.View(), project);
      names := names - {name};
      ghost var t := db.View();
      more := TenantPause(db, project, TDroppingQueues(names), env, turn, env(turn), s0, more);
      DwindledTwice(old(db.View()), t, db.View(), project);
      turn := turn + 1;
    }
  }

  /** A tenant's deletion, statement by statement, whatever others do in between: it stops, and then the
      tenant's row and the project's workers are gone.  Any job of the project that is left or still to
      come was an enqueue under way, or held by a handler, when the last batch (`last` among the moves)
      found no job.  If no
      enqueue and no config update of the project was under way and nobody creates its queues directly,
      no queue row of the project is left either.  No cascade of one of the project's queues may be in
      flight when it starts. */
  method CascadeTenant(db: Database, project: int, configuredBatch: int, env: nat -> seq<Event>)
      returns (ghost moves: seq<Move>, turn: nat, ghost last: nat)
    requires TenantInFlight(db.View(), project, TListing) && TenantUndisturbed(env, project)
    requires forall k :: k in db.cascades ==> k.project != project
    modifies db
    ensures Woven(old(db.View()), moves, db.View(), env, turn) && TenantSteps(By(moves, true), project)
    ensures |By(moves, true)| <= TenantLoad(old(db.View()), project) + |QueuesOf(old(db.View()), project)| + 4
    ensures project !in db.tenants && project !in db.tenantCascades && Orderly(db.View())
    ensures WorkersOf(db.View(), project) == {}
    ensures last < |moves| && moves[last] == Own(TenantDeleteBatch(project, BatchSize(configuredBatch), {}))
    ensures TenantNear(db.View(), project)
            <= TenantExpected(Run(old(db.View()), Events(moves[..last])), project)
            <= TenantNear(old(db.View()), project)
    ensures NothingUnderWay(old(db.View()), project) && Shut(env, project) ==> QueuesOf(db.View(), project) == {}
  {
    hide *;
    ghost var s0, s1 := db.View(), db.View();
    TenantNothing(s0, env, project);
    var names;
    names, moves := MarkQueues(db, project, env, 0, s0, []);
    s1 := db.View();
    moves := TenantPause(db, project, TDeletingJobs(names), env, 0, env(0), s0, moves);
    DwindledTwice(s0, s1, db.View(), project);
    ghost var s2 := db.View();
    NearWithin(s0, s2, project);
    moves, turn, last := DeleteProjectJobs(db, project, BatchSize(configuredBatch), names, env, 1, s0, moves);
    DwindledTwice(s0, s2, db.View(), project);
    ghost var s3, upToLast := db.View(), moves;
    moves := TenantPause(db, project, TDroppingWorkers(names), env, turn, env(turn), s0, moves);
    ghost var s4 := db.View();
    moves := DropWorkers(db, project, names, env, turn + 1, s0, moves);
    DwindledTwice(s3, s4, db.View(), project);
    ghost var s5 := db.View();
    moves := TenantPause(db, project, TDroppingQueues(names), env, turn + 1, env(turn + 1), s0, moves);
    DwindledTwice(s3, s5, db.View(), project);
    NoWorkersLeft(s5, db.View(), project);
    ghost var s6 := db.View();
    moves, turn := DropQueues(db, project, names, env, turn + 2, s0, moves);
    DwindledTwice(s3, s6, db.View(), project);
    NoWorkersLeft(s6, db.View(), project);
    ghost var s7 := db.View();
    moves := DropTenant(db, project, env, turn, s0, moves);
    DwindledTwice(s3, s7, db.View(), project);
    NoWorkersLeft(s7, db.View(), project);
    NearWithin(s3, db.View(), project);
    assert moves[..last] == upToLast[..last];
  }

  lemma TenantNothing(s: State, env: nat -> seq<Event>, project: int)
    ensures Woven(s, [], s, env, 0) && TenantSteps(By([], true), project) && By([], true) == []
  {
  }

  lemma NearWithin(s: State, t: State, project: int)
    requires Dwindled(s, t, project)
    ensures TenantNear(t, project) <= TenantNear(s, project)
    ensures TenantLoad(t, project) <= TenantLoad(s, project)
  {
  }

  lemma NoWorkersLeft(s: State, t: State, project: int)
    requires Dwindled(s, t, project) && WorkersOf(s, project) == {}
    ensures WorkersOf(t, project) == {}
  {
  }

  datatype TenantDeleteResult = NoSuchTenant | TenantAlreadyDeleting | TenantStarted

  /** Turns the tenant deleting and puts its cascade in flight.  Tenant ids are positive. */
  method RequestDeleteTenant(db: Database, project: int) returns (r: TenantDeleteResult)
    requires Orderly(db.View()) && (project in db.tenants ==> project > 0)
    modifies db`tenants, db`tenantCascades
    ensures db.View() == Step(old(db.View()), QueueSteps.RequestDeleteTenant(project)) && Orderly(db.View())
    ensures r.NoSuchTenant? <==> project !in old(db.tenants)
    ensures r.TenantAlreadyDeleting? <==> project in old(db.tenants) && old(db.tenants)[project].Deleting?
    ensures r.TenantStarted? ==> TenantInFlight(db.View(), project, TListing)
  {
    hide Step, Orderly;
    StepOfTenantRequest(db.View(), QueueSteps.RequestDeleteTenant(project));
    StepOrderly(db.View(), QueueSteps.RequestDeleteTenant(project));
    if project !in db.tenants {
      return NoSuchTenant;
    }
    if db.tenants[project].Deleting? {
      return TenantAlreadyDeleting;
    }
    db.tenants := db.tenants[project := Deleting];
    db.tenantCascades := db.tenantCascades[project := TListing];
    r := TenantStarted;
  }
}
