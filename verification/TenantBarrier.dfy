/** The write barrier of a tenant: what is past it dwindles, and what its cascade leaves. */
module TenantBarrier {
  import opened Wrappers
  import opened JobModel
  import opened QueueState
  import opened QueueSteps
  import opened StepEquations
  import opened JobHistory
  import opened CascadeSafety
  import opened Barrier
  import opened Stranding

  /** All enqueues of the project that the guard has let through, and the jobs of the project that
      handlers have still to save. */
  ghost function TenantExpected(s: State, project: int): set<JobId> {
    RequestsOfProject(s.requests, project) + CopiedOfProject(s.copies, project)
  }

  /** The project's jobs, and those that may still come. */
  ghost function TenantNear(s: State, project: int): set<JobId> {
    JobsOfProject(s.jobs, project) + TenantExpected(s, project)
  }

  /** How often a job of the project can still be deleted, once the guard lets nothing more in. */
  ghost function TenantLoad(s: State, project: int): nat {
    |JobsOfProject(s.jobs, project)| + 2 * |RequestsOfProject(s.requests, project)|
    + |HoldersOfProject(s.copies, project)| + |PublishersOfProject(s.copies, project)|
    + 2 * |VisitorsOfProject(s.visits, project)|
  }

  ghost function WorkersOf(s: State, project: int): set<string> {
    set w | w in s.workers && s.workers[w].project == project
  }

  ghost predicate TenantBarred(s: State, project: int) {
    project > 0 && project in s.tenants && s.tenants[project].Deleting?
  }

  // ---- where the project's jobs come from ----

  lemma TenantJobEnters(s: State, e: Event, project: int, id: JobId)
    ensures id in JobsOfProject(Step(s, e).jobs, project) ==>
              || id in JobsOfProject(s.jobs, project)
              || (InsertsJob(s, e, id) && id in RequestsOfProject(s.requests, project))
              || (Saves(s, e, id) && Enabled(s, e) && e.token in HoldersOfProject(s.copies, project)
                  && id in CopiedOfProject(s.copies, project))
  {
    hide Step, Enabled, Inserts, Job.WellShaped, CopiedOfProject;
    JobOrigin(s, e, id);
    DisabledStays(s, e);
    if Saves(s, e, id) && s.copies[e.token].read.project == project { HeldInProject(s.copies, e.token, project); }
    if InsertsJob(s, e, id) { InsertsDraft(s, e); }
  }

  lemma HeldInProject(copies: map<nat, Copy>, token: nat, project: int)
    requires token in copies && copies[token].read.project == project
    ensures copies[token].id in CopiedOfProject(copies, project)
  {
  }

  lemma TenantCopiedEnters(s: State, e: Event, project: int, id: JobId)
    ensures id in CopiedOfProject(Step(s, e).copies, project) ==>
              || id in CopiedOfProject(s.copies, project) || id in JobsOfProject(s.jobs, project)
              || id in RequestsOfProject(s.requests, project)
  {
    hide Step, CopyComes;
    var t := Step(s, e);
    forall token | token in t.copies && t.copies[token].read.project == project
      ensures
        var i := t.copies[token].id;
        || i in CopiedOfProject(s.copies, project) || i in JobsOfProject(s.jobs, project)
        || i in RequestsOfProject(s.requests, project)
    {
      CopyOrigin(s, e, token);
      OneTenantCopyEnters(s, e, project, token, t.copies[token]);
    }
  }

  lemma OneTenantCopyEnters(s: State, e: Event, project: int, token: nat, c: Copy)
    requires CopyComes(s, e, token, c) && c.read.project == project
    ensures || c.id in CopiedOfProject(s.copies, project) || c.id in JobsOfProject(s.jobs, project)
            || c.id in RequestsOfProject(s.requests, project)
  {
    hide Enabled, Inserts, ReadAllowed, Request.Row;
    if e.EnqueueInsert? && Inserts(s, e) { InsertsDraft(s, e); }
  }

  lemma TenantRequestEnters(s: State, e: Event, project: int, id: JobId)
    requires TenantBarred(s, project)
    ensures id in RequestsOfProject(Step(s, e).requests, project) ==> id in RequestsOfProject(s.requests, project)
  {
    hide Step, Enabled;
    RequestOrigin(s, e, id);
  }

  lemma TenantNearOrigin(s: State, e: Event, project: int, id: JobId)
    requires TenantBarred(s, project)
    ensures id in TenantNear(Step(s, e), project) ==> id in TenantNear(s, project)
  {
    hide Step, Enabled, CopiedOfProject, RequestsOfProject, JobsOfProject, InsertsJob, TenantBarred;
    TenantJobEnters(s, e, project, id);
    TenantCopiedEnters(s, e, project, id);
    TenantRequestEnters(s, e, project, id);
  }

  // ---- the barrier ----

  /** While a tenant is deleting no step adds to what is near its project, or to the project's workers; and
      it stays deleting until its row goes. */
  lemma TenantBarrierStep(s: State, e: Event, project: int)
    requires TenantBarred(s, project)
    ensures TenantNear(Step(s, e), project) <= TenantNear(s, project)
    ensures WorkersOf(Step(s, e), project) <= WorkersOf(s, project)
    ensures project in Step(s, e).tenants ==> TenantBarred(Step(s, e), project)
    ensures project !in Step(s, e).tenants ==> Enabled(s, e) && e == TenantDropRow(project)
  {
    hide Step, Enabled, TenantNear;
    var t := Step(s, e);
    forall id | id in TenantNear(t, project) ensures id in TenantNear(s, project) {
      TenantNearOrigin(s, e, project, id);
    }
    forall w | w in WorkersOf(t, project) ensures w in WorkersOf(s, project) {
      WorkerOrigin(s, e, w);
    }
    TenantRowMoves(s, e, project);
  }

  // ---- how much can still come ----

  ghost predicate InsertsIntoProject(s: State, e: Event, project: int) {
    e.EnqueueInsert? && Inserts(s, e) && e.id in RequestsOfProject(s.requests, project)
  }

  ghost predicate SavesIntoProject(s: State, e: Event, project: int) {
    e.JobSave? && Enabled(s, e) && e.token in HoldersOfProject(s.copies, project)
  }

  ghost predicate SavesOnInProject(s: State, e: Event, project: int) {
    SavesIntoProject(s, e, project) && GoesOn(s, s.copies[e.token])
  }

  ghost predicate ReadsFromProject(s: State, e: Event, project: int) {
    e.JobRead? && Enabled(s, e) && e.token in VisitorsOfProject(s.visits, project)
  }

  /** A step that brings a job into a deleting tenant's project uses up what let it in. */
  lemma TenantLoadStep(s: State, e: Event, project: int)
    requires TenantBarred(s, project)
    ensures TenantLoad(Step(s, e), project) <= TenantLoad(s, project)
    ensures e.TenantDeleteBatch? && e.project == project && e.picked != {} && Enabled(s, e) ==>
              TenantLoad(Step(s, e), project) < TenantLoad(s, project)
  {
    hide Step, Enabled, JobsOfProject, RequestsOfProject, HoldersOfProject, PublishersOfProject, VisitorsOfProject,
         InsertsIntoProject, SavesIntoProject, ReadsFromProject, GoesOn;
    TenantJobsBounded(s, e, project);
    TenantRequestsBounded(s, e, project);
    TenantHoldersBounded(s, e, project);
    TenantPublishersBounded(s, e, project);
    TenantVisitorsBounded(s, e, project);
  }

  lemma TenantJobsBounded(s: State, e: Event, project: int)
    ensures
      var before, after := JobsOfProject(s.jobs, project), JobsOfProject(Step(s, e).jobs, project);
      && |after| <= |before| + One(InsertsIntoProject(s, e, project)) + One(SavesIntoProject(s, e, project))
      && (e.TenantDeleteBatch? && e.project == project && e.picked != {} && Enabled(s, e) ==> |after| < |before|)
  {
    hide Step, Enabled, JobsOfProject, RequestsOfProject, HoldersOfProject, CopiedOfProject, Inserts;
    var before, after := JobsOfProject(s.jobs, project), JobsOfProject(Step(s, e).jobs, project);
    if after <= before {
      SubsetSize(after, before);
    } else {
      var id :| id in after && id !in before;
      forall other | other in after ensures other in before + {id} {
        TenantJobEnters(s, e, project, id);
        TenantJobEnters(s, e, project, other);
      }
      TenantJobEnters(s, e, project, id);
      SubsetSize(after, before + {id});
    }
    if e.TenantDeleteBatch? && e.project == project && e.picked != {} && Enabled(s, e) {
      TenantBatchTakes(s, e);
    }
  }

  lemma TenantRequestsBounded(s: State, e: Event, project: int)
    requires TenantBarred(s, project)
    ensures |RequestsOfProject(Step(s, e).requests, project)| + One(InsertsIntoProject(s, e, project))
            <= |RequestsOfProject(s.requests, project)|
  {
    hide Step, Enabled, TenantBarred;
    var before, after := RequestsOfProject(s.requests, project), RequestsOfProject(Step(s, e).requests, project);
    forall id | id in after ensures id in before {
      TenantRequestEnters(s, e, project, id);
    }
    SubsetSize(after, before);
    if InsertsIntoProject(s, e, project) {
      InsertTouches(s, e);
      assert e.id in before && e.id !in after;
    }
  }

  lemma TenantHoldersBounded(s: State, e: Event, project: int)
    requires TenantBarred(s, project)
    ensures |HoldersOfProject(Step(s, e).copies, project)| + One(SavesIntoProject(s, e, project))
            <= |HoldersOfProject(s.copies, project)| + One(InsertsIntoProject(s, e, project))
               + One(SavesOnInProject(s, e, project)) + One(ReadsFromProject(s, e, project))
  {
    hide Step, Enabled, InsertsIntoProject, SavesIntoProject, SavesOnInProject, ReadsFromProject, HoldersOfProject,
         TokenOf;
    var before, after := HoldersOfProject(s.copies, project), HoldersOfProject(Step(s, e).copies, project);
    forall token | token in after && token !in before
      ensures (InsertsIntoProject(s, e, project) || ReadsFromProject(s, e, project)) && token == TokenOf(e)
    {
      TenantHolderEnters(s, e, project, token);
    }
    if InsertsIntoProject(s, e, project) || ReadsFromProject(s, e, project) {
      NotBothInProject(s, e, project);
      SubsetSize(after, before + {TokenOf(e)});
    } else {
      SubsetSize(after, before);
      if SavesIntoProject(s, e, project) && !SavesOnInProject(s, e, project) {
        TenantSaverLeaves(s, e, project);
        SubsetSize(after, before - {TokenOf(e)});
      }
    }
  }

  lemma NotBothInProject(s: State, e: Event, project: int)
    requires InsertsIntoProject(s, e, project) || ReadsFromProject(s, e, project)
    ensures !SavesIntoProject(s, e, project) && !SavesOnInProject(s, e, project)
  {
    hide Enabled, Inserts;
  }

  lemma TenantSaverLeaves(s: State, e: Event, project: int)
    requires SavesIntoProject(s, e, project) && !SavesOnInProject(s, e, project)
    ensures TokenOf(e) in HoldersOfProject(s.copies, project)
    ensures TokenOf(e) !in HoldersOfProject(Step(s, e).copies, project)
  {
    hide Step, Enabled, GoesOn, JobsSaved, CopiesSaved;
    StepOfSave(s, e);
    CopiesAfterSave(s, e.token);
  }

  lemma TenantHolderEnters(s: State, e: Event, project: int, token: nat)
    requires TenantBarred(s, project)
    requires token in HoldersOfProject(Step(s, e).copies, project) && token !in HoldersOfProject(s.copies, project)
    ensures (InsertsIntoProject(s, e, project) || ReadsFromProject(s, e, project)) && token == TokenOf(e)
  {
    hide Step, CopyComes, InsertsIntoProject, ReadsFromProject, TenantBarred;
    CopyOrigin(s, e, token);
    TenantHolderComes(s, e, project, token, Step(s, e).copies[token]);
  }

  lemma TenantHolderComes(s: State, e: Event, project: int, token: nat, c: Copy)
    requires TenantBarred(s, project)
    requires CopyComes(s, e, token, c) && c.read.project == project && token !in HoldersOfProject(s.copies, project)
    ensures (InsertsIntoProject(s, e, project) || ReadsFromProject(s, e, project)) && token == TokenOf(e)
  {
    hide Enabled, Inserts, Request.Row;
    if e.EnqueueInsert? && Inserts(s, e) { InsertsDraft(s, e); }
  }

  lemma TenantPublishersBounded(s: State, e: Event, project: int)
    requires TenantBarred(s, project)
    ensures |PublishersOfProject(Step(s, e).copies, project)| + One(SavesOnInProject(s, e, project))
            <= |PublishersOfProject(s.copies, project)| + One(ReadsFromProject(s, e, project))
  {
    hide Step, Enabled, SavesOnInProject, ReadsFromProject, PublishersOfProject, TokenOf;
    var before, after := PublishersOfProject(s.copies, project), PublishersOfProject(Step(s, e).copies, project);
    forall token | token in after && token !in before
      ensures ReadsFromProject(s, e, project) && token == TokenOf(e)
    {
      TenantPublisherEnters(s, e, project, token);
    }
    if ReadsFromProject(s, e, project) {
      NotBothInProject(s, e, project);
      SubsetSize(after, before + {TokenOf(e)});
    } else {
      SubsetSize(after, before);
      if SavesOnInProject(s, e, project) {
        TenantPublisherGoesOn(s, e, project);
        SubsetSize(after, before - {TokenOf(e)});
      }
    }
  }

  lemma TenantPublisherEnters(s: State, e: Event, project: int, token: nat)
    requires TenantBarred(s, project)
    requires token in PublishersOfProject(Step(s, e).copies, project)
    requires token !in PublishersOfProject(s.copies, project)
    ensures ReadsFromProject(s, e, project) && token == TokenOf(e)
  {
    hide Step, CopyMove, ReadsFromProject, TenantBarred, Change.Publishes;
    CopyMoves(s, e, token);
    TenantPublisherComes(s, e, project, token, Step(s, e).copies[token]);
  }

  lemma TenantPublisherComes(s: State, e: Event, project: int, token: nat, c: Copy)
    requires TenantBarred(s, project)
    requires CopyMove(s, e, token, c) && c.read.project == project && c.change.Publishes(c.read)
    requires token !in PublishersOfProject(s.copies, project)
    ensures ReadsFromProject(s, e, project) && token == TokenOf(e)
  {
    hide Enabled, Inserts, Request.Row, GoesOn, GoesAhead, Change.Of;
    if ReadsCopy(s, e, token, c) { ReadIsAllowed(s, e); }
  }

  lemma TenantPublisherGoesOn(s: State, e: Event, project: int)
    requires SavesOnInProject(s, e, project)
    ensures TokenOf(e) in PublishersOfProject(s.copies, project)
    ensures TokenOf(e) !in PublishersOfProject(Step(s, e).copies, project)
  {
    hide Step, Enabled, Storable, JobsSaved, CopiesSaved, Change.Of;
    StepOfSave(s, e);
    CopiesAfterSave(s, e.token);
  }

  lemma TenantVisitorsBounded(s: State, e: Event, project: int)
    requires TenantBarred(s, project)
    ensures |VisitorsOfProject(Step(s, e).visits, project)| + One(ReadsFromProject(s, e, project))
            <= |VisitorsOfProject(s.visits, project)|
  {
    hide Step, Enabled;
    var before, after := VisitorsOfProject(s.visits, project), VisitorsOfProject(Step(s, e).visits, project);
    forall token | token in after ensures token in before {
      VisitOrigin(s, e, token);
    }
    SubsetSize(after, before);
    if ReadsFromProject(s, e, project) {
      VisitsAfterRead(s, e);
      assert e.token in before && e.token !in after;
    }
  }

  lemma TenantBatchTakes(s: State, e: Event)
    requires e.TenantDeleteBatch? && e.picked != {} && Enabled(s, e)
    ensures |JobsOfProject(Step(s, e).jobs, e.project)| < |JobsOfProject(s.jobs, e.project)|
  {
    hide Step, Enabled;
    var before, after := JobsOfProject(s.jobs, e.project), JobsOfProject(Step(s, e).jobs, e.project);
    StepOfTenantDeleteBatch(s, e);
    var id :| id in e.picked;
    assert id in before && id !in after;
    SubsetSize(after, before);
  }

  lemma TenantRowMoves(s: State, e: Event, project: int)
    requires project in s.tenants
    ensures
      var t := Step(s, e);
      && (project !in t.tenants ==> Enabled(s, e) && e == TenantDropRow(project))
      && (project in t.tenants ==> t.tenants[project] == s.tenants[project] || t.tenants[project].Deleting?)
  {
    hide Step, Enabled;
    if RowEvent(e) || RequestEvent(e) {
      OthersKeepCascades(s, e);
    } else if QueueCascadeEvent(e) {
      QueueCascadesKeepTenants(s, e);
    } else if e.RequestDeleteTenant? || e.ResumeTenant? {
      StepOfTenantRequest(s, e);
    } else if e.TenantMark? {
      StepOfTenantMark(s, e);
    } else if e.TenantDeleteBatch? {
      StepOfTenantDeleteBatch(s, e);
    } else {
      StepOfTenantDrop(s, e);
    }
  }

  lemma QueueCascadesKeepTenants(s: State, e: Event)
    requires QueueCascadeEvent(e)
    ensures Step(s, e).tenants == s.tenants
  {
    hide Step, Enabled;
    if e.RequestDelete? {
      StepOfRequestDelete(s, e);
    } else if e.ForceCancel? {
      StepOfForceCancel(s, e);
    } else if e.DeleteBatch? {
      StepOfDeleteBatch(s, e);
    } else {
      StepOfCascade(s, e);
    }
  }

  /** The tenant's row is not removed in the run. */
  ghost predicate TenantStays(s: State, es: seq<Event>, project: int) {
    es != [] ==>
      && TenantStays(s, es[..|es| - 1], project)
      && !(es[|es| - 1] == TenantDropRow(project) && Enabled(Run(s, es[..|es| - 1]), es[|es| - 1]))
  }

  lemma {:induction false} TenantBarrierOverRun(s: State, es: seq<Event>, project: int)
    requires TenantBarred(s, project) && TenantStays(s, es, project)
    ensures TenantBarred(Run(s, es), project)
    ensures TenantNear(Run(s, es), project) <= TenantNear(s, project)
    ensures WorkersOf(Run(s, es), project) <= WorkersOf(s, project)
    decreases |es|
  {
    hide Step, Enabled, TenantNear, WorkersOf;
    if es != [] {
      TenantBarrierOverRun(s, es[..|es| - 1], project);
      TenantBarrierStep(Run(s, es[..|es| - 1]), es[|es| - 1], project);
    }
  }

  /** If no enqueue of the project was under way at the tenant cascade's last batch, and no copy, then when the
      tenant's row goes, whatever has happened in between, no job of the project is left and none is
      still to come; and no queue row removed in between strands anything. */
  lemma TenantDropLeavesNothing(s: State, limit: int, es: seq<Event>, project: int)
    requires Orderly(s) && Enabled(s, TenantDeleteBatch(project, limit, {}))
    requires TenantExpected(s, project) == {}
    requires
      var t := Step(s, TenantDeleteBatch(project, limit, {}));
      TenantStays(t, es, project) && Enabled(Run(t, es), TenantDropRow(project))
    ensures
      var last := Run(Step(s, TenantDeleteBatch(project, limit, {})), es);
      var u := Step(last, TenantDropRow(project));
      && project !in u.tenants && TenantNear(u, project) == {}
      && forall key: QueueKey :: key.project == project ==> Live(last, key) == {}
  {
    hide Step, Enabled, Run, TenantStays, IdsSound, CopiesSound, NamesSound, QueueCascadesSound, EditsSound;
    var e := TenantDeleteBatch(project, limit, {});
    StepOfTenantDeleteBatch(s, e);
    var t := Step(s, e);
    assert TenantNear(t, project) == {};
    TenantBarrierOverRun(t, es, project);
    var last := Run(t, es);
    StepOfTenantDrop(last, TenantDropRow(project));
    forall key: QueueKey | key.project == project ensures Live(last, key) == {} {
      QueueWithinProject(last, key);
    }
  }

  lemma QueueWithinProject(s: State, key: QueueKey)
    ensures Live(s, key) <= TenantNear(s, key.project)
  {
  }
}
