/** How a step moves the tables, and what every step keeps. */
module CascadeSafety {
  import opened Wrappers
  import opened JobModel
  import opened QueueState
  import opened QueueSteps
  import opened StepEquations
  import opened JobHistory

  // ---- how a step moves the tables ----

  /** A job that is there after a step was there before, in the same queue; or has just been inserted by
      its draft; or has been saved by a handler that had read it. */
  lemma JobOrigin(s: State, e: Event, id: JobId)
    ensures
      var t := Step(s, e);
      id in t.jobs ==>
        || (id in s.jobs && t.jobs[id].SameIdentity(s.jobs[id]))
        || (InsertsJob(s, e, id) && t.jobs[id].SameIdentity(s.requests[id].Row()))
        || (id !in s.jobs && Saves(s, e, id) && t.jobs[id].SameIdentity(s.copies[e.token].read))
  {
    hide Step, Enabled, FateOf, Job.WellShaped, Request.Row;
    StepRow(s, e, id);
    CreatedByInsert(s, e, id);
    OverwrittenBySave(s, e, id);
  }

  /** The step inserts the draft `id`. */
  ghost predicate InsertsJob(s: State, e: Event, id: JobId) {
    e.EnqueueInsert? && e.id == id && Inserts(s, e)
  }

  /** The step saves the handler's copy of the job. */
  ghost predicate Saves(s: State, e: Event, id: JobId) {
    e.JobSave? && e.token in s.copies && s.copies[e.token].id == id
  }

  lemma OverwrittenBySave(s: State, e: Event, id: JobId)
    ensures FateOf(s, e, id).Overwritten? ==>
              Saves(s, e, id) && FateOf(s, e, id).row.SameIdentity(s.copies[e.token].read)
  {
    hide FateOf, Enabled;
    OnlySavesOverwrite(s, e, id);
    if FateOf(s, e, id).Overwritten? {
      FateOfSaveEvent(s, e);
      ChangeKeepsIdentity(s.copies[e.token], s.now);
    }
  }

  lemma ChangeKeepsIdentity(c: Copy, now: int)
    ensures c.change.Of(c.read, now).SameIdentity(c.read)
  {
  }

  /** A copy that is there after a step was there before, of the same job; or it has just been read by a
      handler past the guard, or by the scheduler; or its job has just been inserted. */
  lemma CopyOrigin(s: State, e: Event, token: nat)
    ensures token in Step(s, e).copies ==> CopyComes(s, e, token, Step(s, e).copies[token])
  {
    hide Step, Enabled, CopyMove, CopyComes;
    if token in Step(s, e).copies {
      CopyMoves(s, e, token);
      MoveComes(s, e, token, Step(s, e).copies[token]);
    }
  }

  ghost predicate CopyComes(s: State, e: Event, token: nat, c: Copy) {
    || (token in s.copies && c.id == s.copies[token].id && c.read.SameIdentity(s.copies[token].read))
    || (&& e.JobRead? && Enabled(s, e) && e.token == token && Found(s, e.key, e.id) && ReadAllowed(s, e)
        && c.id == e.id && c.read == s.jobs[e.id])
    || (&& e.EnqueueInsert? && e.token == token && Inserts(s, e)
        && c.id == e.id && c.read == s.requests[e.id].Row())
  }

  lemma MoveComes(s: State, e: Event, token: nat, c: Copy)
    requires CopyMove(s, e, token, c)
    ensures CopyComes(s, e, token, c)
  {
    hide Enabled, Inserts, GoesAhead, GoesOn, Request.Row, Change.Of;
    if ReadsCopy(s, e, token, c) {
      ReadIsAllowed(s, e);
    } else if KeepsCopy(s, e, token, c) {
      ChangeKeepsIdentity(s.copies[token], s.now);
    }
  }

  /** The handler has passed the guard of the queue, or the queue and its tenant are active. */
  ghost predicate ReadAllowed(s: State, e: Event)
    requires e.JobRead?
  {
    if e.change.Promoting? then
      && e.key in s.queues && s.queues[e.key].status.Active?
      && e.key.project in s.tenants && s.tenants[e.key.project].Active?
    else e.token in s.visits && s.visits[e.token] == e.key
  }

  lemma ReadIsAllowed(s: State, e: Event)
    requires e.JobRead? && Enabled(s, e) && GoesAhead(s, e.key, e.id, e.change)
    ensures Found(s, e.key, e.id) && ReadAllowed(s, e)
  {
    hide Enabled, GoesAhead;
    GoesAheadFits(s, e.key, e.id, e.change);
    StepOfRead(s, e);
  }

  /** A handler on its way to a job was there before, or the guard has just let it through. */
  lemma VisitOrigin(s: State, e: Event, token: nat)
    ensures
      var t := Step(s, e);
      token in t.visits ==>
        || (token in s.visits && t.visits[token] == s.visits[token])
        || (e.JobVisit? && e.token == token && t.visits[token] == e.key && QueueWritable(s, e.key).Ok?)
  {
    hide Step, Enabled, QueueWritable;
    if e.JobVisit? {
      StepOfVisit(s, e);
    } else if JobEvent(e) {
      VisitsDwindle(s, e);
    } else {
      OthersKeepVisits(s, e);
    }
  }

  lemma VisitsDwindle(s: State, e: Event)
    requires e.JobRead? || e.JobSave? || e.JobAbandon?
    ensures forall t :: t in Step(s, e).visits ==> t in s.visits && Step(s, e).visits[t] == s.visits[t]
  {
    hide *;
    if e.JobRead? {
      VisitsAfterRead(s, e);
    } else if e.JobSave? {
      StepOfSave(s, e);
    } else {
      VisitsAfterAbandon(s, e);
    }
  }

  lemma VisitsAfterRead(s: State, e: Event)
    requires e.JobRead?
    ensures forall t :: t in Step(s, e).visits ==> t in s.visits && Step(s, e).visits[t] == s.visits[t]
    ensures Enabled(s, e) ==> e.token !in Step(s, e).visits
  {
    hide Step, Enabled;
    VisitUsedUp(s, e);
  }

  lemma VisitUsedUp(s: State, e: Event)
    requires e.JobRead?
    ensures Step(s, e).visits == if Enabled(s, e) then Without(s.visits, {e.token}) else s.visits
  {
    hide *;
    StepOfRead(s, e);
  }

  lemma VisitsAfterAbandon(s: State, e: Event)
    requires e.JobAbandon?
    ensures forall t :: t in Step(s, e).visits ==> t in s.visits && Step(s, e).visits[t] == s.visits[t]
  {
    hide Step;
    StepOfJobAbandon(s, e);
  }

  lemma OthersKeepVisits(s: State, e: Event)
    requires !JobEvent(e)
    ensures Step(s, e).visits == s.visits
  {
    hide Step;
    if RowEvent(e) {
      RowEventFrame(s, e);
    } else if EnqueueEvent(e) {
      EnqueueFrame(s, e);
    } else if RequestEvent(e) {
      EntryFrame(s, e);
    } else {
      CascadeFrame(s, e);
    }
  }

  lemma CreatedByInsert(s: State, e: Event, id: JobId)
    ensures FateOf(s, e, id).Created? ==> InsertsJob(s, e, id) && FateOf(s, e, id).row == s.requests[id].Row()
  {
    if e.EnqueueInsert? {
      FateOfInsert(s, e, id);
    } else {
      OnlyInsertsCreate(s, e, id);
    }
    hide FateOf;
  }

  lemma OnlyInsertsCreate(s: State, e: Event, id: JobId)
    requires !e.EnqueueInsert?
    ensures !FateOf(s, e, id).Created?
  {
    hide Enabled, SettleOutcome, CancelOutcome, RetryOutcome, NackDelay, LeasesOf, ActiveJobsOf;
  }

  /** A request that is there after a step was there before; or the guard has just let it through; or it
      has just found its queue, not deleting, or found none; or it has just created it, or found it created
      by someone else. */
  lemma RequestOrigin(s: State, e: Event, id: JobId)
    ensures id in Step(s, e).requests ==> RequestComes(s, e, id, Step(s, e).requests[id], Step(s, e).queues)
  {
    hide Step, Enabled, RequestComes;
    if id !in Step(s, e).requests {
    } else if e.EnqueueAdmit? || e.EnqueueAbandon? {
      AdmitComes(s, e, id);
    } else if e.EnqueueDraft? {
      DraftComes(s, e, id);
    } else if e.EnqueueCreate? {
      CreateComes(s, e, id);
    } else if e.EnqueueInsert? {
      InsertTouches(s, e);
      RequestStayed(s, e, id, Step(s, e).queues);
    } else {
      OthersKeepRequests(s, e);
      RequestStayed(s, e, id, Step(s, e).queues);
    }
  }

  ghost predicate RequestComes(s: State, e: Event, id: JobId, r: Request, queues: map<QueueKey, Queue>) {
    || (id in s.requests && r == s.requests[id])
    || (e.EnqueueAdmit? && e.id == id && r.Admitted? && QueueWritable(s, r.key).Ok?)
    || (&& e == EnqueueDraft(id) && id in s.requests && s.requests[id].Admitted? && r.key == s.requests[id].key
        && queues == s.queues
        && if r.Drafted? then r.key in s.queues && !s.queues[r.key].status.Deleting?
           else r.Creating? && r.key !in s.queues)
    || (&& e == EnqueueCreate(id) && id in s.requests && s.requests[id].Creating? && r.key == s.requests[id].key
        && r.Drafted? && r.key in queues)
  }

  lemma RequestStayed(s: State, e: Event, id: JobId, queues: map<QueueKey, Queue>)
    ensures id in s.requests ==> RequestComes(s, e, id, s.requests[id], queues)
  {
  }

  lemma AdmitComes(s: State, e: Event, id: JobId)
    requires (e.EnqueueAdmit? || e.EnqueueAbandon?) && id in Step(s, e).requests
    ensures RequestComes(s, e, id, Step(s, e).requests[id], Step(s, e).queues)
  {
    hide Step, Enabled, QueueWritable;
    if e.EnqueueAdmit? { StepOfAdmit(s, e); } else { StepOfAbandon(s, e); }
  }

  lemma DraftComes(s: State, e: Event, id: JobId)
    requires e.EnqueueDraft? && id in Step(s, e).requests
    ensures RequestComes(s, e, id, Step(s, e).requests[id], Step(s, e).queues)
  {
    hide Step, Enabled, RequestsFound, QueueWritable;
    StepOfDraft(s, e);
    if Enabled(s, e) { DraftFinds(s, e.id); }
  }

  lemma CreateComes(s: State, e: Event, id: JobId)
    requires e.EnqueueCreate? && id in Step(s, e).requests
    ensures RequestComes(s, e, id, Step(s, e).requests[id], Step(s, e).queues)
  {
    hide Step, Enabled, RequestsCreated, QueueCreated, SerialCreated, QueueWritable;
    StepOfCreate(s, e);
    if Enabled(s, e) { CreateFinds(s, e.id); }
  }

  lemma DraftFinds(s: State, id: JobId)
    requires id in s.requests && s.requests[id].Admitted?
    ensures
      var r, after := s.requests[id], RequestsFound(s, id);
      && (forall i :: i in after && i != id ==> i in s.requests && after[i] == s.requests[i])
      && (id in after ==>
            && after[id].key == r.key
            && if after[id].Drafted? then r.key in s.queues && !s.queues[r.key].status.Deleting?
               else after[id].Creating? && r.key !in s.queues)
  {
    hide ByIdempotencyKey, ValidCreate, ValidQueue, EffectiveSchedule;
  }

  lemma CreateFinds(s: State, id: JobId)
    requires id in s.requests && s.requests[id].Creating?
    ensures
      var r, after := s.requests[id], RequestsCreated(s, id);
      && (forall i :: i in after && i != id ==> i in s.requests && after[i] == s.requests[i])
      && (id in after ==> after[id].Drafted? && after[id].key == r.key && r.key in QueueCreated(s, r.key, 0, 0))
  {
    hide ByIdempotencyKey, ValidCreate, ValidQueue, EffectiveSchedule, QueueCreated;
  }

  lemma OthersKeepRequests(s: State, e: Event)
    requires !EnqueueEvent(e)
    ensures Step(s, e).requests == s.requests
  {
    hide Step;
    if RowEvent(e) {
      RowEventFrame(s, e);
    } else if RequestEvent(e) {
      EntryFrame(s, e);
    } else {
      CascadeFrame(s, e);
    }
  }

  /** The step removes the queue's row. */
  ghost predicate Removes(s: State, e: Event, key: QueueKey) {
    Enabled(s, e) && (e == DropRow(key) || e == TenantDropQueue(key.project, key.name))
  }

  /** The update `token` has read this very row and still has to save it. */
  ghost predicate EditOf(s: State, token: nat, key: QueueKey) {
    && token in s.edits && s.edits[token].key == key
    && key in s.queues && s.queues[key].serial == s.edits[token].row.serial
  }

  /** What a step can do to the queue's row: nothing, mark it deleting, save an update's copy over it,
      remove it, insert it. */
  lemma RowMoves(s: State, e: Event, key: QueueKey)
    ensures RowMove(s, e, Step(s, e), key)
  {
    hide Step, Enabled, RowMove;
    if RowEvent(e) {
      RowEventFrame(s, e);
      RowUnmoved(s, e, Step(s, e), key);
    } else if RequestEvent(e) {
      RequestRowMoves(s, e, key);
    } else {
      CascadeRowMoves(s, e, key);
    }
  }

  ghost predicate RowMove(s: State, e: Event, t: State, key: QueueKey) {
    && (key in s.queues && key !in t.queues ==> Removes(s, e, key))
    && (Removes(s, e, key) ==> key !in t.queues)
    && (key in s.queues && key in t.queues ==>
          || t.queues[key] == s.queues[key]
          || (t.queues[key] == s.queues[key].(status := Deleting)
              && ((e.RequestDelete? && e.key == key) || (e.TenantMark? && e.project == key.project)))
          || (e.UpdateSave? && EditOf(s, e.token, key) && t.queues[key] == s.edits[e.token].row))
    && (e.UpdateSave? && EditOf(s, e.token, key) ==> key in t.queues && t.queues[key] == s.edits[e.token].row)
  }

  lemma RowUnmoved(s: State, e: Event, t: State, key: QueueKey)
    requires t.queues == s.queues && !e.UpdateSave? && !e.DropRow? && !e.TenantDropQueue?
    ensures RowMove(s, e, t, key)
  {
    hide Enabled;
  }

  lemma RequestRowMoves(s: State, e: Event, key: QueueKey)
    requires RequestEvent(e)
    ensures RowMove(s, e, Step(s, e), key)
  {
    hide Step, Enabled, RowMove;
    if e.EnqueueCreate? || e.EnsureQueue? {
      CreateRowMoves(s, e, key);
    } else if UpdateEvent(e) {
      UpdateRowMoves(s, e, key);
    } else if EnqueueEvent(e) {
      EnqueueFrame(s, e);
      RowUnmoved(s, e, Step(s, e), key);
    } else {
      EntryFrame(s, e);
      RowUnmoved(s, e, Step(s, e), key);
    }
  }

  lemma CreateRowMoves(s: State, e: Event, key: QueueKey)
    requires e.EnqueueCreate? || e.EnsureQueue?
    ensures RowMove(s, e, Step(s, e), key)
  {
    hide Step, Enabled, RequestsCreated, ValidQueue, NewQueue;
    if e.EnqueueCreate? { StepOfCreate(s, e); } else { StepOfEnsure(s, e); }
  }

  lemma UpdateRowMoves(s: State, e: Event, key: QueueKey)
    requires UpdateEvent(e)
    ensures RowMove(s, e, Step(s, e), key)
  {
    hide Step, Enabled, Edited;
    StepOfUpdate(s, e);
  }

  lemma CascadeRowMoves(s: State, e: Event, key: QueueKey)
    requires QueueCascadeEvent(e) || TenantCascadeEvent(e)
    ensures RowMove(s, e, Step(s, e), key)
  {
    hide Step, Enabled, RowMove;
    if e.RequestDelete? || e.TenantMark? {
      MarkRowMoves(s, e, key);
    } else if e.DropRow? || e.TenantDropQueue? {
      DropRowMoves(s, e, key);
    } else {
      OthersKeepQueues(s, e);
      RowUnmoved(s, e, Step(s, e), key);
    }
  }

  lemma MarkRowMoves(s: State, e: Event, key: QueueKey)
    requires e.RequestDelete? || e.TenantMark?
    ensures RowMove(s, e, Step(s, e), key)
  {
    hide Step, Enabled;
    if e.RequestDelete? { StepOfRequestDelete(s, e); } else { StepOfTenantMark(s, e); }
  }

  lemma DropRowMoves(s: State, e: Event, key: QueueKey)
    requires e.DropRow? || e.TenantDropQueue?
    ensures RowMove(s, e, Step(s, e), key)
  {
    hide Step, Enabled;
    if e.DropRow? { StepOfCascade(s, e); } else { StepOfTenantDrop(s, e); }
  }

  lemma OthersKeepQueues(s: State, e: Event)
    requires QueueCascadeEvent(e) || TenantCascadeEvent(e)
    requires !e.RequestDelete? && !e.DropRow? && !e.TenantMark? && !e.TenantDropQueue?
    ensures Step(s, e).queues == s.queues
  {
    hide Step, Enabled;
    if e.ForceCancel? {
      StepOfForceCancel(s, e);
    } else if e.DeleteBatch? {
      StepOfDeleteBatch(s, e);
    } else if QueueCascadeEvent(e) {
      StepOfCascade(s, e);
    } else if e.RequestDeleteTenant? || e.ResumeTenant? {
      StepOfTenantRequest(s, e);
    } else if e.TenantDeleteBatch? {
      StepOfTenantDeleteBatch(s, e);
    } else {
      StepOfTenantDrop(s, e);
    }
  }

  // ---- what every step keeps ----

  /** Jobs and copies of them have ids already issued, enqueues under way have not. */
  ghost predicate IdsSound(s: State) {
    && (forall id :: id in s.jobs ==> id in s.issued)
    && (forall token :: token in s.copies ==> s.copies[token].id in s.issued)
    && (forall id :: id in s.requests ==> id !in s.issued)
  }

  /** A job and all copies of it, whether or not its row is still there, are the same job. */
  ghost predicate CopiesSound(s: State) {
    && (forall a :: a in s.copies && s.copies[a].id in s.jobs ==>
          s.copies[a].read.SameIdentity(s.jobs[s.copies[a].id]))
    && (forall a, b :: a in s.copies && b in s.copies && s.copies[a].id == s.copies[b].id ==>
          s.copies[a].read.SameIdentity(s.copies[b].read))
  }

  /** No queue has an empty name, which the guard would let through. */
  ghost predicate NamesSound(s: State) {
    && (forall k :: k in s.queues ==> k.name != "")
    && (forall token :: token in s.edits ==> s.edits[token].key.name != "")
  }

  /** A queue with a cascade in flight has its row, and no tenant cascade deletes it too. */
  ghost predicate QueueCascadesSound(s: State) {
    forall k :: k in s.cascades ==> k in s.queues && !TenantOwns(s, k)
  }

  /** A tenant with a cascade in flight is deleting. */
  ghost predicate TenantCascadesSound(s: State) {
    forall t :: t in s.tenantCascades ==> t > 0 && t in s.tenants && s.tenants[t].Deleting?
  }

  /** Config updates only ever read rows of queues that are not deleting. */
  ghost predicate EditsSound(s: State) {
    forall t :: t in s.edits ==> s.edits[t].row.status.IsActive()
  }

  ghost predicate Orderly(s: State) {
    && IdsSound(s) && CopiesSound(s) && NamesSound(s)
    && QueueCascadesSound(s) && TenantCascadesSound(s) && EditsSound(s)
  }

  lemma IdsStep(s: State, e: Event)
    requires IdsSound(s)
    ensures IdsSound(Step(s, e))
  {
    hide Step, Enabled, FateOf;
    var t := Step(s, e);
    forall id | id in t.jobs ensures id in t.issued {
      StepRow(s, e, id);
    }
    forall token | token in t.copies ensures t.copies[token].id in t.issued {
      CopyOrigin(s, e, token);
      StepRow(s, e, t.copies[token].id);
      if e.EnqueueInsert? { FateOfInsert(s, e, e.id); }
    }
    forall id | id in t.requests ensures id !in t.issued {
      RequestNotIssued(s, e, id);
    }
  }

  lemma CopiesStep(s: State, e: Event)
    requires IdsSound(s) && CopiesSound(s)
    ensures CopiesSound(Step(s, e))
  {
    hide Step, Enabled;
    var t := Step(s, e);
    forall a | a in t.copies && t.copies[a].id in t.jobs
      ensures t.copies[a].read.SameIdentity(t.jobs[t.copies[a].id])
    {
      CopyMatchesRow(s, e, a);
    }
    forall a, b | a in t.copies && b in t.copies && t.copies[a].id == t.copies[b].id
      ensures t.copies[a].read.SameIdentity(t.copies[b].read)
    {
      CopiesMatch(s, e, a, b);
    }
  }

  lemma CopiesMatch(s: State, e: Event, a: nat, b: nat)
    requires IdsSound(s) && CopiesSound(s)
    requires a in Step(s, e).copies && b in Step(s, e).copies && Step(s, e).copies[a].id == Step(s, e).copies[b].id
    ensures Step(s, e).copies[a].read.SameIdentity(Step(s, e).copies[b].read)
  {
    hide Step, Enabled, Request.Row, ByIdempotencyKey, ReadAllowed;
    CopyOrigin(s, e, a);
    CopyOrigin(s, e, b);
  }

  lemma CopyMatchesRow(s: State, e: Event, a: nat)
    requires IdsSound(s) && CopiesSound(s)
    requires a in Step(s, e).copies && Step(s, e).copies[a].id in Step(s, e).jobs
    ensures Step(s, e).copies[a].read.SameIdentity(Step(s, e).jobs[Step(s, e).copies[a].id])
  {
    hide Step, CopyComes, IdsSound, CopiesSound, InsertsJob, Request.Row, Saves;
    CopyOrigin(s, e, a);
    JobOrigin(s, e, Step(s, e).copies[a].id);
    SameJob(s, e, a, Step(s, e).copies[a], Step(s, e).jobs[Step(s, e).copies[a].id]);
  }

  lemma SameJob(s: State, e: Event, a: nat, c: Copy, j: Job)
    requires IdsSound(s) && CopiesSound(s) && CopyComes(s, e, a, c)
    requires || (c.id in s.jobs && j.SameIdentity(s.jobs[c.id]))
             || (InsertsJob(s, e, c.id) && j.SameIdentity(s.requests[c.id].Row()))
             || (c.id !in s.jobs && Saves(s, e, c.id) && j.SameIdentity(s.copies[e.token].read))
    ensures c.read.SameIdentity(j)
  {
    hide Enabled, Request.Row, ByIdempotencyKey, ReadAllowed;
  }

  /** So no save is ever held up, except that a handler waits for a job to be claimable to publish it. */
  lemma SavesGoThrough(s: State, token: nat)
    requires Orderly(s) && token in s.copies && Saveable(s, s.copies[token])
    ensures Enabled(s, JobSave(token))
  {
    hide NamesSound, QueueCascadesSound, TenantCascadesSound, EditsSound;
  }

  lemma NamesStep(s: State, e: Event)
    requires NamesSound(s)
    ensures NamesSound(Step(s, e))
  {
    hide Step, Enabled, RequestsCreated, ValidQueue, QueueCreated;
    if e.EnqueueCreate? {
      StepOfCreate(s, e);
      if Enabled(s, e) { CreatedNames(s, s.requests[e.id].key, 0, 0); }
    } else if EnqueueEvent(e) {
      EnqueueFrame(s, e);
    } else if UpdateEvent(e) {
      StepOfUpdate(s, e);
    } else if e.EnsureQueue? {
      StepOfEnsure(s, e);
      CreatedNames(s, e.key, e.visibility, e.maxAttempts);
    } else if RequestEvent(e) {
      EntryFrame(s, e);
    } else {
      OthersKeepEdits(s, e);
      OthersAddNoQueue(s, e);
    }
  }

  lemma CreatedNames(s: State, key: QueueKey, visibility: int, maxAttempts: int)
    requires NamesSound(s)
    ensures forall k :: k in QueueCreated(s, key, visibility, maxAttempts) ==> k.name != ""
  {
    assert ValidQueue(key) ==> key.name != "";
  }

  lemma OthersAddNoQueue(s: State, e: Event)
    requires !RequestEvent(e)
    ensures Step(s, e).queues.Keys <= s.queues.Keys
  {
    hide Step, Enabled;
    if RowEvent(e) {
      RowEventFrame(s, e);
    } else if e.RequestDelete? {
      StepOfRequestDelete(s, e);
    } else if e.DropRow? {
      StepOfCascade(s, e);
    } else if e.TenantMark? {
      StepOfTenantMark(s, e);
    } else if e.TenantDropQueue? {
      StepOfTenantDrop(s, e);
    } else {
      OthersKeepQueues(s, e);
    }
  }

  lemma RequestNotIssued(s: State, e: Event, id: JobId)
    requires IdsSound(s) && id in Step(s, e).requests
    ensures id !in Step(s, e).issued
  {
    hide Step, Enabled, FateOf;
    IssuedOnlyByInsert(s, e, id);
    if EnqueueEvent(e) {
      EnqueueNotIssued(s, e, id);
    } else {
      OthersKeepRequests(s, e);
    }
  }

  lemma EnqueueNotIssued(s: State, e: Event, id: JobId)
    requires IdsSound(s) && EnqueueEvent(e) && id in Step(s, e).requests
    ensures id !in Step(s, e).issued
  {
    hide *;
    if e.EnqueueAdmit? {
      AdmitNotIssued(s, e, id);
    } else if e.EnqueueInsert? {
      InsertNotIssued(s, e, id);
    } else {
      BuildNotIssued(s, e, id);
    }
  }

  lemma AdmitNotIssued(s: State, e: Event, id: JobId)
    requires IdsSound(s) && e.EnqueueAdmit? && id in Step(s, e).requests
    ensures id !in Step(s, e).issued
  {
    hide Step, Enabled, QueueWritable, IdsSound;
    NotIssued(s, id);
    StepOfAdmit(s, e);
  }

  lemma InsertNotIssued(s: State, e: Event, id: JobId)
    requires IdsSound(s) && e.EnqueueInsert? && id in Step(s, e).requests
    ensures id !in Step(s, e).issued
  {
    hide Step, Enabled, IdsSound;
    NotIssued(s, id);
    InsertTouches(s, e);
  }

  lemma BuildNotIssued(s: State, e: Event, id: JobId)
    requires IdsSound(s) && EnqueueEvent(e) && !e.EnqueueAdmit? && !e.EnqueueInsert? && id in Step(s, e).requests
    ensures id !in Step(s, e).issued
  {
    hide Step, Enabled, QueueWritable, IdsSound;
    NotIssued(s, id);
    EnqueueFrame(s, e);
    RequestOrigin(s, e, id);
  }

  lemma InsertTouches(s: State, e: Event)
    requires e.EnqueueInsert?
    ensures !Enabled(s, e) ==> Step(s, e) == s
    ensures Enabled(s, e) ==> Step(s, e).requests == Without(s.requests, {e.id})
    ensures Enabled(s, e) ==> Step(s, e).issued <= s.issued + {e.id}
  {
    hide *;
    StepOfInsert(s, e);
  }

  lemma NotIssued(s: State, id: JobId)
    requires IdsSound(s)
    ensures id in s.requests ==> id !in s.issued
  {
  }

  lemma IssuedOnlyByInsert(s: State, e: Event, id: JobId)
    ensures id in Step(s, e).issued ==> id in s.issued || InsertsJob(s, e, id)
  {
    hide Step, Enabled, FateOf;
    StepRow(s, e, id);
    CreatedByInsert(s, e, id);
  }

  lemma OthersKeepCascades(s: State, e: Event)
    requires RowEvent(e) || RequestEvent(e)
    ensures Step(s, e).cascades == s.cascades && Step(s, e).tenantCascades == s.tenantCascades
    ensures forall p :: p in s.tenants ==> p in Step(s, e).tenants && Step(s, e).tenants[p] == s.tenants[p]
  {
    hide Step;
    if RowEvent(e) {
      RowEventFrame(s, e);
    } else if EnqueueEvent(e) {
      EnqueueFrame(s, e);
    } else {
      EntryFrame(s, e);
    }
  }

  lemma QueueCascadesStep(s: State, e: Event)
    requires QueueCascadesSound(s)
    ensures QueueCascadesSound(Step(s, e))
  {
    hide Step, Enabled, Removes;
    var t := Step(s, e);
    forall k | k in t.cascades ensures k in t.queues && !TenantOwns(t, k) {
      RowMoves(s, e, k);
      CascadeKept(s, e, k);
      if Removes(s, e, k) { RemovedHasNoCascade(s, e, k); }
    }
  }

  /** A cascade in flight was so before, or has just been started on an existing row; either way no
      tenant cascade owns the queue. */
  lemma CascadeKept(s: State, e: Event, k: QueueKey)
    requires QueueCascadesSound(s) && k in Step(s, e).cascades
    ensures k in s.queues && !TenantOwns(Step(s, e), k)
  {
    hide Step, Enabled;
    if RowEvent(e) || RequestEvent(e) {
      OthersKeepCascades(s, e);
    } else if e.RequestDelete? {
      StepOfRequestDelete(s, e);
    } else if e.ForceCancel? {
      StepOfForceCancel(s, e);
      CascadeEventNeedsOne(s, e);
    } else if e.DeleteBatch? {
      StepOfDeleteBatch(s, e);
      CascadeEventNeedsOne(s, e);
    } else if QueueCascadeEvent(e) {
      StepOfCascade(s, e);
    } else {
      TenantEventKeeps(s, e, k);
    }
  }

  lemma CascadeEventNeedsOne(s: State, e: Event)
    requires e.ForceCancel? || e.DeleteBatch?
    ensures Enabled(s, e) ==>
              e.key in s.cascades && s.cascades[e.key] == if e.ForceCancel? then ForceCancelling else DeletingJobs
  {
    hide JobsOf;
  }

  lemma TenantEventKeeps(s: State, e: Event, k: QueueKey)
    requires QueueCascadesSound(s) && TenantCascadeEvent(e) && k in Step(s, e).cascades
    ensures k in s.queues && !TenantOwns(Step(s, e), k)
  {
    hide Step, Enabled, TenantOwns;
    TenantCascadeFrame(s, e);
    OwnershipMoves(s, e, k);
  }

  /** A tenant cascade comes to own a queue only by listing it, when none of the project's queues has a
      cascade of its own. */
  lemma OwnershipMoves(s: State, e: Event, k: QueueKey)
    requires TenantCascadeEvent(e)
    ensures TenantOwns(Step(s, e), k) ==> TenantOwns(s, k) || k !in s.cascades
  {
    hide Step, Enabled;
    if e.RequestDeleteTenant? || e.ResumeTenant? {
      StepOfTenantRequest(s, e);
    } else if e.TenantMark? {
      StepOfTenantMark(s, e);
    } else if e.TenantDeleteBatch? {
      StepOfTenantDeleteBatch(s, e);
    } else {
      StepOfTenantDrop(s, e);
    }
  }

  lemma RemovedHasNoCascade(s: State, e: Event, k: QueueKey)
    requires QueueCascadesSound(s) && Removes(s, e, k)
    ensures k !in Step(s, e).cascades
  {
    hide Step, Enabled;
    if e.DropRow? { StepOfCascade(s, e); } else { StepOfTenantDrop(s, e); }
  }

  lemma TenantCascadesStep(s: State, e: Event)
    requires TenantCascadesSound(s)
    ensures TenantCascadesSound(Step(s, e))
  {
    hide Step, Enabled;
    if RowEvent(e) || RequestEvent(e) {
      OthersKeepCascades(s, e);
    } else if e.RequestDelete? {
      StepOfRequestDelete(s, e);
    } else if e.ForceCancel? {
      StepOfForceCancel(s, e);
    } else if e.DeleteBatch? {
      StepOfDeleteBatch(s, e);
    } else if QueueCascadeEvent(e) {
      StepOfCascade(s, e);
    } else {
      TenantEventsSound(s, e);
    }
  }

  lemma TenantEventsSound(s: State, e: Event)
    requires TenantCascadesSound(s) && TenantCascadeEvent(e)
    ensures TenantCascadesSound(Step(s, e))
  {
    hide Step, Enabled;
    if e.RequestDeleteTenant? || e.ResumeTenant? {
      StepOfTenantRequest(s, e);
    } else if e.TenantMark? {
      StepOfTenantMark(s, e);
    } else if e.TenantDeleteBatch? {
      StepOfTenantDeleteBatch(s, e);
    } else {
      StepOfTenantDrop(s, e);
    }
  }

  lemma EditsStep(s: State, e: Event)
    requires EditsSound(s)
    ensures EditsSound(Step(s, e))
  {
    hide Step, Enabled;
    if UpdateEvent(e) {
      StepOfUpdate(s, e);
    } else {
      OthersKeepEdits(s, e);
    }
  }

  lemma OthersKeepEdits(s: State, e: Event)
    requires !UpdateEvent(e)
    ensures Step(s, e).edits == s.edits
  {
    hide Step;
    if RowEvent(e) {
      RowEventFrame(s, e);
    } else if EnqueueEvent(e) {
      EnqueueFrame(s, e);
    } else if RequestEvent(e) {
      EntryFrame(s, e);
    } else {
      CascadeFrame(s, e);
    }
  }

  lemma StepOrderly(s: State, e: Event)
    requires Orderly(s)
    ensures Orderly(Step(s, e))
  {
    hide Step, IdsSound, CopiesSound, NamesSound, QueueCascadesSound, TenantCascadesSound, EditsSound;
    IdsStep(s, e);
    CopiesStep(s, e);
    NamesStep(s, e);
    QueueCascadesStep(s, e);
    TenantCascadesStep(s, e);
    EditsStep(s, e);
  }

  lemma {:induction false} RunOrderly(s: State, es: seq<Event>)
    requires Orderly(s)
    ensures Orderly(Run(s, es))
    decreases |es|
  {
    hide Orderly, Step;
    if es != [] {
      RunOrderly(s, es[..|es| - 1]);
      StepOrderly(Run(s, es[..|es| - 1]), es[|es| - 1]);
    }
  }

  lemma SubsetSize<T>(a: set<T>, b: set<T>)
    requires a <= b
    ensures |a| <= |b|
    ensures a != b ==> |a| < |b|
  {
    assert b == a + (b - a);
    if a != b {
      var x :| x in b - a;
    }
  }
}
