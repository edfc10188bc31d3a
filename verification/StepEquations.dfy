/** Each step's effect as an equation between states, so that proofs about steps need not unfold the
    whole transition system. */
module StepEquations {
  import opened Wrappers
  import opened JobModel
  import opened QueueState
  import opened QueueSteps

  // ---- job rows ----

  lemma StepOfSweep(s: State, e: Event)
    requires e.Tick? || e.Purge?
    ensures
      Step(s, e) == if !Enabled(s, e) then s
                    else if e.Tick? then s.(now := s.now + e.elapsed)
                    else s.(jobs := Without(s.jobs, e.picked))
    ensures Enabled(s, e) ==>
              e.Tick? || e.picked <= Purgeable(s.jobs, e.statuses, e.before)
  {
    hide Purgeable, Without;
  }

  lemma StepOfClaim(s: State, e: Event)
    requires e.Claim?
    ensures Step(s, e) == if !Enabled(s, e) then s
                          else s.(jobs := UpdateRows(s.jobs, e.picked, j => SqlClaimed(j, e.worker, s.now)))
    ensures Enabled(s, e) <==>
              Earliest(s.jobs, Claimable(s, e.key), BySchedule, LimitOr(e.limit, CLAIM_LIMIT), e.picked)
    ensures Enabled(s, e) ==> e.picked <= Claimable(s, e.key)
  {
    hide Claimable, UpdateRows, SqlClaimed, SortKeyOf;
  }

  lemma StepOfReclaim(s: State, e: Event)
    requires e.Reclaim?
    ensures Step(s, e) == if !Enabled(s, e) then s
                          else s.(jobs := UpdateRows(s.jobs, e.picked, j => SqlReclaimed(j, s.now)))
    ensures Enabled(s, e) ==> e.picked <= Expired(s)
  {
    hide Expired, UpdateRows, SqlReclaimed, SortKeyOf;
  }

  lemma StepOfVisit(s: State, e: Event)
    requires e.JobVisit?
    ensures Step(s, e) == if e.token in s.visits || e.token in s.copies || QueueWritable(s, e.key) != Ok then s
                          else s.(visits := s.visits[e.token := e.key])
  {
    hide QueueWritable;
  }

  lemma StepOfRead(s: State, e: Event)
    requires e.JobRead?
    ensures GoesAhead(s, e.key, e.id, e.change) ==> Found(s, e.key, e.id) && e.change.Fits(s.jobs[e.id])
    ensures Enabled(s, e) <==>
              && e.token !in s.copies
              && (if e.change.Promoting? then e.token !in s.visits else e.token in s.visits && s.visits[e.token] == e.key)
    ensures Step(s, e) == if !Enabled(s, e) then s
                          else if !GoesAhead(s, e.key, e.id, e.change) then s.(visits := Without(s.visits, {e.token}))
                          else s.(visits := Without(s.visits, {e.token}),
                                  copies := s.copies[e.token := JobCopy(e.id, s.jobs[e.id], e.change)])
  {
    hide RequestStep, QueueCascadeStep, TenantCascadeStep, RequestEnabled, QueueCascadeEnabled, TenantCascadeEnabled;
    hide GoesAhead, Without;
    if GoesAhead(s, e.key, e.id, e.change) {
      GoesAheadFits(s, e.key, e.id, e.change);
    }
  }

  lemma StepOfSave(s: State, e: Event)
    requires e.JobSave?
    ensures Enabled(s, e) ==> e.token in s.copies
    ensures Enabled(s, e) == (&& e.token in s.copies && s.copies[e.token].id in s.issued
                              && Saveable(s, s.copies[e.token])
                              && var c := s.copies[e.token]; (c.id in s.jobs ==> c.read.SameIdentity(s.jobs[c.id])))
    ensures Step(s, e) == if !Enabled(s, e) then s
                          else s.(copies := CopiesSaved(s, e.token), jobs := JobsSaved(s, s.copies[e.token]))
  {
    hide JobsSaved, CopiesSaved, Saveable, Job.SameIdentity;
  }

  /** The saved copy is gone, or is the row saved, to be saved once more. */
  lemma CopiesAfterSave(s: State, token: nat)
    requires token in s.copies
    ensures
      var c, after := s.copies[token], CopiesSaved(s, token);
      && (forall t :: t in after && t != token ==> t in s.copies && after[t] == s.copies[t])
      && (forall t :: t in s.copies && t != token ==> t in after)
      && (token in after <==> GoesOn(s, c))
      && (token in after ==>
            && c.change.Publishes(c.read)
            && after[token] == JobCopy(c.id, c.change.Of(c.read, s.now), Republishing))
  {
    hide Storable, Change.Of;
  }

  lemma StepOfJobAbandon(s: State, e: Event)
    requires e.JobAbandon?
    ensures Enabled(s, e) <==> e.token in s.copies || e.token in s.visits
    ensures Step(s, e) == s.(visits := Without(s.visits, {e.token}), copies := Without(s.copies, {e.token}))
  {
  }

  lemma StepOfHeartbeat(s: State, e: Event)
    requires e.Heartbeat?
    ensures Enabled(s, e)
    ensures
      var known := e.worker in s.workers && s.workers[e.worker].project == e.project;
      && Step(s, e) == s.(workers := Step(s, e).workers, jobs := Step(s, e).jobs)
      && Step(s, e).workers == (if known then s.workers[e.worker := s.workers[e.worker].(lastSeenAt := s.now)]
                                else s.workers)
      && Step(s, e).jobs == if known && e.worker != "" then
                              UpdateRows(s.jobs, LeasesOf(s.jobs, e.project, e.worker), j => SqlExtended(j, s.now))
                            else s.jobs
  {
    hide RequestStep, QueueCascadeStep, TenantCascadeStep, RequestEnabled, QueueCascadeEnabled, TenantCascadeEnabled;
    hide LeasesOf, UpdateRows, SqlExtended;
  }

  lemma StepOfInsert(s: State, e: Event)
    requires e.EnqueueInsert?
    ensures Enabled(s, e) <==> && e.id in s.requests && s.requests[e.id].Drafted? && e.id !in s.issued
                               && e.token !in s.copies && e.token !in s.visits
    ensures
      var t := Step(s, e);
      t == if !Enabled(s, e) then s
           else if !Insertable(s, e.id) then s.(requests := Without(s.requests, {e.id}))
           else s.(requests := Without(s.requests, {e.id}), jobs := s.jobs[e.id := s.requests[e.id].Row()],
                   issued := s.issued + {e.id},
                   copies := s.copies[e.token := JobCopy(e.id, s.requests[e.id].Row(), Republishing)])
  {
    hide ByIdempotencyKey, NewJob, Without;
  }

  lemma CopiesAfterInsert(s: State, e: Event)
    requires e.EnqueueInsert?
    ensures !(Enabled(s, e) && Insertable(s, e.id)) ==> Step(s, e).copies == s.copies
    ensures Enabled(s, e) && Insertable(s, e.id) ==>
              Step(s, e).copies == s.copies[e.token := JobCopy(e.id, s.requests[e.id].Row(), Republishing)]
  {
    hide *;
    StepOfInsert(s, e);
  }

  lemma JobsAfterInsert(s: State, e: Event)
    requires e.EnqueueInsert?
    ensures !(Enabled(s, e) && Insertable(s, e.id)) ==> Step(s, e).jobs == s.jobs
    ensures Enabled(s, e) && Insertable(s, e.id) ==> Step(s, e).jobs == s.jobs[e.id := s.requests[e.id].Row()]
  {
    hide *;
    StepOfInsert(s, e);
  }

  lemma CopiesAfterRead(s: State, e: Event)
    requires e.JobRead?
    ensures GoesAhead(s, e.key, e.id, e.change) ==> Found(s, e.key, e.id) && e.change.Fits(s.jobs[e.id])
    ensures !(Enabled(s, e) && GoesAhead(s, e.key, e.id, e.change)) ==> Step(s, e).copies == s.copies
    ensures Enabled(s, e) && GoesAhead(s, e.key, e.id, e.change) ==>
              Step(s, e).copies == s.copies[e.token := JobCopy(e.id, s.jobs[e.id], e.change)]
  {
    hide *;
    StepOfRead(s, e);
  }

  lemma StepOfForceCancel(s: State, e: Event)
    requires e.ForceCancel?
    ensures Step(s, e) == if !Enabled(s, e) then s
                          else s.(jobs := UpdateRows(s.jobs, ActiveJobsOf(s.jobs, e.key),
                                                     j => SqlForceCancelled(j, s.now)),
                                  cascades := s.cascades[e.key := DeletingJobs])
  {
    hide ActiveJobsOf, UpdateRows, SqlForceCancelled;
  }

  lemma StepOfDeleteBatch(s: State, e: Event)
    requires e.DeleteBatch?
    ensures Enabled(s, e) ==> e.picked <= JobsOf(s.jobs, e.key) && (e.picked == {} ==> JobsOf(s.jobs, e.key) == {})
    ensures Step(s, e) == if !Enabled(s, e) then s
                          else s.(jobs := Without(s.jobs, e.picked),
                                  cascades := s.cascades[e.key := if e.picked == {} then Detaching else DeletingJobs])
  {
    hide JobsOf, Without;
  }

  lemma StepOfTenantDeleteBatch(s: State, e: Event)
    requires e.TenantDeleteBatch?
    ensures Enabled(s, e) ==>
              && e.project in s.tenantCascades && s.tenantCascades[e.project].TDeletingJobs?
              && e.picked <= JobsOfProject(s.jobs, e.project)
              && (e.picked == {} ==> JobsOfProject(s.jobs, e.project) == {})
    ensures Step(s, e) == if !Enabled(s, e) then s
                          else
                            var names := s.tenantCascades[e.project].names;
                            s.(jobs := Without(s.jobs, e.picked),
                               tenantCascades := s.tenantCascades[e.project :=
                                 if e.picked == {} then TDroppingWorkers(names) else TDeletingJobs(names)])
  {
    hide JobsOfProject, Without;
  }

  // ---- enqueues, config updates, entries ----

  lemma StepOfAdmit(s: State, e: Event)
    requires e.EnqueueAdmit?
    ensures Enabled(s, e) <==> e.id !in s.issued && e.id !in s.requests
    ensures
      Step(s, e) == if !Enabled(s, e) || QueueWritable(s, e.key) != Ok then s
                    else
                      var r := Admitted(e.key, e.payload, e.idempotencyKey, e.scheduleAt, e.delay);
                      s.(requests := s.requests[e.id := r])
  {
    hide QueueWritable;
  }

  lemma StepOfAbandon(s: State, e: Event)
    requires e.EnqueueAbandon?
    ensures Step(s, e) == s.(requests := Without(s.requests, {e.id}))
  {
  }

  lemma StepOfDraft(s: State, e: Event)
    requires e.EnqueueDraft?
    ensures
      Step(s, e) == if !Enabled(s, e) then s
                    else s.(requests := RequestsFound(s, e.id))
    ensures Enabled(s, e) <==> e.id in s.requests && s.requests[e.id].Admitted?
  {
    hide RequestsFound;
  }

  lemma StepOfCreate(s: State, e: Event)
    requires e.EnqueueCreate?
    ensures
      Step(s, e) == if !Enabled(s, e) then s
                    else
                      var key := s.requests[e.id].key;
                      s.(queues := QueueCreated(s, key, 0, 0), nextQueue := SerialCreated(s, key),
                         requests := RequestsCreated(s, e.id))
    ensures Enabled(s, e) <==> e.id in s.requests && s.requests[e.id].Creating?
  {
    hide QueueCreated, SerialCreated, RequestsCreated;
  }

  lemma StepOfEnsure(s: State, e: Event)
    requires e.EnsureQueue?
    ensures Step(s, e) == s.(queues := QueueCreated(s, e.key, e.visibility, e.maxAttempts),
                             nextQueue := SerialCreated(s, e.key))
  {
    hide QueueCreated, SerialCreated;
  }

  lemma StepOfUpdate(s: State, e: Event)
    requires e.UpdateRead? || e.UpdateSave? || e.UpdateAbandon?
    ensures e.UpdateRead? ==>
              Step(s, e) == if e.token in s.edits || e.key !in s.queues || !s.queues[e.key].status.IsActive() then s
                            else s.(edits := s.edits[e.token :=
                                   Edit(e.key, Edited(s.queues[e.key], e.newVisibility, e.newMaxAttempts))])
    ensures e.UpdateSave? ==>
              Step(s, e) == if e.token !in s.edits then s
                            else s.(edits := Without(s.edits, {e.token}),
                                    queues := Saved(s.queues, s.edits[e.token].key, s.edits[e.token].row))
    ensures e.UpdateAbandon? ==> Step(s, e) == s.(edits := Without(s.edits, {e.token}))
  {
    hide Edited, Saved;
  }

  lemma StepOfCreateTenant(s: State, e: Event)
    requires e.CreateTenant?
    ensures Step(s, e) == if e.project > 0 && e.project !in s.tenants then s.(tenants := s.tenants[e.project := Active])
                          else s
  {
  }

  predicate MayRegister(s: State, project: int, names: seq<string>) {
    TenantWritable(s, project).Ok? && forall n :: n in names ==> QueueWritable(s, QueueKey(project, n)).Ok?
  }

  lemma StepOfRegister(s: State, e: Event)
    requires e.RegisterWorker?
    ensures Step(s, e) == if e.worker in s.workers || !MayRegister(s, e.project, e.names) then s
                          else s.(workers := s.workers[e.worker := Worker(e.project, e.names, s.now)])
  {
    hide QueueWritable, TenantWritable;
  }

  lemma StepOfDropStale(s: State, e: Event)
    requires e.DropStaleWorker?
    ensures Step(s, e) == s || Step(s, e) == s.(workers := Without(s.workers, {e.worker}))
  {
    hide LeasesOf, Without;
  }

  // ---- cascades ----

  lemma StepOfRequestDelete(s: State, e: Event)
    requires e.RequestDelete?
    ensures
      var active := ActiveJobsOf(s.jobs, e.key);
      Step(s, e) == if !Enabled(s, e) || e.key !in s.queues || s.queues[e.key].status.Deleting?
                       || (active != {} && !e.force) then s
                    else s.(queues := s.queues[e.key := s.queues[e.key].(status := Deleting)],
                            cascades := s.cascades[e.key := if active != {} then ForceCancelling else DeletingJobs])
    ensures Enabled(s, e) <==> e.key !in s.cascades && !TenantOwns(s, e.key)
  {
    hide ActiveJobsOf, TenantOwns;
  }

  lemma StepOfCascade(s: State, e: Event)
    requires e.Detach? || e.DropRow? || e.Resume? || e.Crash?
    ensures e.Detach? ==>
              && (Enabled(s, e) <==> e.key in s.cascades && s.cascades[e.key] == Detaching)
              && Step(s, e) == if !Enabled(s, e) then s
                               else s.(workers := DetachedWorkers(s.workers, e.key),
                                       cascades := s.cascades[e.key := DroppingRow])
    ensures e.DropRow? ==>
              && (Enabled(s, e) <==> e.key in s.cascades && s.cascades[e.key] == DroppingRow)
              && Step(s, e) == if !Enabled(s, e) then s
                               else s.(queues := Without(s.queues, {e.key}), cascades := Without(s.cascades, {e.key}))
    ensures e.Resume? ==>
              && (Enabled(s, e) <==> && e.key in s.queues && s.queues[e.key].status.Deleting?
                                     && e.key !in s.cascades && e.key.project !in s.tenantCascades)
              && Step(s, e) == if !Enabled(s, e) then s else s.(cascades := s.cascades[e.key := DeletingJobs])
    ensures e.Crash? ==> Step(s, e) == s.(cascades := map[], tenantCascades := map[])
  {
    hide DetachedWorkers, Without;
  }

  lemma StepOfTenantRequest(s: State, e: Event)
    requires e.RequestDeleteTenant? || e.ResumeTenant?
    ensures e.RequestDeleteTenant? ==>
              Step(s, e) == if e.project <= 0 || e.project !in s.tenants || s.tenants[e.project].Deleting? then s
                            else s.(tenants := s.tenants[e.project := Deleting],
                                    tenantCascades := s.tenantCascades[e.project := TListing])
    ensures e.ResumeTenant? ==>
              Step(s, e) == if e.project in s.tenants && s.tenants[e.project].Deleting?
                               && e.project !in s.tenantCascades && e.project > 0
                            then s.(tenantCascades := s.tenantCascades[e.project := TListing]) else s
  {
  }

  lemma StepOfTenantMark(s: State, e: Event)
    requires e.TenantMark?
    ensures Enabled(s, e) <==> && e.project in s.tenantCascades && s.tenantCascades[e.project] == TListing
                               && forall k :: k in s.cascades ==> k.project != e.project
    ensures
      var t := Step(s, e);
      if !Enabled(s, e) then t == s
      else
        && t == s.(queues := t.queues,
                   tenantCascades := s.tenantCascades[e.project := TDeletingJobs(QueuesOf(s, e.project))])
        && t.queues.Keys == s.queues.Keys
        && forall k :: k in s.queues ==>
             t.queues[k] == if k.project == e.project then s.queues[k].(status := Deleting) else s.queues[k]
  {
    hide QueuesOf;
  }

  lemma StepOfTenantDrop(s: State, e: Event)
    requires e.TenantDropWorkers? || e.TenantDropQueue? || e.TenantDropRow?
    ensures Enabled(s, e) ==>
              && e.project in s.tenantCascades
              && (e.TenantDropWorkers? <==> s.tenantCascades[e.project].TDroppingWorkers?)
              && (e.TenantDropWorkers? || s.tenantCascades[e.project].TDroppingQueues?)
              && (e.TenantDropQueue? ==> e.name in s.tenantCascades[e.project].names)
              && (e.TenantDropRow? ==> s.tenantCascades[e.project].names == {})
    ensures !Enabled(s, e) ==> Step(s, e) == s
    ensures Enabled(s, e) && e.TenantDropWorkers? ==>
              Step(s, e) == s.(workers := map w | w in s.workers && s.workers[w].project != e.project :: s.workers[w],
                               tenantCascades := s.tenantCascades[e.project :=
                                 TDroppingQueues(s.tenantCascades[e.project].names)])
    ensures Enabled(s, e) && e.TenantDropQueue? ==>
              Step(s, e) == s.(queues := Without(s.queues, {QueueKey(e.project, e.name)}),
                               tenantCascades := s.tenantCascades[e.project :=
                                 TDroppingQueues(s.tenantCascades[e.project].names - {e.name})])
    ensures Enabled(s, e) && e.TenantDropRow? ==>
              Step(s, e) == s.(tenants := Without(s.tenants, {e.project}),
                               tenantCascades := Without(s.tenantCascades, {e.project}))
  {
    hide Without;
  }

  // ---- which tables a step can touch ----

  /** The statements of the handlers that read a job and save it. */
  predicate JobEvent(e: Event) {
    e.JobVisit? || e.JobRead? || e.JobSave? || e.JobAbandon?
  }

  /** A request, sweep or purge on existing rows touches the clock, the jobs, the copies of them and the
      workers only. */
  lemma RowEventFrame(s: State, e: Event)
    requires RowEvent(e)
    ensures
      var t := Step(s, e);
      && t == s.(now := t.now, jobs := t.jobs, workers := t.workers, copies := t.copies, visits := t.visits)
      && (!JobEvent(e) ==> t.copies == s.copies && t.visits == s.visits)
      && t.workers.Keys == s.workers.Keys
      && (forall w :: w in s.workers ==>
            t.workers[w].project == s.workers[w].project && t.workers[w].queues == s.workers[w].queues)
  {
    hide Step, Enabled;
    if e.Heartbeat? {
      HeartbeatFrame(s, e);
    } else if JobEvent(e) {
      JobEventFrame(s, e);
    } else {
      SweepFrame(s, e);
    }
  }

  lemma HeartbeatFrame(s: State, e: Event)
    requires e.Heartbeat?
    ensures
      var t := Step(s, e);
      && t == s.(jobs := t.jobs, workers := t.workers) && t.workers.Keys == s.workers.Keys
      && (forall w :: w in s.workers ==>
            t.workers[w].project == s.workers[w].project && t.workers[w].queues == s.workers[w].queues)
  {
    hide Step, Enabled;
    StepOfHeartbeat(s, e);
  }

  lemma SweepFrame(s: State, e: Event)
    requires e.Tick? || e.Purge? || e.Claim? || e.Reclaim?
    ensures Step(s, e) == s.(now := Step(s, e).now, jobs := Step(s, e).jobs)
  {
    hide Step, Enabled;
    if e.Claim? {
      StepOfClaim(s, e);
    } else if e.Reclaim? {
      StepOfReclaim(s, e);
    } else {
      StepOfSweep(s, e);
    }
  }

  lemma JobEventFrame(s: State, e: Event)
    requires JobEvent(e)
    ensures Step(s, e) == s.(jobs := Step(s, e).jobs, copies := Step(s, e).copies, visits := Step(s, e).visits)
    ensures !e.JobSave? ==> Step(s, e).jobs == s.jobs
  {
    hide Step, Enabled, GoesAhead, JobsSaved, CopiesSaved, QueueWritable, Without;
    if e.JobVisit? {
      StepOfVisit(s, e);
    } else if e.JobRead? {
      StepOfRead(s, e);
    } else if e.JobSave? {
      StepOfSave(s, e);
    } else {
      StepOfJobAbandon(s, e);
    }
  }

  predicate EnqueueEvent(e: Event) {
    e.EnqueueAdmit? || e.EnqueueDraft? || e.EnqueueCreate? || e.EnqueueInsert? || e.EnqueueAbandon?
  }

  predicate UpdateEvent(e: Event) {
    e.UpdateRead? || e.UpdateSave? || e.UpdateAbandon?
  }

  lemma EnqueueFrame(s: State, e: Event)
    requires EnqueueEvent(e)
    ensures
      var t := Step(s, e);
      && t == s.(requests := t.requests, queues := t.queues, nextQueue := t.nextQueue, jobs := t.jobs, issued := t.issued,
                 copies := t.copies)
      && (!e.EnqueueCreate? ==> t.queues == s.queues && t.nextQueue == s.nextQueue)
      && (!e.EnqueueInsert? ==> t.jobs == s.jobs && t.issued == s.issued && t.copies == s.copies)
  {
    hide Step, Enabled;
    if e.EnqueueInsert? {
      InsertFrame(s, e);
    } else if e.EnqueueCreate? {
      CreateFrame(s, e);
    } else {
      RequestFrame(s, e);
    }
  }

  lemma InsertFrame(s: State, e: Event)
    requires e.EnqueueInsert?
    ensures
      var t := Step(s, e);
      t == s.(requests := t.requests, jobs := t.jobs, issued := t.issued, copies := t.copies)
  {
    hide *;
    StepOfInsert(s, e);
  }

  lemma CreateFrame(s: State, e: Event)
    requires e.EnqueueCreate?
    ensures
      var t := Step(s, e);
      t == s.(requests := t.requests, queues := t.queues, nextQueue := t.nextQueue)
  {
    hide *;
    StepOfCreate(s, e);
  }

  lemma RequestFrame(s: State, e: Event)
    requires e.EnqueueAdmit? || e.EnqueueDraft? || e.EnqueueAbandon?
    ensures Step(s, e) == s.(requests := Step(s, e).requests)
  {
    hide *;
    if e.EnqueueAdmit? {
      StepOfAdmit(s, e);
    } else if e.EnqueueDraft? {
      StepOfDraft(s, e);
    } else {
      StepOfAbandon(s, e);
    }
  }

  lemma EntryFrame(s: State, e: Event)
    requires RequestEvent(e) && !EnqueueEvent(e)
    ensures
      var t := Step(s, e);
      && t == s.(queues := t.queues, nextQueue := t.nextQueue, edits := t.edits, tenants := t.tenants,
                 workers := t.workers)
      && (!e.EnsureQueue? && !e.UpdateSave? ==> t.queues == s.queues)
      && (!UpdateEvent(e) ==> t.edits == s.edits)
      && (!e.RegisterWorker? && !e.DropStaleWorker? ==> t.workers == s.workers)
      && (forall p :: p in s.tenants ==> p in t.tenants && t.tenants[p] == s.tenants[p])
  {
    hide Step, Enabled;
    if e.EnsureQueue? || UpdateEvent(e) {
      UpdateFrame(s, e);
    } else {
      WorkerEventFrame(s, e);
    }
  }

  lemma UpdateFrame(s: State, e: Event)
    requires e.EnsureQueue? || UpdateEvent(e)
    ensures
      var t := Step(s, e);
      && t == s.(queues := t.queues, nextQueue := t.nextQueue, edits := t.edits)
      && (!e.EnsureQueue? && !e.UpdateSave? ==> t.queues == s.queues)
      && (!UpdateEvent(e) ==> t.edits == s.edits)
  {
    hide Step, Enabled, QueueCreated, SerialCreated, Edited, Saved, Without;
    if e.EnsureQueue? { StepOfEnsure(s, e); } else { StepOfUpdate(s, e); }
  }

  lemma WorkerEventFrame(s: State, e: Event)
    requires e.CreateTenant? || e.RegisterWorker? || e.DropStaleWorker?
    ensures
      var t := Step(s, e);
      && t == s.(tenants := t.tenants, workers := t.workers)
      && (e.CreateTenant? ==> t.workers == s.workers)
      && (forall p :: p in s.tenants ==> p in t.tenants && t.tenants[p] == s.tenants[p])
  {
    hide Step, Enabled, MayRegister, Without;
    if e.CreateTenant? {
      StepOfCreateTenant(s, e);
    } else if e.RegisterWorker? {
      StepOfRegister(s, e);
    } else {
      StepOfDropStale(s, e);
    }
  }

  /** A statement of a cascade leaves the requests under way, the clock and the ids alone. */
  lemma CascadeFrame(s: State, e: Event)
    requires QueueCascadeEvent(e) || TenantCascadeEvent(e)
    ensures
      var t := Step(s, e);
      t == s.(jobs := t.jobs, queues := t.queues, tenants := t.tenants, workers := t.workers,
              cascades := t.cascades, tenantCascades := t.tenantCascades)
  {
    hide Step, Enabled;
    if e.RequestDelete? {
      StepOfRequestDelete(s, e);
    } else if e.ForceCancel? {
      StepOfForceCancel(s, e);
    } else if e.DeleteBatch? {
      StepOfDeleteBatch(s, e);
    } else if QueueCascadeEvent(e) {
      StepOfCascade(s, e);
    } else {
      TenantCascadeFrame(s, e);
    }
  }

  lemma TenantCascadeFrame(s: State, e: Event)
    requires TenantCascadeEvent(e)
    ensures
      var t := Step(s, e);
      t == s.(jobs := t.jobs, queues := t.queues, tenants := t.tenants, workers := t.workers,
              tenantCascades := t.tenantCascades)
  {
    hide Step, Enabled;
    if e.RequestDeleteTenant? || e.ResumeTenant? {
      StepOfTenantRequest(s, e);
    } else if e.TenantMark? {
      StepOfTenantMark(s, e);
    } else if e.TenantDeleteBatch? {
      StepOfTenantDeleteBatch(s, e);
    } else {
      StepOfTenantDrop(s, e);
    }
  }
}
