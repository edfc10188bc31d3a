/** When deletion strands a job: the exact conditions, over every run. */
module Stranding {
  import opened Wrappers
  import opened JobModel
  import opened QueueState
  import opened QueueSteps
  import opened StepEquations
  import opened JobHistory
  import opened CascadeSafety
  import opened Barrier

  /** Every job's queue exists.  The schema has no foreign key that would enforce it. */
  ghost predicate NoOrphans(s: State) {
    forall id :: id in s.jobs ==> KeyOf(s.jobs[id]) in s.queues
  }

  /** Every job's queue exists, and so does the queue of every job whose insert by an enqueue or whose
      save by a handler is still to come. */
  ghost predicate Anchored(s: State) {
    && NoOrphans(s)
    && (forall id :: id in s.requests && s.requests[id].Drafted? ==> s.requests[id].key in s.queues)
    && (forall token :: token in s.copies ==> KeyOf(s.copies[token].read) in s.queues)
  }

  lemma InitialIsSound(s: State)
    requires Initial(s)
    ensures Orderly(s) && Anchored(s)
  {
  }

  /** If the step removes a queue's row, the queue has no job, no draft and no copy of a job. */
  ghost predicate CleanStep(s: State, e: Event) {
    forall key :: Removes(s, e, key) ==> Live(s, key) == {}
  }

  /** Only the removal of a row with jobs, drafts or copies left takes the ground from under anything. */
  lemma AnchoredStepIff(s: State, e: Event)
    requires Anchored(s)
    ensures Anchored(Step(s, e)) <==> CleanStep(s, e)
  {
    hide Step, Enabled, Removes, Live;
    if CleanStep(s, e) {
      CleanStepAnchored(s, e);
    }
    forall key | Removes(s, e, key) && Live(s, key) != {} ensures !Anchored(Step(s, e)) {
      DirtyDrop(s, e, key);
    }
  }

  lemma CleanStepAnchored(s: State, e: Event)
    requires Anchored(s) && CleanStep(s, e)
    ensures Anchored(Step(s, e))
  {
    hide Step, Enabled, Removes, Anchored, CleanStep;
    var t := Step(s, e);
    forall id | id in t.jobs ensures KeyOf(t.jobs[id]) in t.queues {
      JobAnchored(s, e, id);
    }
    forall id | id in t.requests && t.requests[id].Drafted? ensures t.requests[id].key in t.queues {
      DraftAnchored(s, e, id);
    }
    forall token | token in t.copies ensures KeyOf(t.copies[token].read) in t.queues {
      CopyAnchored(s, e, token);
    }
    AreAnchored(t);
  }

  lemma AreAnchored(s: State)
    requires NoOrphans(s)
    requires forall id :: id in s.requests && s.requests[id].Drafted? ==> s.requests[id].key in s.queues
    requires forall token :: token in s.copies ==> KeyOf(s.copies[token].read) in s.queues
    ensures Anchored(s)
  {
  }

  /** A queue with something alive keeps its row in a clean step. */
  lemma RowHeld(s: State, e: Event, key: QueueKey, id: JobId)
    requires CleanStep(s, e) && key in s.queues && id in Live(s, key)
    ensures key in Step(s, e).queues
  {
    hide Step, Live, Removes;
    RowMoves(s, e, key);
  }

  lemma JobAnchored(s: State, e: Event, id: JobId)
    requires Anchored(s) && CleanStep(s, e) && id in Step(s, e).jobs
    ensures KeyOf(Step(s, e).jobs[id]) in Step(s, e).queues
  {
    hide Step, CleanStep, QueueWritable, Inserts;
    var key := KeyOf(Step(s, e).jobs[id]);
    JobOrigin(s, e, id);
    if InsertsJob(s, e, id) { InsertsDraft(s, e); }
    assert id in JobsOf(s.jobs, key) || id in DraftsOf(s.requests, key) || id in CopiedOf(s.copies, key);
    RowHeld(s, e, key, id);
  }

  lemma DraftAnchored(s: State, e: Event, id: JobId)
    requires Anchored(s) && CleanStep(s, e) && id in Step(s, e).requests && Step(s, e).requests[id].Drafted?
    ensures Step(s, e).requests[id].key in Step(s, e).queues
  {
    hide Step, CleanStep, QueueWritable;
    var key := Step(s, e).requests[id].key;
    RequestOrigin(s, e, id);
    if key !in Step(s, e).queues {
      RowHeld(s, e, key, id);
    }
  }

  lemma CopyAnchored(s: State, e: Event, token: nat)
    requires Anchored(s) && CleanStep(s, e) && token in Step(s, e).copies
    ensures KeyOf(Step(s, e).copies[token].read) in Step(s, e).queues
  {
    hide Step, CleanStep, ReadAllowed, Enabled, Inserts;
    var c := Step(s, e).copies[token];
    CopyOrigin(s, e, token);
    if e.EnqueueInsert? && Inserts(s, e) { InsertsDraft(s, e); }
    assert c.id in JobsOf(s.jobs, KeyOf(c.read)) || c.id in CopiedOf(s.copies, KeyOf(c.read))
           || c.id in DraftsOf(s.requests, KeyOf(c.read));
    RowHeld(s, e, KeyOf(c.read), c.id);
  }

  /** Removing a row moves nothing else in the jobs and requests tables. */
  lemma RemovalFrame(s: State, e: Event, key: QueueKey)
    requires Removes(s, e, key)
    ensures Step(s, e).jobs == s.jobs && Step(s, e).requests == s.requests && Step(s, e).issued == s.issued
    ensures Step(s, e).queues == Without(s.queues, {key}) && Step(s, e).workers == s.workers
    ensures Step(s, e).copies == s.copies
  {
    hide Step, Enabled;
    if e.DropRow? { StepOfCascade(s, e); } else { StepOfTenantDrop(s, e); }
  }

  lemma DirtyDrop(s: State, e: Event, key: QueueKey)
    requires Removes(s, e, key) && Live(s, key) != {}
    ensures !Anchored(Step(s, e))
  {
    hide Step, Removes;
    RemovalFrame(s, e, key);
    var id :| id in Live(s, key);
    var t := Step(s, e);
    if id in CopiedOf(s.copies, key) {
      var token :| token in s.copies && KeyOf(s.copies[token].read) == key && s.copies[token].id == id;
      assert token in t.copies;
    } else {
      assert id in t.jobs || id in t.requests;
    }
  }

  // ---- whole runs ----

  ghost predicate CleanDrops(s0: State, es: seq<Event>) {
    es != [] ==> CleanDrops(s0, es[..|es| - 1]) && CleanStep(Run(s0, es[..|es| - 1]), es[|es| - 1])
  }

  /** `Anchored` holds after every prefix of the run. */
  ghost predicate AlwaysAnchored(s0: State, es: seq<Event>) {
    Anchored(Run(s0, es)) && (es != [] ==> AlwaysAnchored(s0, es[..|es| - 1]))
  }

  /** No job is stranded, and no insert or save to come is about to strand one, at any point of the run,
      exactly if every queue row is removed only when the queue has no jobs, no drafts and no copies. */
  lemma {:induction false} NothingStrandedIff(s0: State, es: seq<Event>)
    requires Initial(s0)
    ensures AlwaysAnchored(s0, es) <==> CleanDrops(s0, es)
    decreases |es|
  {
    hide Step, Anchored, CleanStep;
    if es == [] {
      InitialIsSound(s0);
    } else {
      var init, e := es[..|es| - 1], es[|es| - 1];
      NothingStrandedIff(s0, init);
      if AlwaysAnchored(s0, init) {
        AnchoredStepIff(Run(s0, init), e);
      }
    }
  }

  lemma RunNothing(s: State)
    ensures Run(s, []) == s
  {
  }

  /** No cascade, crash or race strands a job in a run that removes no queue's row while an enqueue of
      that queue is between its check and its insert, a handler between its read and its save, or a job
      has come in that way since the last empty batch. */
  lemma NoJobIsStranded(s0: State, es: seq<Event>)
    requires Initial(s0) && CleanDrops(s0, es)
    ensures NoOrphans(Run(s0, es))
  {
    hide Run, CleanStep;
    NothingStrandedIff(s0, es);
  }

  // ---- the history of one stranded job ----

  /** The run's `n`-th step removes the row of the job's queue when the job is there, or drafted, or
      copied, and no later step brings the row back. */
  ghost predicate Undercut(s0: State, es: seq<Event>, n: nat, id: JobId, key: QueueKey)
    requires n < |es|
  {
    && Removes(Run(s0, es[..n]), es[n], key) && id in Live(Run(s0, es[..n]), key)
    && forall m :: n < m <= |es| ==> key !in Run(s0, es[..m]).queues
  }

  lemma {:induction false} LooseWasUndercut(s0: State, es: seq<Event>, id: JobId, key: QueueKey) returns (n: nat)
    requires Initial(s0) && id in Live(Run(s0, es), key) && key !in Run(s0, es).queues
    ensures n < |es| && Undercut(s0, es, n, id, key)
    decreases |es|
  {
    hide Step, Run, Removes, Live, IsDeleting;
    if es == [] {
      RunNothing(s0);
      InitialHasNoLive(s0, key);
      assert false;
    } else {
      var init, e := es[..|es| - 1], es[|es| - 1];
      assert es == init + [e];
      assert forall m :: 0 <= m <= |init| ==> init[..m] == es[..m];
      assert es[..|es|] == es && es[..|init|] == init;
      RunSnoc(s0, init, e);
      LiveOrigin(Run(s0, init), e, key, id);
      RowMoves(Run(s0, init), e, key);
      if key in Run(s0, init).queues {
        n := |init|;
        forall m | n < m <= |es| ensures key !in Run(s0, es[..m]).queues {
          assert m == |es|;
        }
      } else {
        n := LooseWasUndercut(s0, init, id, key);
        forall m | n < m <= |es| ensures key !in Run(s0, es[..m]).queues {
          if m < |es| { assert key !in Run(s0, init[..m]).queues; }
        }
      }
    }
  }

  lemma InitialHasNoLive(s: State, key: QueueKey)
    requires Initial(s)
    ensures Live(s, key) == {}
  {
  }

  /** A job is stranded at the end of a run exactly if its queue's row was removed, for good, when the
      job was there, or was drafted or copied and has been inserted or saved since. */
  lemma StrandedIff(s0: State, es: seq<Event>, id: JobId, key: QueueKey)
    requires Initial(s0) && id in Run(s0, es).jobs && KeyOf(Run(s0, es).jobs[id]) == key
    ensures key !in Run(s0, es).queues <==> exists n :: 0 <= n < |es| && Undercut(s0, es, n, id, key)
  {
    hide Run, Removes;
    if key !in Run(s0, es).queues {
      var n := LooseWasUndercut(s0, es, id, key);
    }
    assert es[..|es|] == es;
  }

  /** A draft whose queue's row has gone strands a job as soon as it is inserted. */
  lemma LateInsertStrands(s: State, id: JobId, token: nat, key: QueueKey)
    requires Orderly(s) && id in DraftsOf(s.requests, key) && key !in s.queues && JobsOf(s.jobs, key) == {}
    requires token !in s.copies && token !in s.visits
    ensures !NoOrphans(Step(s, EnqueueInsert(id, token)))
  {
    hide Step, Enabled, CopiesSound, NamesSound, QueueCascadesSound, TenantCascadesSound, EditsSound;
    StepOfInsert(s, EnqueueInsert(id, token));
    IndexHasRoom(s, id, key);
    assert KeyOf(s.requests[id].Row()) == key;
    assert id in Step(s, EnqueueInsert(id, token)).jobs;
  }

  lemma IndexHasRoom(s: State, id: JobId, key: QueueKey)
    requires IdsSound(s) && id in DraftsOf(s.requests, key) && JobsOf(s.jobs, key) == {}
    ensures Insertable(s, id)
  {
    assert forall i :: i in s.jobs && KeyOf(s.jobs[i]) == key ==> i in JobsOf(s.jobs, key);
  }

  /** So does a copy of a deleted job as soon as it is saved. */
  lemma LateSaveStrands(s: State, token: nat, key: QueueKey)
    requires Orderly(s) && token in HoldersOf(s.copies, key) && key !in s.queues && JobsOf(s.jobs, key) == {}
    requires Saveable(s, s.copies[token])
    ensures !NoOrphans(Step(s, JobSave(token)))
  {
    hide Step, Enabled, NamesSound, QueueCascadesSound, TenantCascadesSound, EditsSound, Change.Of, Saveable, CopiesSaved;
    StepOfSave(s, JobSave(token));
    var c := s.copies[token];
    assert forall i :: i in s.jobs && KeyOf(s.jobs[i]) == key ==> i in JobsOf(s.jobs, key);
    assert Storable(s, c);
    ChangeKeepsIdentity(c, s.now);
    assert c.id in Step(s, JobSave(token)).jobs;
  }

  /** However long it waits, no insert and no save that comes next strands a job. */
  ghost predicate NextIsSafe(s: State) {
    && (forall wait, id, token :: NoOrphans(Step(Step(s, Tick(wait)), EnqueueInsert(id, token))))
    && (forall wait, token :: NoOrphans(Step(Step(s, Tick(wait)), JobSave(token))))
  }

  /** Removing a row is safe exactly if the queue has no jobs, no drafts and no copies: otherwise a job is
      stranded at once, or by one insert or save. */
  lemma DropIsSafeIff(s: State, e: Event, key: QueueKey)
    requires Orderly(s) && Anchored(s) && Removes(s, e, key)
    ensures Live(s, key) == {} <==> NoOrphans(Step(s, e)) && NextIsSafe(Step(s, e))
  {
    hide Step, Removes, Orderly, NextIsSafe;
    if Live(s, key) == {} {
      CleanDropIsSafe(s, e, key);
    } else {
      DirtyDropIsUnsafe(s, e, key);
    }
  }

  lemma CleanDropIsSafe(s: State, e: Event, key: QueueKey)
    requires Anchored(s) && Removes(s, e, key) && Live(s, key) == {}
    ensures NoOrphans(Step(s, e)) && NextIsSafe(Step(s, e))
  {
    hide Step, Removes, Live;
    OneRowRemoved(s, e, key);
    AnchoredStepIff(s, e);
    var t := Step(s, e);
    forall wait, id, token ensures NoOrphans(Step(Step(t, Tick(wait)), EnqueueInsert(id, token))) {
      StaysAnchored(t, wait, EnqueueInsert(id, token));
    }
    forall wait, token ensures NoOrphans(Step(Step(t, Tick(wait)), JobSave(token))) {
      StaysAnchored(t, wait, JobSave(token));
    }
  }

  lemma StaysAnchored(s: State, wait: nat, e: Event)
    requires Anchored(s) && (e.EnqueueInsert? || e.JobSave?)
    ensures NoOrphans(Step(Step(s, Tick(wait)), e))
  {
    hide Step, Removes, Live;
    InsertRemovesNothing(s, Tick(wait));
    AnchoredStepIff(s, Tick(wait));
    InsertRemovesNothing(Step(s, Tick(wait)), e);
    AnchoredStepIff(Step(s, Tick(wait)), e);
  }

  lemma DirtyDropIsUnsafe(s: State, e: Event, key: QueueKey)
    requires Orderly(s) && Removes(s, e, key) && Live(s, key) != {}
    ensures !(NoOrphans(Step(s, e)) && NextIsSafe(Step(s, e)))
  {
    hide Step, Removes, Orderly;
    var t := Step(s, e);
    RemovalFrame(s, e, key);
    RowMoves(s, e, key);
    StepOrderly(s, e);
    if JobsOf(s.jobs, key) != {} {
      var id :| id in JobsOf(s.jobs, key);
      assert id in t.jobs;
    } else if DraftsOf(s.requests, key) != {} {
      var id :| id in DraftsOf(s.requests, key);
      DraftIsUnsafe(t, id, key);
    } else {
      var id :| id in CopiedOf(s.copies, key);
      var token :| token in s.copies && KeyOf(s.copies[token].read) == key && s.copies[token].id == id;
      CopyIsUnsafe(t, token, key);
    }
  }

  lemma DraftIsUnsafe(s: State, id: JobId, key: QueueKey)
    requires Orderly(s) && id in DraftsOf(s.requests, key) && key !in s.queues && JobsOf(s.jobs, key) == {}
    ensures !NextIsSafe(s)
  {
    hide Step, Orderly;
    var token := NewToken(s.copies.Keys + s.visits.Keys);
    Waiting(s, 0);
    LateInsertStrands(Step(s, Tick(0)), id, token, key);
  }

  lemma CopyIsUnsafe(s: State, token: nat, key: QueueKey)
    requires Orderly(s) && token in HoldersOf(s.copies, key) && key !in s.queues && JobsOf(s.jobs, key) == {}
    ensures !NextIsSafe(s)
  {
    hide Step, Orderly;
    var wait := WaitFor(s, token);
    Waiting(s, wait);
    InTimeSaveable(s, token, wait);
    LateSaveStrands(Step(s, Tick(wait)), token, key);
  }

  lemma Waiting(s: State, wait: nat)
    requires Orderly(s)
    ensures Step(s, Tick(wait)) == s.(now := s.now + wait) && Orderly(Step(s, Tick(wait)))
  {
    hide Step, Orderly;
    StepOrderly(s, Tick(wait));
    StepOfSweep(s, Tick(wait));
  }

  /** In time every copy can be saved. */
  function WaitFor(s: State, token: nat): (wait: nat)
    requires token in s.copies
  {
    var j := s.copies[token].read;
    if j.scheduleAt.Some? && j.scheduleAt.value > s.now then j.scheduleAt.value - s.now else 0
  }

  lemma InTimeSaveable(s: State, token: nat, wait: nat)
    requires token in s.copies && wait >= WaitFor(s, token)
    ensures Saveable(s.(now := s.now + wait), s.copies[token])
  {
  }

  /** A token nobody uses. */
  lemma {:induction false} NewToken(used: set<nat>) returns (token: nat)
    ensures forall t :: t in used ==> t < token
    decreases |used|
  {
    if used == {} {
      token := 0;
    } else {
      var t :| t in used;
      token := NewToken(used - {t});
      token := if token <= t then t + 1 else token;
      assert forall x :: x in used ==> x == t || x in used - {t};
    }
  }

  lemma OneRowRemoved(s: State, e: Event, key: QueueKey)
    requires Removes(s, e, key)
    ensures forall k :: Removes(s, e, k) ==> k == key
  {
  }

  lemma InsertRemovesNothing(s: State, e: Event)
    requires e.EnqueueInsert? || e.JobSave? || e.Tick?
    ensures forall k :: !Removes(s, e, k)
  {
  }

  // ---- what a queue's cascade leaves ----

  ghost predicate Unlisted(s: State, key: QueueKey) {
    forall w :: w in s.workers && s.workers[w].project == key.project ==> key.name !in s.workers[w].queues
  }

  /** A worker that is there after a step was there before, listing no fewer queues, or has just
      registered past the guard. */
  lemma WorkerOrigin(s: State, e: Event, w: string)
    ensures
      var t := Step(s, e);
      w in t.workers ==>
        || (w in s.workers && t.workers[w].project == s.workers[w].project
            && forall n :: n in t.workers[w].queues ==> n in s.workers[w].queues)
        || (e.RegisterWorker? && MayRegister(s, e.project, e.names)
            && t.workers[w].project == e.project && t.workers[w].queues == e.names)
  {
    hide Step, Enabled, MayRegister;
    if RowEvent(e) {
      RowEventFrame(s, e);
    } else if EnqueueEvent(e) {
      EnqueueFrame(s, e);
    } else if e.RegisterWorker? {
      StepOfRegister(s, e);
    } else if e.DropStaleWorker? {
      StepOfDropStale(s, e);
    } else if RequestEvent(e) {
      EntryFrame(s, e);
    } else {
      CascadeWorkerOrigin(s, e, w);
    }
  }

  lemma CascadeWorkerOrigin(s: State, e: Event, w: string)
    requires QueueCascadeEvent(e) || TenantCascadeEvent(e)
    ensures
      var t := Step(s, e);
      w in t.workers ==>
        && w in s.workers && t.workers[w].project == s.workers[w].project
        && forall n :: n in t.workers[w].queues ==> n in s.workers[w].queues
  {
    hide Step, Enabled;
    if e.RequestDelete? {
      StepOfRequestDelete(s, e);
    } else if e.ForceCancel? {
      StepOfForceCancel(s, e);
    } else if e.DeleteBatch? {
      StepOfDeleteBatch(s, e);
    } else if QueueCascadeEvent(e) {
      StepOfCascade(s, e);
    } else if e.RequestDeleteTenant? || e.ResumeTenant? {
      StepOfTenantRequest(s, e);
    } else if e.TenantMark? {
      StepOfTenantMark(s, e);
    } else if e.TenantDeleteBatch? {
      StepOfTenantDeleteBatch(s, e);
    } else {
      StepOfTenantDrop(s, e);
    }
  }

  lemma UnlistedStep(s: State, e: Event, key: QueueKey)
    requires NamesSound(s) && IsDeleting(s, key) && Unlisted(s, key)
    ensures Unlisted(Step(s, e), key)
  {
    hide Step, TenantWritable;
    var t := Step(s, e);
    forall w | w in t.workers && t.workers[w].project == key.project ensures key.name !in t.workers[w].queues {
      WorkerOrigin(s, e, w);
      assert QueueKey(key.project, key.name) == key;
    }
  }

  lemma DetachUnlists(s: State, key: QueueKey)
    requires Enabled(s, Detach(key))
    ensures Unlisted(Step(s, Detach(key)), key)
  {
    hide Step;
    StepOfCascade(s, Detach(key));
  }

  lemma {:induction false} UnlistedOverRun(s: State, es: seq<Event>, key: QueueKey)
    requires Orderly(s) && Sealed(s, key) && RowStays(s, es, key) && Unlisted(s, key)
    ensures Unlisted(Run(s, es), key)
    decreases |es|
  {
    hide Step, Orderly, Unlisted, NoEdits, RowStays;
    if es != [] {
      RowStaysPrefix(s, es, key);
      UnlistedOverRun(s, es[..|es| - 1], key);
      BarrierOverRun(s, es[..|es| - 1], key);
      OrderlyNames(Run(s, es[..|es| - 1]));
      UnlistedStep(Run(s, es[..|es| - 1]), es[|es| - 1], key);
    }
  }

  lemma OrderlyNames(s: State)
    requires Orderly(s)
    ensures NamesSound(s)
  {
  }

  lemma RowStaysSplit(s: State, a: seq<Event>, b: seq<Event>, key: QueueKey)
    requires RowStays(s, a + b, key)
    ensures RowStays(s, a, key) && RowStays(Run(s, a), b, key)
  {
    hide Run;
    forall n | 0 <= n <= |a| ensures key in Run(s, a[..n]).queues {
      assert a[..n] == (a + b)[..n];
    }
    forall n | 0 <= n <= |b| ensures key in Run(Run(s, a), b[..n]).queues {
      assert a + b[..n] == (a + b)[..|a| + n];
      RunConcat(s, a, b[..n]);
    }
  }

  /** The state the cascade's last, empty delete batch leaves. */
  ghost function AfterLastBatch(s: State, limit: int, key: QueueKey): State {
    Step(s, DeleteBatch(key, limit, {}))
  }

  /** From the cascade's last batch on, all that can be or come into the queue is what was expected at
      that batch. */
  lemma LastBatchDecides(s: State, limit: int, es: seq<Event>, key: QueueKey)
    requires Orderly(s) && Sealed(s, key) && Enabled(s, DeleteBatch(key, limit, {}))
    requires RowStays(AfterLastBatch(s, limit, key), es, key)
    ensures Near(Run(AfterLastBatch(s, limit, key), es), key) <= Expected(s, key)
    ensures Sealed(Run(AfterLastBatch(s, limit, key), es), key)
  {
    hide Step, Enabled, Orderly, NoEdits, RowStays;
    var e := DeleteBatch(key, limit, {});
    StepOfDeleteBatch(s, e);
    var t := AfterLastBatch(s, limit, key);
    StepOrderly(s, e);
    SealedStep(s, e, key);
    assert Near(t, key) == Expected(s, key);
    BarrierOverRun(t, es, key);
  }

  /** If nothing was expected in the queue at the cascade's last batch, then whatever has happened in between
      the removal of its row is a clean step, and after it no job of the queue is left, none is still to
      come, and no worker lists it. */
  lemma DropRowLeavesNothing(s: State, limit: int, a: seq<Event>, b: seq<Event>, key: QueueKey)
    requires Orderly(s) && Sealed(s, key) && Enabled(s, DeleteBatch(key, limit, {}))
    requires Expected(s, key) == {}
    requires
      var t, es := AfterLastBatch(s, limit, key), a + [Detach(key)] + b;
      RowStays(t, es, key) && Enabled(Run(t, a), Detach(key)) && Enabled(Run(t, es), DropRow(key))
    ensures
      var u := Step(Run(AfterLastBatch(s, limit, key), a + [Detach(key)] + b), DropRow(key));
      key !in u.queues && Near(u, key) == {} && Unlisted(u, key)
    ensures CleanStep(Run(AfterLastBatch(s, limit, key), a + [Detach(key)] + b), DropRow(key))
  {
    hide Step, Enabled, Orderly, NoEdits, RowStays, Unlisted, Run, AfterLastBatch;
    var t, e := AfterLastBatch(s, limit, key), Detach(key);
    var es := a + [e] + b;
    LastBatchDecides(s, limit, es, key);
    var last := Run(t, es);
    assert Removes(last, DropRow(key), key);
    RemovalFrame(last, DropRow(key), key);
    LiveIsNear(last, key);
    OneRowRemoved(last, DropRow(key), key);
    BatchOrderly(s, limit, key);
    RowStaysSplit(t, a + [e], b, key);
    RowStaysSplit(t, a, [e], key);
    RunSnoc(t, a, e);
    DetachUnlists(Run(t, a), key);
    BarrierOverRun(t, a + [e], key);
    UnlistedOverRun(Run(t, a + [e]), b, key);
    RunConcat(t, a + [e], b);
    SameWorkersSameListing(last, Step(last, DropRow(key)), key);
  }

  lemma BatchOrderly(s: State, limit: int, key: QueueKey)
    requires Orderly(s) && Sealed(s, key)
    ensures Orderly(AfterLastBatch(s, limit, key)) && Sealed(AfterLastBatch(s, limit, key), key)
  {
    hide Step, Enabled, Orderly, NoEdits;
    var e := DeleteBatch(key, limit, {});
    StepOfDeleteBatch(s, e);
    StepOrderly(s, e);
    SealedStep(s, e, key);
  }

  lemma SameWorkersSameListing(s: State, t: State, key: QueueKey)
    requires t.workers == s.workers
    ensures Unlisted(s, key) <==> Unlisted(t, key)
  {
  }

  // ---- idempotency keys ----

  /** The rows the unique index leaves out. */
  ghost predicate NoKey(j: Job) {
    j.idempotencyKey.None? || j.idempotencyKey.value == ""
  }

  /** No two jobs of a queue carry the same idempotency key. */
  ghost predicate UniqueKeys(s: State) {
    forall a, b :: a in s.jobs && b in s.jobs && a != b && KeyOf(s.jobs[a]) == KeyOf(s.jobs[b]) ==>
      NoKey(s.jobs[a]) || s.jobs[a].idempotencyKey != s.jobs[b].idempotencyKey
  }

  lemma StepUniqueKeys(s: State, e: Event)
    requires UniqueKeys(s)
    ensures UniqueKeys(Step(s, e))
  {
    hide Step, Enabled, QueueWritable, Insertable;
    if e.EnqueueInsert? {
      InsertUniqueKeys(s, e);
    } else if e.JobSave? {
      SaveUniqueKeys(s, e);
    } else {
      forall id | id in Step(s, e).jobs ensures id in s.jobs && Step(s, e).jobs[id].SameIdentity(s.jobs[id]) {
        JobOrigin(s, e, id);
      }
    }
  }

  lemma SaveUniqueKeys(s: State, e: Event)
    requires UniqueKeys(s) && e.JobSave?
    ensures UniqueKeys(Step(s, e))
  {
    hide Step, Enabled, Change.Of, ByIdempotencyKey, CopiesSaved, Saveable;
    StepOfSave(s, e);
    if Enabled(s, e) {
      var c := s.copies[e.token];
      ChangeKeepsIdentity(c, s.now);
      forall other | other in s.jobs && other != c.id && KeyOf(s.jobs[other]) == KeyOf(c.read) && Storable(s, c)
        ensures NoKey(c.read) || c.read.idempotencyKey != s.jobs[other].idempotencyKey
      {
        SavedKeyIsNew(s, c, other);
      }
    }
  }

  lemma SavedKeyIsNew(s: State, c: Copy, other: JobId)
    requires UniqueKeys(s) && Storable(s, c) && (c.id in s.jobs ==> c.read.SameIdentity(s.jobs[c.id]))
    requires other in s.jobs && other != c.id && KeyOf(s.jobs[other]) == KeyOf(c.read)
    ensures NoKey(c.read) || c.read.idempotencyKey != s.jobs[other].idempotencyKey
  {
    if c.id in s.jobs {
      assert s.jobs[c.id].idempotencyKey == c.read.idempotencyKey;
    } else if c.read.idempotencyKey.Some? {
      assert other !in ByIdempotencyKey(s.jobs, KeyOf(c.read), c.read.idempotencyKey.value);
    }
  }

  lemma InsertUniqueKeys(s: State, e: Event)
    requires UniqueKeys(s) && e.EnqueueInsert?
    ensures UniqueKeys(Step(s, e))
  {
    hide Step, Enabled, ByIdempotencyKey;
    var id := e.id;
    JobsAfterInsert(s, e);
    if Enabled(s, e) && Insertable(s, id) {
      var r := s.requests[id];
      forall other | other in s.jobs && KeyOf(s.jobs[other]) == r.key
        ensures r.Row().idempotencyKey.None? || r.Row().idempotencyKey != s.jobs[other].idempotencyKey
      {
        KeyIsNew(s, id, other);
      }
    }
  }

  lemma KeyIsNew(s: State, id: JobId, other: JobId)
    requires Insertable(s, id) && other in s.jobs && KeyOf(s.jobs[other]) == s.requests[id].key
    ensures
      var key := s.requests[id].Row().idempotencyKey;
      key.None? || key != s.jobs[other].idempotencyKey
  {
    var r := s.requests[id];
    assert other !in ByIdempotencyKey(s.jobs, r.key, r.idempotencyKey);
  }

  /** An idempotency key names at most one job per queue in every run, whichever enqueues race: the
      unique index refuses the second insert. */
  lemma {:induction false} IdempotencyKeysUnique(s0: State, es: seq<Event>)
    requires Initial(s0)
    ensures UniqueKeys(Run(s0, es))
    decreases |es|
  {
    hide Step;
    if es != [] {
      IdempotencyKeysUnique(s0, es[..|es| - 1]);
      StepUniqueKeys(Run(s0, es[..|es| - 1]), es[|es| - 1]);
    }
  }
}
