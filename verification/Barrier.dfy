/** The write barrier.

    A request passes the barrier, and only later writes.  So the barrier alone keeps nothing out: what
    it gives is that, once a queue is deleting, no further request gets past it.  This module proves
    how what is past it dwindles, and exactly when a deleting queue stays deleting. */
module Barrier {
  import opened Wrappers
  import opened JobModel
  import opened QueueState
  import opened QueueSteps
  import opened StepEquations
  import opened JobHistory
  import opened CascadeSafety

  // ---- what is in a queue, and what may still come ----

  /** The jobs whose insert into the queue, or whose save by a handler, comes next. */
  ghost function Incoming(s: State, key: QueueKey): set<JobId> {
    DraftsOf(s.requests, key) + CopiedOf(s.copies, key)
  }

  /** The queue's jobs, and those an insert or a save would put into it. */
  ghost function Live(s: State, key: QueueKey): set<JobId> {
    JobsOf(s.jobs, key) + Incoming(s, key)
  }

  /** All that may still come into a deleting queue: besides the incoming jobs, those of enqueues that found
      no queue and are about to create it. */
  ghost function Expected(s: State, key: QueueKey): set<JobId> {
    ComingOf(s.requests, key) + CopiedOf(s.copies, key)
  }

  ghost function Near(s: State, key: QueueKey): set<JobId> {
    JobsOf(s.jobs, key) + Expected(s, key)
  }

  lemma LiveIsNear(s: State, key: QueueKey)
    ensures Live(s, key) <= Near(s, key) && Incoming(s, key) <= Expected(s, key)
  {
  }

  /** How often a job can still be deleted from a queue the guard lets nothing more into: the jobs, and the
      inserts and saves to come.  An insert may be followed by one save, and the first save of a handler that
      publishes by another; a handler that has still to read its job may save it twice. */
  ghost function Load(s: State, key: QueueKey): nat {
    |JobsOf(s.jobs, key)| + 2 * |ComingOf(s.requests, key)|
    + |HoldersOf(s.copies, key)| + |PublishersOf(s.copies, key)| + 2 * |VisitorsOf(s.visits, key)|
  }

  ghost predicate IsDeleting(s: State, key: QueueKey) {
    key in s.queues && s.queues[key].status.Deleting?
  }

  /** No config update that read the queue's row has still to save it. */
  ghost predicate NoEdits(s: State, key: QueueKey) {
    forall token :: !EditOf(s, token, key)
  }

  ghost predicate Sealed(s: State, key: QueueKey) {
    IsDeleting(s, key) && NoEdits(s, key)
  }

  lemma HeldIsCopied(copies: map<nat, Copy>, token: nat, key: QueueKey)
    requires token in copies && KeyOf(copies[token].read) == key
    ensures copies[token].id in CopiedOf(copies, key)
  {
  }

  // ---- where they come from ----

  /** A job in the queue was there before, or has just come in by its insert or by a save. */
  lemma JobEnters(s: State, e: Event, key: QueueKey, id: JobId)
    ensures id in JobsOf(Step(s, e).jobs, key) ==>
              || id in JobsOf(s.jobs, key)
              || (InsertsJob(s, e, id) && id in DraftsOf(s.requests, key))
              || (Saves(s, e, id) && Enabled(s, e) && e.token in HoldersOf(s.copies, key)
                  && id in CopiedOf(s.copies, key))
  {
    hide Step, Enabled, Inserts, Job.WellShaped, CopiedOf;
    JobOrigin(s, e, id);
    DisabledStays(s, e);
    if Saves(s, e, id) && KeyOf(s.copies[e.token].read) == key { HeldIsCopied(s.copies, e.token, key); }
    if InsertsJob(s, e, id) { InsertsDraft(s, e); }
  }

  lemma InsertsDraft(s: State, e: Event)
    requires Inserts(s, e)
    ensures e.id in s.requests && s.requests[e.id].Drafted? && KeyOf(s.requests[e.id].Row()) == s.requests[e.id].key
  {
    hide Enabled;
  }

  lemma DisabledStays(s: State, e: Event)
    ensures !Enabled(s, e) ==> Step(s, e) == s
  {
    hide Enabled, Apply;
  }

  /** A copied job was copied before, or is read, or inserted. */
  lemma CopiedEnters(s: State, e: Event, key: QueueKey, id: JobId)
    ensures id in CopiedOf(Step(s, e).copies, key) ==>
              id in CopiedOf(s.copies, key) || id in JobsOf(s.jobs, key) || id in DraftsOf(s.requests, key)
  {
    hide Step, CopyComes;
    var t := Step(s, e);
    forall token | token in t.copies && KeyOf(t.copies[token].read) == key
      ensures
        var i := t.copies[token].id;
        i in CopiedOf(s.copies, key) || i in JobsOf(s.jobs, key) || i in DraftsOf(s.requests, key)
    {
      CopyOrigin(s, e, token);
      OneCopyEnters(s, e, key, token, t.copies[token]);
    }
  }

  lemma OneCopyEnters(s: State, e: Event, key: QueueKey, token: nat, c: Copy)
    requires CopyComes(s, e, token, c) && KeyOf(c.read) == key
    ensures c.id in CopiedOf(s.copies, key) || c.id in JobsOf(s.jobs, key) || c.id in DraftsOf(s.requests, key)
  {
    hide Enabled, Inserts, ReadAllowed, Request.Row;
    if e.EnqueueInsert? && Inserts(s, e) { InsertsDraft(s, e); }
  }

  /** What comes to be alive finds its queue there. */
  lemma LiveOrigin(s: State, e: Event, key: QueueKey, id: JobId)
    ensures id in Live(Step(s, e), key) ==> id in Live(s, key) || key in Step(s, e).queues
  {
    hide Step, Enabled, QueueWritable, CopiedOf, InsertsJob;
    JobEnters(s, e, key, id);
    RequestOrigin(s, e, id);
    CopiedEnters(s, e, key, id);
  }

  lemma NearOrigin(s: State, e: Event, key: QueueKey, id: JobId)
    requires NamesSound(s)
    ensures id in Near(Step(s, e), key) ==> id in Near(s, key) || !IsDeleting(s, key)
    ensures id in ComingOf(Step(s, e).requests, key) ==> id in ComingOf(s.requests, key) || !IsDeleting(s, key)
  {
    hide Step, Enabled, QueueWritable, CopiedOf, InsertsJob;
    JobEnters(s, e, key, id);
    RequestOrigin(s, e, id);
    CopiedEnters(s, e, key, id);
  }

  // ---- the barrier of a queue ----

  /** While a queue is deleting no step adds to what is near it, and a job enters it only from a draft or a
      copy. */
  lemma BarrierStep(s: State, e: Event, key: QueueKey)
    requires NamesSound(s) && IsDeleting(s, key)
    ensures Near(Step(s, e), key) <= Near(s, key)
    ensures forall id :: id in JobsOf(Step(s, e).jobs, key) ==>
              || id in JobsOf(s.jobs, key)
              || (InsertsJob(s, e, id) && id in DraftsOf(s.requests, key))
              || (Saves(s, e, id) && id in CopiedOf(s.copies, key))
  {
    hide Step, Near, JobsOf, DraftsOf, CopiedOf, Enabled, InsertsJob, HoldersOf;
    forall id
      ensures id in Near(Step(s, e), key) ==> id in Near(s, key)
      ensures id in JobsOf(Step(s, e).jobs, key) ==>
                || id in JobsOf(s.jobs, key)
                || (InsertsJob(s, e, id) && id in DraftsOf(s.requests, key))
                || (Saves(s, e, id) && id in CopiedOf(s.copies, key))
    {
      NearOrigin(s, e, key, id);
      JobEnters(s, e, key, id);
    }
  }

  // ---- how much can still come ----

  ghost predicate InsertsInto(s: State, e: Event, key: QueueKey) {
    e.EnqueueInsert? && Inserts(s, e) && e.id in DraftsOf(s.requests, key)
  }

  ghost predicate SavesInto(s: State, e: Event, key: QueueKey) {
    e.JobSave? && Enabled(s, e) && e.token in HoldersOf(s.copies, key)
  }

  ghost predicate SavesOn(s: State, e: Event, key: QueueKey) {
    SavesInto(s, e, key) && GoesOn(s, s.copies[e.token])
  }

  ghost predicate ReadsFrom(s: State, e: Event, key: QueueKey) {
    e.JobRead? && Enabled(s, e) && e.token in VisitorsOf(s.visits, key)
  }

  function One(b: bool): nat {
    if b then 1 else 0
  }

  /** A step that brings a job into a deleting queue uses up what let it in. */
  lemma LoadStep(s: State, e: Event, key: QueueKey)
    requires NamesSound(s) && IsDeleting(s, key)
    ensures Load(Step(s, e), key) <= Load(s, key)
    ensures e.DeleteBatch? && e.key == key && e.picked != {} && Enabled(s, e) ==> Load(Step(s, e), key) < Load(s, key)
  {
    hide Step, Enabled, JobsOf, ComingOf, HoldersOf, PublishersOf, VisitorsOf, InsertsInto, SavesInto, ReadsFrom, GoesOn;
    JobsBounded(s, e, key);
    ComingBounded(s, e, key);
    HoldersBounded(s, e, key);
    PublishersBounded(s, e, key);
    VisitorsBounded(s, e, key);
  }

  lemma JobsBounded(s: State, e: Event, key: QueueKey)
    ensures
      var before, after := JobsOf(s.jobs, key), JobsOf(Step(s, e).jobs, key);
      && |after| <= |before| + One(InsertsInto(s, e, key)) + One(SavesInto(s, e, key))
      && (e.DeleteBatch? && e.key == key && e.picked != {} && Enabled(s, e) ==> |after| < |before|)
  {
    hide Step, Enabled, JobsOf, DraftsOf, HoldersOf, Inserts;
    var before, after := JobsOf(s.jobs, key), JobsOf(Step(s, e).jobs, key);
    if after <= before {
      SubsetSize(after, before);
    } else {
      var id :| id in after && id !in before;
      forall other | other in after ensures other in before + {id} {
        JobEnters(s, e, key, id);
        JobEnters(s, e, key, other);
      }
      JobEnters(s, e, key, id);
      SubsetSize(after, before + {id});
    }
    if e.DeleteBatch? && e.key == key && e.picked != {} && Enabled(s, e) {
      BatchTakes(s, e);
    }
  }

  lemma ComingBounded(s: State, e: Event, key: QueueKey)
    requires NamesSound(s) && IsDeleting(s, key)
    ensures |ComingOf(Step(s, e).requests, key)| + One(InsertsInto(s, e, key)) <= |ComingOf(s.requests, key)|
  {
    hide Step, Enabled, NamesSound, IsDeleting, Near;
    var before, after := ComingOf(s.requests, key), ComingOf(Step(s, e).requests, key);
    forall id | id in after ensures id in before {
      NearOrigin(s, e, key, id);
    }
    SubsetSize(after, before);
    if InsertsInto(s, e, key) {
      InsertTouches(s, e);
      assert e.id in before && e.id !in after;
    }
  }

  ghost function TokenOf(e: Event): nat {
    if e.EnqueueInsert? || JobEvent(e) then e.token else 0
  }

  lemma HoldersBounded(s: State, e: Event, key: QueueKey)
    requires NamesSound(s) && IsDeleting(s, key)
    ensures |HoldersOf(Step(s, e).copies, key)| + One(SavesInto(s, e, key))
            <= |HoldersOf(s.copies, key)| + One(InsertsInto(s, e, key)) + One(SavesOn(s, e, key))
               + One(ReadsFrom(s, e, key))
  {
    hide Step, Enabled, InsertsInto, SavesInto, SavesOn, ReadsFrom, HoldersOf, TokenOf;
    var before, after := HoldersOf(s.copies, key), HoldersOf(Step(s, e).copies, key);
    forall token | token in after && token !in before
      ensures (InsertsInto(s, e, key) || ReadsFrom(s, e, key)) && token == TokenOf(e)
    {
      HolderEnters(s, e, key, token);
    }
    if InsertsInto(s, e, key) || ReadsFrom(s, e, key) {
      NotBoth(s, e, key);
      SubsetSize(after, before + {TokenOf(e)});
    } else {
      SubsetSize(after, before);
      if SavesInto(s, e, key) && !SavesOn(s, e, key) {
        SaverLeaves(s, e, key);
        SubsetSize(after, before - {TokenOf(e)});
      }
    }
  }

  lemma NotBoth(s: State, e: Event, key: QueueKey)
    requires InsertsInto(s, e, key) || ReadsFrom(s, e, key)
    ensures !SavesInto(s, e, key) && !SavesOn(s, e, key)
  {
    hide Enabled, Inserts;
  }

  lemma SaverLeaves(s: State, e: Event, key: QueueKey)
    requires SavesInto(s, e, key) && !SavesOn(s, e, key)
    ensures TokenOf(e) in HoldersOf(s.copies, key) && TokenOf(e) !in HoldersOf(Step(s, e).copies, key)
  {
    hide Step, Enabled, GoesOn, JobsSaved, CopiesSaved;
    StepOfSave(s, e);
    CopiesAfterSave(s, e.token);
  }

  lemma HolderEnters(s: State, e: Event, key: QueueKey, token: nat)
    requires NamesSound(s) && IsDeleting(s, key)
    requires token in HoldersOf(Step(s, e).copies, key) && token !in HoldersOf(s.copies, key)
    ensures (InsertsInto(s, e, key) || ReadsFrom(s, e, key)) && token == TokenOf(e)
  {
    hide Step, CopyComes, InsertsInto, ReadsFrom, NamesSound, IsDeleting;
    CopyOrigin(s, e, token);
    HolderComes(s, e, key, token, Step(s, e).copies[token]);
  }

  lemma HolderComes(s: State, e: Event, key: QueueKey, token: nat, c: Copy)
    requires NamesSound(s) && IsDeleting(s, key)
    requires CopyComes(s, e, token, c) && KeyOf(c.read) == key && token !in HoldersOf(s.copies, key)
    ensures (InsertsInto(s, e, key) || ReadsFrom(s, e, key)) && token == TokenOf(e)
  {
    hide Enabled, Inserts, Request.Row;
    if e.EnqueueInsert? && Inserts(s, e) { InsertsDraft(s, e); }
  }

  lemma PublishersBounded(s: State, e: Event, key: QueueKey)
    requires NamesSound(s) && IsDeleting(s, key)
    ensures |PublishersOf(Step(s, e).copies, key)| + One(SavesOn(s, e, key))
            <= |PublishersOf(s.copies, key)| + One(ReadsFrom(s, e, key))
  {
    hide Step, Enabled, SavesOn, ReadsFrom, PublishersOf, TokenOf;
    var before, after := PublishersOf(s.copies, key), PublishersOf(Step(s, e).copies, key);
    forall token | token in after && token !in before ensures ReadsFrom(s, e, key) && token == TokenOf(e) {
      PublisherEnters(s, e, key, token);
    }
    if ReadsFrom(s, e, key) {
      NotBoth(s, e, key);
      SubsetSize(after, before + {TokenOf(e)});
    } else {
      SubsetSize(after, before);
      if SavesOn(s, e, key) {
        PublisherGoesOn(s, e, key);
        SubsetSize(after, before - {TokenOf(e)});
      }
    }
  }

  lemma PublisherEnters(s: State, e: Event, key: QueueKey, token: nat)
    requires NamesSound(s) && IsDeleting(s, key)
    requires token in PublishersOf(Step(s, e).copies, key) && token !in PublishersOf(s.copies, key)
    ensures ReadsFrom(s, e, key) && token == TokenOf(e)
  {
    hide Step, CopyMove, ReadsFrom, NamesSound, IsDeleting, Change.Publishes;
    CopyMoves(s, e, token);
    PublisherComes(s, e, key, token, Step(s, e).copies[token]);
  }

  lemma PublisherComes(s: State, e: Event, key: QueueKey, token: nat, c: Copy)
    requires NamesSound(s) && IsDeleting(s, key)
    requires CopyMove(s, e, token, c) && KeyOf(c.read) == key && c.change.Publishes(c.read)
    requires token !in PublishersOf(s.copies, key)
    ensures ReadsFrom(s, e, key) && token == TokenOf(e)
  {
    hide Enabled, Inserts, Request.Row, GoesOn, GoesAhead, Change.Of;
    if ReadsCopy(s, e, token, c) { ReadIsAllowed(s, e); }
  }

  lemma PublisherGoesOn(s: State, e: Event, key: QueueKey)
    requires SavesOn(s, e, key)
    ensures TokenOf(e) in PublishersOf(s.copies, key) && TokenOf(e) !in PublishersOf(Step(s, e).copies, key)
  {
    hide Step, Enabled, Storable, JobsSaved, CopiesSaved, Change.Of;
    StepOfSave(s, e);
    CopiesAfterSave(s, e.token);
  }

  lemma VisitorsBounded(s: State, e: Event, key: QueueKey)
    requires NamesSound(s) && IsDeleting(s, key)
    ensures |VisitorsOf(Step(s, e).visits, key)| + One(ReadsFrom(s, e, key)) <= |VisitorsOf(s.visits, key)|
  {
    hide Step, Enabled;
    var before, after := VisitorsOf(s.visits, key), VisitorsOf(Step(s, e).visits, key);
    forall token | token in after ensures token in before {
      VisitOrigin(s, e, token);
    }
    SubsetSize(after, before);
    if ReadsFrom(s, e, key) {
      VisitsAfterRead(s, e);
      assert e.token in before && e.token !in after;
    }
  }

  lemma BatchTakes(s: State, e: Event)
    requires e.DeleteBatch? && e.picked != {} && Enabled(s, e)
    ensures |JobsOf(Step(s, e).jobs, e.key)| < |JobsOf(s.jobs, e.key)|
  {
    hide Step, Enabled;
    var before, after := JobsOf(s.jobs, e.key), JobsOf(Step(s, e).jobs, e.key);
    StepOfDeleteBatch(s, e);
    var id :| id in e.picked;
    assert id in before && id !in after;
    SubsetSize(after, before);
  }

  /** A deleting queue whose row stays is deleting after a step exactly if the step is not the save of a
      config update that had read the row before. */
  lemma DeletingPersistsIff(s: State, e: Event, key: QueueKey)
    requires Orderly(s) && IsDeleting(s, key) && key in Step(s, e).queues
    ensures IsDeleting(Step(s, e), key) <==> !(e.UpdateSave? && EditOf(s, e.token, key))
  {
    hide Step, Enabled, IdsSound, CopiesSound, NamesSound, QueueCascadesSound, TenantCascadesSound;
    RowMoves(s, e, key);
  }

  lemma SealedStep(s: State, e: Event, key: QueueKey)
    requires Sealed(s, key) && key in Step(s, e).queues
    ensures Sealed(Step(s, e), key)
  {
    hide Step, Enabled, Removes;
    RowMoves(s, e, key);
    if UpdateEvent(e) {
      StepOfUpdate(s, e);
    } else {
      OthersKeepEdits(s, e);
    }
    forall token ensures !EditOf(Step(s, e), token, key) {
      assert !EditOf(s, token, key);
    }
  }

  /** The queue's row is there after every prefix of the run. */
  ghost predicate RowStays(s: State, es: seq<Event>, key: QueueKey) {
    forall n :: 0 <= n <= |es| ==> key in Run(s, es[..n]).queues
  }

  lemma RowStaysPrefix(s: State, es: seq<Event>, key: QueueKey)
    requires es != [] && RowStays(s, es, key)
    ensures RowStays(s, es[..|es| - 1], key)
    ensures key in Run(s, es).queues
  {
    hide Run;
    var init := es[..|es| - 1];
    forall n | 0 <= n <= |init| ensures key in Run(s, init[..n]).queues {
      assert init[..n] == es[..n];
    }
    assert es[..|es|] == es;
  }

  /** The non-empty delete batches the cascade of `key` executes in a run. */
  ghost function Batches(s: State, es: seq<Event>, key: QueueKey): nat {
    if es == [] then 0
    else
      var e := es[|es| - 1];
      Batches(s, es[..|es| - 1], key)
      + (if e.DeleteBatch? && e.key == key && e.picked != {} && Enabled(Run(s, es[..|es| - 1]), e) then 1 else 0)
  }

  /** From the moment a queue is deleting and no config update of its row is under way, and until the row
      goes, what is near it only dwindles, and every non-empty batch takes one away from its load. */
  lemma {:induction false} BarrierOverRun(s: State, es: seq<Event>, key: QueueKey)
    requires Orderly(s) && Sealed(s, key) && RowStays(s, es, key)
    ensures Orderly(Run(s, es)) && Sealed(Run(s, es), key)
    ensures Near(Run(s, es), key) <= Near(s, key)
    ensures Batches(s, es, key) + Load(Run(s, es), key) <= Load(s, key)
    decreases |es|
  {
    hide Step, Enabled, Near, Load, NoEdits;
    if es != [] {
      var init, e := es[..|es| - 1], es[|es| - 1];
      var t := Run(s, init);
      RowStaysPrefix(s, es, key);
      BarrierOverRun(s, init, key);
      StepOrderly(t, e);
      SealedStep(t, e, key);
      BarrierStep(t, e, key);
      LoadStep(t, e, key);
    }
  }

  /** A deleting queue stays deleting in every run in which its row stays, exactly if no config update
      that had read the row is under way. */
  lemma DeletingHoldsIff(s: State, key: QueueKey)
    requires Orderly(s) && IsDeleting(s, key)
    ensures (forall es :: RowStays(s, es, key) ==> IsDeleting(Run(s, es), key)) <==> NoEdits(s, key)
  {
    hide Step, Orderly, EditOf, RowStays;
    if NoEdits(s, key) {
      forall es | RowStays(s, es, key) ensures IsDeleting(Run(s, es), key) {
        BarrierOverRun(s, es, key);
      }
    } else {
      var token :| EditOf(s, token, key);
      SaveRevives(s, token, key);
      assert RowStays(s, [UpdateSave(token)], key);
    }
  }

  lemma SaveRevives(s: State, token: nat, key: QueueKey)
    requires Orderly(s) && IsDeleting(s, key) && EditOf(s, token, key)
    ensures RowStays(s, [UpdateSave(token)], key) && !IsDeleting(Run(s, [UpdateSave(token)]), key)
  {
    hide Step, Orderly;
    var e := UpdateSave(token);
    RowMoves(s, e, key);
    RunSnoc(s, [], e);
    assert [] + [e] == [e] && [e][..0] == [] && [e][..1] == [e];
    DeletingPersistsIff(s, e, key);
  }
}
