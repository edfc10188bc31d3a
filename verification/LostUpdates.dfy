/** A handler reads a job, changes its copy and saves the whole row; a handler that has inserted or saved a
    waiting job publishes it and saves the whole row again.  What these saves can undo, and exactly when they
    cannot. */
module LostUpdates {
  import opened Wrappers
  import opened JobModel
  import opened QueueState
  import opened QueueSteps
  import opened StepEquations
  import opened JobHistory
  import opened JobGuarantees
  import opened CascadeSafety
  import opened Barrier
  import opened Stranding
  import opened BackoffLimit

  /** The step saves a copy of the job that is not what is stored now, and the save is not refused. */
  ghost predicate LosesUpdate(s: State, e: Event, id: JobId) {
    && e.JobSave? && Enabled(s, e) && e.token in s.copies && s.copies[e.token].id == id
    && Lookup(s, id) != Some(s.copies[e.token].read) && Storable(s, s.copies[e.token])
  }

  lemma OverwrittenIff(s: State, e: Event, id: JobId)
    ensures FateOf(s, e, id).Overwritten? <==> LosesUpdate(s, e, id)
  {
    hide Enabled, FateOf, Storable;
    OnlySavesOverwrite(s, e, id);
    if e.JobSave? && Enabled(s, e) && e.token in s.copies && s.copies[e.token].id == id {
      FateOfSaveEvent(s, e);
    }
  }

  /** A history is flagged exactly if, at some step of the run, a handler saved the job after it had
      changed, or gone, since that handler read, inserted or saved it. */
  lemma {:induction false} LostIff(s0: State, es: seq<Event>, id: JobId)
    ensures HistoryOf(s0, es, id).lost <==> exists n :: 0 <= n < |es| && LosesUpdate(Run(s0, es[..n]), es[n], id)
    decreases |es|
  {
    hide Run, FateOf, LosesUpdate;
    if es != [] {
      var init, e := es[..|es| - 1], es[|es| - 1];
      LostIff(s0, init, id);
      var s := Run(s0, init);
      OverwrittenIff(s, e, id);
      LostByRecord(HistoryOf(s0, init, id), FateOf(s, e, id), IsRunning(Lookup(s, id)), s.now);
      assert forall n :: 0 <= n < |init| ==> init[..n] == es[..n] && init[n] == es[n];
      if HistoryOf(s0, init, id).lost {
        var n :| 0 <= n < |init| && LosesUpdate(Run(s0, init[..n]), init[n], id);
        assert LosesUpdate(Run(s0, es[..n]), es[n], id);
      }
    }
  }

  lemma LostByRecord(h: History, f: Fate, running: bool, now: int)
    ensures Record(h, f, running, now).lost <==> h.lost || f.Overwritten?
  {
  }

  /** While a handler holds its copy, nothing is lost if no step in between changes the job's row. */
  lemma {:induction false} QuietSaveLosesNothing(s: State, es: seq<Event>, token: nat, id: JobId)
    requires token in s.copies && s.copies[token].id == id && Lookup(s, id) == Some(s.copies[token].read)
    requires forall n :: 0 <= n < |es| ==> FateOf(Run(s, es[..n]), es[n], id).Untouched?
    requires token in Run(s, es).copies && Run(s, es).copies[token] == s.copies[token]
    ensures !LosesUpdate(Run(s, es), JobSave(token), id)
  {
    hide Run, FateOf;
    RowStaysPut(s, es, id);
  }

  lemma {:induction false} RowStaysPut(s: State, es: seq<Event>, id: JobId)
    requires forall n :: 0 <= n < |es| ==> FateOf(Run(s, es[..n]), es[n], id).Untouched?
    ensures Lookup(Run(s, es), id) == Lookup(s, id)
    decreases |es|
  {
    hide Step, FateOf;
    if es != [] {
      var init, e := es[..|es| - 1], es[|es| - 1];
      forall n | 0 <= n < |init| ensures FateOf(Run(s, init[..n]), init[n], id).Untouched? {
        assert init[..n] == es[..n];
      }
      RowStaysPut(s, init, id);
      StepRow(Run(s, init), e, id);
    }
  }

  // ---- finality ----

  /** The job's row, if there is one, is the row it was. */
  ghost predicate Unchanged(s: State, t: State, id: JobId)
    requires id in s.jobs
  {
    id in t.jobs ==> t.jobs[id] == s.jobs[id]
  }

  /** A completed or cancelled row stays as it is, or is deleted, in every run from here exactly if no
      handler that has read, inserted or saved the job has still to save it. */
  lemma FinalHoldsIff(s: State, id: JobId)
    requires Orderly(s) && Final(s, id)
    ensures (forall es :: Unchanged(s, Run(s, es), id)) <==> NoCopies(s, id)
  {
    hide Run, Orderly, NoCopies;
    if NoCopies(s, id) {
      forall es ensures Unchanged(s, Run(s, es), id) {
        FinalStays(s, es, id);
      }
    } else {
      var es := SaveUndoes(s, id);
      assert !Unchanged(s, Run(s, es), id);
    }
  }

  lemma FinalStays(s: State, es: seq<Event>, id: JobId)
    requires Final(s, id) && NoCopies(s, id)
    ensures Unchanged(s, Run(s, es), id)
  {
    hide Run;
    FinalForever(s, es, id);
  }

  /** Time passes, and the copy is saved over the row. */
  lemma SaveUndoes(s: State, id: JobId) returns (es: seq<Event>)
    requires Orderly(s) && Final(s, id) && !NoCopies(s, id)
    ensures id in s.jobs && !Unchanged(s, Run(s, es), id)
  {
    hide Step, Orderly, Change.Of;
    var token :| token in s.copies && s.copies[token].id == id;
    var wait := WaitFor(s, token) + if s.jobs[id].updatedAt == s.now + WaitFor(s, token) then 1 else 0;
    es := [Tick(wait)] + [JobSave(token)];
    assert [] + [Tick(wait)] == [Tick(wait)] && [Tick(wait)][..0] == [];
    RunSnoc(s, [], Tick(wait));
    RunSnoc(s, [Tick(wait)], JobSave(token));
    SavedLater(s, token, wait);
  }

  lemma SavedLater(s: State, token: nat, wait: nat)
    requires Orderly(s) && token in s.copies && s.copies[token].id in s.jobs && wait >= WaitFor(s, token)
    ensures
      var t, id := Step(Step(s, Tick(wait)), JobSave(token)), s.copies[token].id;
      id in t.jobs && (t.jobs[id].updatedAt == s.now + wait || t.jobs[id].status.IsActive())
  {
    hide Step, Orderly, Change.Of, CopiesSaved;
    Waiting(s, wait);
    InTimeSaveable(s, token, wait);
    SavesGoThrough(Step(s, Tick(wait)), token);
    StepOfSave(Step(s, Tick(wait)), JobSave(token));
    StampedNow(s.copies[token], s.now + wait);
  }

  lemma StampedNow(c: Copy, now: int)
    ensures c.change.Of(c.read, now).updatedAt == now || c.change.Of(c.read, now).status.IsActive()
  {
    hide NackDelay;
  }

  // ---- a nack that arrives late ----

  /** The job claimed again after one reclaim, with a nack of its first claim still to be saved. */
  ghost function Reclaiming(m: int, now: int, j: Job): State {
    Holding(m, now, j).(copies := map[0 := JobCopy(ID, Working(m, 0), NACK)])
  }

  /** The nack of the first claim is read. */
  lemma FirstNackRead(m: int) returns (es: seq<Event>)
    requires m > 0
    ensures Run(Start(m), es) == Reclaiming(m, 0, Working(m, 0))
    ensures var h := HistoryOf(Start(m), es, ID); h.claims == 1 && h.retries == h.reclaims == 0
  {
    hide Step, FateOf, Run, HistoryOf;
    EnterRun(m);
    ClaimStep(m, 0, Idle(m, 0));
    es := ENTER;
    HistorySnoc(Start(m), es, CLAIM, ID);
    ReadSteps(m, 0);
    es := es + [CLAIM];
    HistorySnoc(Start(m), es, VISIT, ID);
    es := es + [VISIT];
    HistorySnoc(Start(m), es, READ, ID);
    es := es + [READ];
  }

  /** A worker's nack is read, its lease runs out, the job is claimed again, and the nack is saved: the
      second claim is gone and so is its attempt, though it neither ended nor counted. */
  lemma LateNackBreaksAccounting(m: int) returns (es: seq<Event>)
    requires m > 0
    ensures Initial(Start(m)) && HistoryOf(Start(m), es, ID).lost
    ensures
      var s, h := Run(Start(m), es), HistoryOf(Start(m), es, ID);
      && ID in s.jobs && s.jobs[ID].attempt == 1 && h.claims == 2
      && h.retries == 0 && h.reclaims == 1 && !s.jobs[ID].status.Running?
  {
    hide Step, FateOf, Run, HistoryOf, DefaultBackoff, Working, Idle;
    var s0 := Start(m);
    es := FirstNackRead(m);
    LateSteps(m);
    HistorySnoc(s0, es, Tick(2), ID);
    es := es + [Tick(2)];
    HistorySnoc(s0, es, Reclaim(1, {ID}), ID);
    es := es + [Reclaim(1, {ID})];
    HistorySnoc(s0, es, CLAIM, ID);
    es := es + [CLAIM];
    LateNackSaved(m);
    HistorySnoc(s0, es, SAVE, ID);
    es := es + [SAVE];
  }

  lemma LateSteps(m: int)
    ensures
      var s := Reclaiming(m, 0, Working(m, 0));
      && Step(s, Tick(2)) == Reclaiming(m, 2, Working(m, 0)) && FateOf(s, Tick(2), ID) == Untouched
      && Step(Reclaiming(m, 2, Working(m, 0)), Reclaim(1, {ID})) == Reclaiming(m, 2, Idle(m, 1))
      && FateOf(Reclaiming(m, 2, Working(m, 0)), Reclaim(1, {ID}), ID) == Reclaimed
      && Step(Reclaiming(m, 2, Idle(m, 1)), CLAIM) == Reclaiming(m, 2, Working(m, 1))
      && FateOf(Reclaiming(m, 2, Idle(m, 1)), CLAIM, ID) == Fate.Claimed("")
  {
    TickStep(Reclaiming(m, 0, Working(m, 0)));
    ReclaimBeside(m);
    ClaimBeside(m);
    hide *;
  }

  lemma ReclaimBeside(m: int)
    ensures
      var s := Reclaiming(m, 2, Working(m, 0));
      Step(s, Reclaim(1, {ID})) == Reclaiming(m, 2, Idle(m, 1)) && FateOf(s, Reclaim(1, {ID}), ID) == Reclaimed
  {
    hide Step;
    var s, e := Reclaiming(m, 2, Working(m, 0)), Reclaim(1, {ID});
    assert Expired(s) == {ID};
    StepOfReclaim(s, e);
    assert Enabled(s, e);
    assert UpdateRows(s.jobs, {ID}, j => SqlReclaimed(j, s.now)) == map[ID := Idle(m, 1)];
  }

  lemma ClaimBeside(m: int)
    ensures
      var s := Reclaiming(m, 2, Idle(m, 1));
      Step(s, CLAIM) == Reclaiming(m, 2, Working(m, 1)) && FateOf(s, CLAIM, ID) == Fate.Claimed("")
  {
    hide Step;
    var s := Reclaiming(m, 2, Idle(m, 1));
    assert Claimable(s, KEY) == {ID};
    StepOfClaim(s, CLAIM);
    assert Enabled(s, CLAIM);
    assert UpdateRows(s.jobs, {ID}, j => SqlClaimed(j, "", s.now)) == map[ID := Working(m, 1)];
  }

  lemma LateNackSaved(m: int)
    ensures
      var s := Reclaiming(m, 2, Working(m, 1));
      && FateOf(s, SAVE, ID).Overwritten?
      && ID in Step(s, SAVE).jobs && Step(s, SAVE).jobs[ID].attempt == 1 && !Step(s, SAVE).jobs[ID].status.Running?
  {
    hide Step, NackDelay;
    var s := Reclaiming(m, 2, Working(m, 1));
    StepOfSave(s, SAVE);
    FateOfSaveEvent(s, SAVE);
  }

  // ---- an enqueue that publishes late ----

  const ACK: Change := Completing("", "done")
  const ACK_VISIT: Event := JobVisit(1, KEY)
  const ACK_READ: Event := JobRead(1, KEY, ID, ACK)
  const ACK_SAVE: Event := JobSave(1)

  ghost function Acked(m: int): Job {
    AsCompleted(Working(m, 0), "done", 0)
  }

  /** The queue with this one job and these copies of it. */
  ghost function Beside(m: int, j: Job, copies: map<nat, Copy>): State {
    Holding(m, 0, j).(copies := copies)
  }

  /** What a history says after `k` claims that were all acked. */
  ghost predicate AckedTimes(h: History, k: nat) {
    h.claims == h.acks == k && h.retries == h.reclaims == h.deadLetters == h.cancels == h.revivals == 0
  }

  lemma AckSteps(m: int, copies: map<nat, Copy>)
    requires 1 !in copies
    ensures
      var s0 := Beside(m, Idle(m, 0), copies);
      var s1 := Beside(m, Working(m, 0), copies);
      var s2 := s1.(visits := map[1 := KEY]);
      var s3 := s1.(copies := copies[1 := JobCopy(ID, Working(m, 0), ACK)]);
      && Step(s0, CLAIM) == s1 && FateOf(s0, CLAIM, ID) == Fate.Claimed("")
      && Step(s1, ACK_VISIT) == s2 && FateOf(s1, ACK_VISIT, ID) == Untouched
      && Step(s2, ACK_READ) == s3 && FateOf(s2, ACK_READ, ID) == Untouched
      && Step(s3, ACK_SAVE) == Beside(m, Acked(m), copies) && FateOf(s3, ACK_SAVE, ID) == Fate.Acked("", "done")
  {
    AckClaim(m, copies);
    AckRead(m, copies);
    AckSave(m, copies);
    hide *;
  }

  lemma AckClaim(m: int, copies: map<nat, Copy>)
    ensures Step(Beside(m, Idle(m, 0), copies), CLAIM) == Beside(m, Working(m, 0), copies)
    ensures FateOf(Beside(m, Idle(m, 0), copies), CLAIM, ID) == Fate.Claimed("")
  {
    hide Step;
    var s := Beside(m, Idle(m, 0), copies);
    assert Claimable(s, KEY) == {ID};
    StepOfClaim(s, CLAIM);
    assert Enabled(s, CLAIM);
    assert UpdateRows(s.jobs, {ID}, j => SqlClaimed(j, "", s.now)) == map[ID := Working(m, 0)];
  }

  lemma AckRead(m: int, copies: map<nat, Copy>)
    requires 1 !in copies
    ensures
      var s := Beside(m, Working(m, 0), copies);
      var t := s.(visits := map[1 := KEY]);
      && Step(s, ACK_VISIT) == t && FateOf(s, ACK_VISIT, ID) == Untouched
      && Step(t, ACK_READ) == s.(copies := copies[1 := JobCopy(ID, Working(m, 0), ACK)])
      && FateOf(t, ACK_READ, ID) == Untouched
  {
    hide Step;
    var s := Beside(m, Working(m, 0), copies);
    StepOfVisit(s, ACK_VISIT);
    StepOfRead(s.(visits := map[1 := KEY]), ACK_READ);
  }

  lemma AckSave(m: int, copies: map<nat, Copy>)
    requires 1 !in copies
    ensures
      var s := Beside(m, Working(m, 0), copies[1 := JobCopy(ID, Working(m, 0), ACK)]);
      && Step(s, ACK_SAVE) == Beside(m, Acked(m), copies) && FateOf(s, ACK_SAVE, ID) == Fate.Acked("", "done")
  {
    hide Step;
    var s := Beside(m, Working(m, 0), copies[1 := JobCopy(ID, Working(m, 0), ACK)]);
    StepOfSave(s, ACK_SAVE);
    FateOfSaveEvent(s, ACK_SAVE);
    assert Without(s.copies, {1}) == copies;
  }

  /** Claimed and acked. */
  lemma AckRound(s0: State, es: seq<Event>, m: int, copies: map<nat, Copy>, k: nat) returns (fs: seq<Event>)
    requires Run(s0, es) == Beside(m, Idle(m, 0), copies) && 1 !in copies && AckedTimes(HistoryOf(s0, es, ID), k)
    ensures Run(s0, fs) == Beside(m, Acked(m), copies) && AckedTimes(HistoryOf(s0, fs, ID), k + 1)
    ensures HistoryOf(s0, es, ID).lost ==> HistoryOf(s0, fs, ID).lost
  {
    hide Step, FateOf, Run, HistoryOf;
    AckSteps(m, copies);
    HistorySnoc(s0, es, CLAIM, ID);
    fs := es + [CLAIM];
    HistorySnoc(s0, fs, ACK_VISIT, ID);
    fs := fs + [ACK_VISIT];
    HistorySnoc(s0, fs, ACK_READ, ID);
    fs := fs + [ACK_READ];
    HistorySnoc(s0, fs, ACK_SAVE, ID);
    fs := fs + [ACK_SAVE];
  }

  /** An enqueue inserts a job and publishes it; meanwhile the job is claimed and completed; then the enqueue
      saves its own row, and the completed job is waiting again, its attempt and its result forgotten. */
  lemma EnqueueUndoesAck(m: int) returns (es: seq<Event>)
    requires m > 0
    ensures Initial(Start(m)) && HistoryOf(Start(m), es, ID).lost && AckedTimes(HistoryOf(Start(m), es, ID), 1)
    ensures Run(Start(m), es) == Holding(m, 0, Idle(m, 0))
  {
    hide Step, FateOf, Run, HistoryOf;
    var copies := map[0 := JobCopy(ID, Idle(m, 0), Republishing)];
    es := Inserted(m);
    es := AckRound(Start(m), es, m, copies, 0);
    PublishSteps(m);
    HistorySnoc(Start(m), es, SAVE, ID);
    es := es + [SAVE];
  }

  /** So the job is completed twice. */
  lemma CompletedTwice(m: int) returns (es: seq<Event>)
    requires m > 0
    ensures Initial(Start(m)) && HistoryOf(Start(m), es, ID).acks == 2
    ensures Run(Start(m), es).jobs == map[ID := Acked(m)] && Acked(m).attempt == 1
  {
    hide Run, HistoryOf;
    es := EnqueueUndoesAck(m);
    es := AckRound(Start(m), es, m, map[], 1);
  }

  lemma Inserted(m: int) returns (es: seq<Event>)
    requires m > 0
    ensures Run(Start(m), es) == Entered(m) && AckedTimes(HistoryOf(Start(m), es, ID), 0)
  {
    hide Step, FateOf, Run, HistoryOf;
    var s0 := Start(m);
    EnterSteps(m);
    es := [];
    RunNothing(s0);
    BlankHistory(s0);
    HistorySnoc(s0, es, ENTER[0], ID);
    es := es + [ENTER[0]];
    HistorySnoc(s0, es, ENTER[1], ID);
    es := es + [ENTER[1]];
    HistorySnoc(s0, es, ENTER[2], ID);
    es := es + [ENTER[2]];
  }

  lemma BlankHistory(s: State)
    ensures HistoryOf(s, [], ID) == Unborn
  {
  }

  lemma PublishSteps(m: int)
    ensures
      var s := Beside(m, Acked(m), map[0 := JobCopy(ID, Idle(m, 0), Republishing)]);
      FateOf(s, SAVE, ID) == Overwritten(Idle(m, 0)) && Step(s, SAVE) == Holding(m, 0, Idle(m, 0))
  {
    hide Step;
    var s := Beside(m, Acked(m), map[0 := JobCopy(ID, Idle(m, 0), Republishing)]);
    StepOfSave(s, SAVE);
    FateOfSaveEvent(s, SAVE);
  }
}
