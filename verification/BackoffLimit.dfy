/** The exact reach of the quadratic back-off: it holds over all runs for a given MaxAttempts if and
    only if the last default delay a job can be given does not overflow. */
module BackoffLimit {
  import opened Wrappers
  import opened JobModel
  import opened QueueState
  import opened QueueSteps
  import opened StepEquations
  import opened JobHistory
  import opened JobGuarantees

  /** At this point of the run the job is claimed again, after default nacks only and no lost update. */
  ghost predicate ClaimedAgain(s0: State, es: seq<Event>, e: Event, id: JobId, maxAttempts: int) {
    && Initial(s0) && FateOf(Run(s0, es), e, id).Claimed?
    && HistoryOf(s0, es, id).quadratic && HistoryOf(s0, es, id).claims > 0 && !HistoryOf(s0, es, id).lost
    && HistoryOf(s0, es, id).firstClaim.Some?
    && id in Run(s0, es).jobs && Run(s0, es).jobs[id].maxAttempts == maxAttempts
  }

  /** After k retries at least k(k+1)(2k+1)/6 minutes have passed since the first claim. */
  ghost predicate WaitedLongEnough(s0: State, es: seq<Event>, id: JobId)
    requires HistoryOf(s0, es, id).firstClaim.Some?
  {
    var h := HistoryOf(s0, es, id);
    6 * (Run(s0, es).now - h.firstClaim.value) >= h.retries * (h.retries + 1) * (2 * h.retries + 1) * MINUTE
  }

  ghost predicate BackoffHolds(maxAttempts: int) {
    forall s0, es, e, id :: ClaimedAgain(s0, es, e, id, maxAttempts) ==> WaitedLongEnough(s0, es, id)
  }

  // ---- a run that breaks it ----

  const KEY: QueueKey := QueueKey(1, "q")
  const ID: JobId := "j"
  const CLAIM: Event := Claim(KEY, "", 1, {ID})
  const NACK: Change := Failing("", "", 0)
  const VISIT: Event := JobVisit(0, KEY)
  const READ: Event := JobRead(0, KEY, ID, NACK)
  const SAVE: Event := JobSave(0)
  const GIVE_UP: Event := JobAbandon(0)

  /** One tenant with one queue, whose leases last one tick. */
  ghost function Start(m: int): State {
    State(0, map[], map[KEY := Queue(0, Active, 1, m)], map[1 := Active], map[], map[], map[], map[], map[], map[],
          map[], 1, {})
  }

  /** The job, pending, after `k` claims that were all reclaimed. */
  ghost function Idle(m: int, k: nat): Job {
    NewJob(1, "q", "", "", m, None, 0).(attempt := k, updatedAt := 2 * k)
  }

  ghost function Working(m: int, k: nat): Job {
    Idle(m, k).(status := Status.Running, attempt := k + 1, startedAt := Some(2 * k), updatedAt := 2 * k)
  }

  ghost function Holding(m: int, now: int, j: Job): State {
    Start(m).(now := now, jobs := map[ID := j], issued := {ID})
  }

  /** The job is enqueued; its handler fails to publish it. */
  const ENTER: seq<Event> :=
    [EnqueueAdmit(ID, KEY, "", "", None, 0), EnqueueDraft(ID), EnqueueInsert(ID, 0), GIVE_UP]

  ghost function Rounds(k: nat): seq<Event> {
    if k == 0 then ENTER else Rounds(k - 1) + [CLAIM] + [Tick(2)] + [Reclaim(1, {ID})]
  }

  /** What the history of the job says after `k` claims that were all reclaimed. */
  ghost predicate Claimed(h: History, k: nat) {
    && h.claims == h.reclaims == k && h.retries == 0 && h.quadratic && !h.lost
    && h.firstClaim == if k == 0 then None else Some(0)
  }

  lemma HistorySnoc(s0: State, es: seq<Event>, e: Event, id: JobId)
    ensures HistoryOf(s0, es + [e], id) ==
            Record(HistoryOf(s0, es, id), FateOf(Run(s0, es), e, id), IsRunning(Lookup(Run(s0, es), id)), Run(s0, es).now)
    ensures Run(s0, es + [e]) == Step(Run(s0, es), e)
  {
    hide Step, FateOf, Record;
    assert (es + [e])[..|es|] == es;
  }

  lemma ClaimStep(m: int, now: int, j: Job)
    requires KeyOf(j) == KEY && SqlClaimable(j, now)
    ensures FateOf(Holding(m, now, j), CLAIM, ID) == Fate.Claimed("")
    ensures Step(Holding(m, now, j), CLAIM) == Holding(m, now, SqlClaimed(j, "", now))
  {
    hide SqlClaimed;
    var s := Holding(m, now, j);
    assert Claimable(s, KEY) == {ID};
    StepOfClaim(s, CLAIM);
    assert Enabled(s, CLAIM);
    assert UpdateRows(s.jobs, {ID}, j => SqlClaimed(j, "", s.now)) == map[ID := SqlClaimed(j, "", now)];
  }

  lemma TickStep(s: State)
    ensures Step(s, Tick(2)) == s.(now := s.now + 2) && FateOf(s, Tick(2), ID) == Untouched
  {
    StepOfSweep(s, Tick(2));
  }

  lemma ReclaimStep(m: int, k: nat)
    ensures FateOf(Holding(m, 2 * k + 2, Working(m, k)), Reclaim(1, {ID}), ID) == Reclaimed
    ensures Step(Holding(m, 2 * k + 2, Working(m, k)), Reclaim(1, {ID})) == Holding(m, 2 * k + 2, Idle(m, k + 1))
  {
    var s, e := Holding(m, 2 * k + 2, Working(m, k)), Reclaim(1, {ID});
    assert Expired(s) == {ID};
    StepOfReclaim(s, e);
    assert Enabled(s, e);
    assert UpdateRows(s.jobs, {ID}, j => SqlReclaimed(j, s.now)) == map[ID := Idle(m, k + 1)];
  }

  lemma EnterRun(m: int)
    requires m > 0
    ensures Run(Start(m), ENTER) == Holding(m, 0, Idle(m, 0))
    ensures Claimed(HistoryOf(Start(m), ENTER, ID), 0)
  {
    hide Step, FateOf, Enabled;
    var s0, a, b, c := Start(m), ENTER[0], ENTER[1], ENTER[2];
    assert ENTER == [] + [a] + [b] + [c] + [GIVE_UP];
    HistorySnoc(s0, [], a, ID);
    HistorySnoc(s0, [a], b, ID);
    HistorySnoc(s0, [a] + [b], c, ID);
    HistorySnoc(s0, [a] + [b] + [c], GIVE_UP, ID);
    EnterSteps(m);
    GiveUpStep(Entered(m));
  }

  /** The job right after its insert, to be published. */
  ghost function Entered(m: int): State {
    Holding(m, 0, Idle(m, 0)).(copies := map[0 := JobCopy(ID, Idle(m, 0), Republishing)])
  }

  lemma GiveUpStep(s: State)
    requires 0 in s.copies && s.visits == map[]
    ensures FateOf(s, GIVE_UP, ID) == Untouched && Step(s, GIVE_UP) == s.(copies := s.copies - {0})
  {
    StepOfJobAbandon(s, GIVE_UP);
  }

  lemma EnterSteps(m: int)
    requires m > 0
    ensures
      var s0 := Start(m);
      var s1 := Step(s0, ENTER[0]);
      var s2 := Step(s1, ENTER[1]);
      && Step(s2, ENTER[2]) == Entered(m)
      && FateOf(s0, ENTER[0], ID) == Untouched && FateOf(s1, ENTER[1], ID) == Untouched
      && FateOf(s2, ENTER[2], ID).Created?
  {
    hide Step, Enabled;
    var s0 := Start(m);
    StepOfAdmit(s0, ENTER[0]);
    var s1 := Step(s0, ENTER[0]);
    StepOfDraft(s1, ENTER[1]);
    DraftMade(s1, m);
    var s2 := Step(s1, ENTER[1]);
    StepOfInsert(s2, ENTER[2]);
    FateOfInsert(s2, ENTER[2], ID);
    assert Insertable(s2, ID);
  }

  lemma DraftMade(s: State, m: int)
    requires s == Start(m).(requests := map[ID := Admitted(KEY, "", "", None, 0)]) && m > 0
    ensures RequestsFound(s, ID) == map[ID := Drafted(KEY, "", "", None, m, 0)]
  {
    assert TrimSpace("q") == "q";
  }

  /** Claimed, its lease run out, reclaimed. */
  lemma OneRound(s0: State, es: seq<Event>, m: int, k: nat)
    requires Run(s0, es) == Holding(m, 2 * k, Idle(m, k)) && Claimed(HistoryOf(s0, es, ID), k)
    ensures
      var fs := es + [CLAIM] + [Tick(2)] + [Reclaim(1, {ID})];
      Run(s0, fs) == Holding(m, 2 * k + 2, Idle(m, k + 1)) && Claimed(HistoryOf(s0, fs, ID), k + 1)
  {
    hide Step, FateOf, Run, HistoryOf;
    ClaimStep(m, 2 * k, Idle(m, k));
    HistorySnoc(s0, es, CLAIM, ID);
    TickStep(Holding(m, 2 * k, Working(m, k)));
    HistorySnoc(s0, es + [CLAIM], Tick(2), ID);
    ReclaimStep(m, k);
    HistorySnoc(s0, es + [CLAIM] + [Tick(2)], Reclaim(1, {ID}), ID);
  }

  lemma {:induction false} RoundsRun(m: int, k: nat)
    requires m > 0
    ensures Run(Start(m), Rounds(k)) == Holding(m, 2 * k, Idle(m, k))
    ensures Claimed(HistoryOf(Start(m), Rounds(k), ID), k)
  {
    hide Run, HistoryOf, Holding, Claimed;
    if k == 0 {
      EnterRun(m);
    } else {
      RoundsRun(m, k - 1);
      OneRound(Start(m), Rounds(k - 1), m, k - 1);
    }
  }

  lemma ReadSteps(m: int, k: nat)
    ensures
      var s := Holding(m, 2 * k, Working(m, k));
      && FateOf(s, VISIT, ID) == Untouched && FateOf(Step(s, VISIT), READ, ID) == Untouched
      && Step(Step(s, VISIT), READ) == s.(copies := map[0 := JobCopy(ID, Working(m, k), NACK)])
  {
    hide DefaultBackoff, Step;
    var s := Holding(m, 2 * k, Working(m, k));
    StepOfVisit(s, VISIT);
    StepOfRead(Step(s, VISIT), READ);
  }

  lemma SaveStep(m: int)
    requires m > MAX_BACKOFF_ATTEMPT + 1
    ensures
      var k := MAX_BACKOFF_ATTEMPT;
      var s := Holding(m, 2 * k, Working(m, k)).(copies := map[0 := JobCopy(ID, Working(m, k), NACK)]);
      var row := AsRetry(Working(m, k), DefaultBackoff(k + 1), 2 * k);
      && FateOf(s, SAVE, ID) == Retried("", DefaultBackoff(k + 1), true)
      && Step(s, SAVE) == Holding(m, 2 * k, row).(copies := map[0 := JobCopy(ID, row, Republishing)])
  {
    hide DefaultBackoff, Step;
    var k := MAX_BACKOFF_ATTEMPT;
    var s := Holding(m, 2 * k, Working(m, k)).(copies := map[0 := JobCopy(ID, Working(m, k), NACK)]);
    StepOfSave(s, SAVE);
    FateOfSaveEvent(s, SAVE);
  }

  /** Claimed `k` times in vain, and once more; the nack of that claim is read. */
  lemma NackRead(m: int) returns (es: seq<Event>)
    requires m > MAX_BACKOFF_ATTEMPT + 1
    ensures
      var k := MAX_BACKOFF_ATTEMPT;
      Run(Start(m), es) == Holding(m, 2 * k, Working(m, k)).(copies := map[0 := JobCopy(ID, Working(m, k), NACK)])
    ensures
      var h := HistoryOf(Start(m), es, ID);
      h.claims > 0 && h.retries == 0 && h.quadratic && !h.lost && h.firstClaim == Some(0)
  {
    hide Step, FateOf, Run, HistoryOf;
    var k := MAX_BACKOFF_ATTEMPT;
    RoundsRun(m, k);
    ClaimStep(m, 2 * k, Idle(m, k));
    es := Rounds(k);
    HistorySnoc(Start(m), es, CLAIM, ID);
    ReadSteps(m, k);
    es := es + [CLAIM];
    HistorySnoc(Start(m), es, VISIT, ID);
    es := es + [VISIT];
    HistorySnoc(Start(m), es, READ, ID);
    es := es + [READ];
  }

  /** A job reclaimed until its attempt is 12399 gets a negative delay from its one default nack and is
      claimed again at once, though a minute should have passed. */
  lemma BackoffFails(m: int) returns (es: seq<Event>)
    requires m > MAX_BACKOFF_ATTEMPT + 1
    ensures ClaimedAgain(Start(m), es, CLAIM, ID, m) && !WaitedLongEnough(Start(m), es, ID)
  {
    hide Step, FateOf, Run, HistoryOf, DefaultBackoff;
    var k := MAX_BACKOFF_ATTEMPT;
    var row := AsRetry(Working(m, k), DefaultBackoff(k + 1), 2 * k);
    es := NackRead(m);
    SaveStep(m);
    HistorySnoc(Start(m), es, SAVE, ID);
    GiveUpStep(Holding(m, 2 * k, row).(copies := map[0 := JobCopy(ID, row, Republishing)]));
    es := es + [SAVE];
    HistorySnoc(Start(m), es, GIVE_UP, ID);
    es := es + [GIVE_UP];
    BackoffOverflow();
    ClaimStep(m, 2 * k, row);
  }

  /** The whole-run back-off holds exactly for the values of MaxAttempts up to 12399. */
  lemma BackoffHoldsIff(maxAttempts: int)
    ensures BackoffHolds(maxAttempts) <==> maxAttempts <= MAX_BACKOFF_ATTEMPT + 1
  {
    hide Run, HistoryOf, FateOf;
    if maxAttempts <= MAX_BACKOFF_ATTEMPT + 1 {
      forall s0, es, e, id | ClaimedAgain(s0, es, e, id, maxAttempts) ensures WaitedLongEnough(s0, es, id) {
        BackoffOverRuns(s0, es, e, id);
      }
    } else {
      var es := BackoffFails(maxAttempts);
    }
  }
}
