/** Deletion and purging (internal/application/service/queue/cleanup/service.go).  The cascades yield
    to everyone else after every statement. */
module Cleanup {
  import opened Wrappers
  import opened JobModel
  import opened QueueState
  import opened QueueSteps
  import opened JobHistory
  import opened StepEquations
  import opened CascadeSafety
  import opened Barrier
  import opened Stranding
  import opened Storage
  import opened Interleaving
  import opened StatementMeaning

  const DEFAULT_BATCH: int := 1000

  function BatchSize(configured: int): (n: int)
    ensures n == if configured <= 0 then 1000 else configured
  {
    if configured > 0 then configured else DEFAULT_BATCH
  }

  // ---- purge ----

  const SUCCESS: set<Status> := {Completed, Cancelled}
  const FAILURE: set<Status> := {Failed, Dlq}

  /** Once the cutoff is past, no step makes another row qualify: rows that turn terminal do so now. */
  lemma PurgeableShrinks(s: State, e: Event, statuses: set<Status>, before: int)
    requires before <= s.now && forall status :: status in statuses ==> status.IsTerminal()
    ensures Purgeable(Step(s, e).jobs, statuses, before) <= Purgeable(s.jobs, statuses, before)
  {
    hide Step, FateOf;
    forall id | id in Purgeable(Step(s, e).jobs, statuses, before) ensures id in Purgeable(s.jobs, statuses, before) {
      StepRow(s, e, id);
    }
  }

  lemma {:induction false} PurgeableShrinksOverRun(s: State, es: seq<Event>, statuses: set<Status>, before: int)
    requires before <= s.now && forall status :: status in statuses ==> status.IsTerminal()
    ensures Purgeable(Run(s, es).jobs, statuses, before) <= Purgeable(s.jobs, statuses, before)
    decreases |es|
  {
    hide Step, Purgeable;
    if es != [] {
      PurgeableShrinksOverRun(s, es[..|es| - 1], statuses, before);
      ClockAdvances(s, es[..|es| - 1]);
      PurgeableShrinks(Run(s, es[..|es| - 1]), es[|es| - 1], statuses, before);
    }
  }

  ghost predicate Quiet(env: nat -> seq<Event>) {
    forall i :: env(i) == []
  }

  /** Batches of this size, of completed and cancelled rows from before `success`, or of failed and dead-lettered
      ones from before `failure`. */
  ghost predicate PurgeSteps(own: seq<Event>, success: int, failure: int, batch: int) {
    forall e :: e in own ==>
      && e.Purge? && e.limit == batch
      && ((e.statuses == {Completed, Cancelled} && e.before == success)
          || (e.statuses == {Failed, Dlq} && e.before == failure))
  }

  /** The loop is one of the two. */
  ghost predicate OneOf(statuses: set<Status>, before: int, success: int, failure: int) {
    (statuses == SUCCESS && before == success) || (statuses == FAILURE && before == failure)
  }

  /** Deletes in batches until a batch comes back empty.  Whichever rows each batch picks and whatever
      others do in between, it stops, and then no row qualifies; if nobody interferes the result is
      one deletion of all the rows that qualified. */
  method PurgeAll(db: Database, statuses: set<Status>, before: int, batch: int, env: nat -> seq<Event>, first: nat,
                  ghost s0: State, ghost moves: seq<Move>, ghost success: int, ghost failure: int)
      returns (ghost more: seq<Move>, turn: nat)
    requires batch > 0 && OneOf(statuses, before, success, failure)
    requires Woven(s0, moves, db.View(), env, first) && PurgeSteps(By(moves, true), success, failure, batch)
    requires before <= db.now || Quiet(env)
    modifies db
    ensures moves <= more && Woven(s0, more, db.View(), env, turn)
    ensures PurgeSteps(By(more, true), success, failure, batch)
    ensures Purgeable(db.jobs, statuses, before) == {}
    ensures db.now >= old(db.now)
    ensures Quiet(env) ==>
              && db.now == old(db.now)
              && db.jobs == Without(old(db.jobs), Purgeable(old(db.jobs), statuses, before))
  {
    hide *;
    more, turn := moves, first;
    ghost var jobs0, gone := db.jobs, {};
    NothingGone(jobs0, statuses, before);
    while true
      invariant moves <= more && Woven(s0, more, db.View(), env, turn)
      invariant PurgeSteps(By(more, true), success, failure, batch)
      invariant db.now >= old(db.now)
      invariant Quiet(env) ==> db.now == old(db.now) && Gone(jobs0, db.jobs, gone, statuses, before)
      decreases |Purgeable(db.jobs, statuses, before)|
    {
      ghost var picked;
      ghost var jobs1 := db.jobs;
      var n;
      n, more, picked := PurgeBatch(db, statuses, before, batch, env, turn, s0, more, success, failure);
      GoneMore(jobs0, jobs1, gone, picked, statuses, before);
      gone := gone + picked;
      if n == 0 {
        break;
      }
      OneOfTwo(statuses, before, success, failure);
      more := PurgePause(db, statuses, before, env, turn, env(turn), s0, more);
      turn := turn + 1;
    }
    AllGone(jobs0, db.jobs, gone, statuses, before);
  }

  lemma OneOfTwo(statuses: set<Status>, before: int, success: int, failure: int)
    requires OneOf(statuses, before, success, failure)
    ensures statuses == SUCCESS || statuses == FAILURE
  {
  }

  /** `jobs` is the table `jobs0` less `gone`, all of which qualified. */
  ghost predicate Gone(jobs0: map<JobId, Job>, jobs: map<JobId, Job>, gone: set<JobId>, statuses: set<Status>,
                       before: int) {
    gone <= Purgeable(jobs0, statuses, before) && jobs == Without(jobs0, gone)
  }

  lemma NothingGone(jobs0: map<JobId, Job>, statuses: set<Status>, before: int)
    ensures Gone(jobs0, jobs0, {}, statuses, before)
  {
  }

  lemma GoneMore(jobs0: map<JobId, Job>, jobs: map<JobId, Job>, gone: set<JobId>, picked: set<JobId>,
                 statuses: set<Status>, before: int)
    requires picked <= Purgeable(jobs, statuses, before)
    ensures Gone(jobs0, jobs, gone, statuses, before) ==>
              Gone(jobs0, Without(jobs, picked), gone + picked, statuses, before)
  {
  }

  lemma AllGone(jobs0: map<JobId, Job>, jobs: map<JobId, Job>, gone: set<JobId>, statuses: set<Status>, before: int)
    requires Purgeable(jobs, statuses, before) == {}
    ensures Gone(jobs0, jobs, gone, statuses, before) ==> jobs == Without(jobs0, Purgeable(jobs0, statuses, before))
  {
    if Gone(jobs0, jobs, gone, statuses, before) {
      forall id | id in Purgeable(jobs0, statuses, before) ensures id in gone {
        assert id !in Purgeable(jobs, statuses, before);
      }
    }
  }

  /** One purge statement. */
  method PurgeBatch(db: Database, statuses: set<Status>, before: int, batch: int, ghost env: nat -> seq<Event>,
                    ghost turn: nat, ghost s0: State, ghost moves: seq<Move>, ghost success: int, ghost failure: int)
      returns (n: nat, ghost more: seq<Move>, ghost picked: set<JobId>)
    requires batch > 0 && OneOf(statuses, before, success, failure)
    requires Woven(s0, moves, db.View(), env, turn) && PurgeSteps(By(moves, true), success, failure, batch)
    modifies db`jobs
    ensures moves <= more && Woven(s0, more, db.View(), env, turn)
    ensures PurgeSteps(By(more, true), success, failure, batch)
    ensures picked <= Purgeable(old(db.jobs), statuses, before) && db.jobs == Without(old(db.jobs), picked)
    ensures if n == 0 then Purgeable(db.jobs, statuses, before) == {}
            else |Purgeable(db.jobs, statuses, before)| < |Purgeable(old(db.jobs), statuses, before)|
  {
    hide Step, Run, By, Woven;
    ghost var s := db.View();
    n, picked := db.PurgeTerminalBefore(statuses, before, batch);
    PurgeStep(s, db.jobs, statuses, before, batch, picked);
    PurgeLeaves(s.jobs, db.jobs, statuses, before, batch, picked);
    OwnStep(s0, moves, s, env, turn, Purge(statuses, before, batch, picked));
    more := moves + [Own(Purge(statuses, before, batch, picked))];
  }

  /** Others at work between two batches make no further row qualify. */
  method PurgePause(db: Database, ghost statuses: set<Status>, ghost before: int, env: nat -> seq<Event>,
                    ghost turn: nat,
                    es: seq<Event>, ghost s0: State, ghost moves: seq<Move>)
      returns (ghost more: seq<Move>)
    requires (statuses == SUCCESS || statuses == FAILURE) && (before <= db.now || Quiet(env))
    requires es == env(turn) && Woven(s0, moves, db.View(), env, turn)
    modifies db
    ensures moves <= more && Woven(s0, more, db.View(), env, turn + 1) && By(more, true) == By(moves, true)
    ensures |Purgeable(db.jobs, statuses, before)| <= |Purgeable(old(db.jobs), statuses, before)|
    ensures db.now >= old(db.now)
    ensures Quiet(env) ==> db.now == old(db.now) && db.jobs == old(db.jobs)
  {
    hide Step, Run, By, Woven, Purgeable;
    ghost var t := db.View();
    more := Yield(db, env, turn, es, s0, moves);
    if Quiet(env) {
      NoSteps(t);
    } else {
      PurgeableShrinksOverRun(t, es, statuses, before);
      SubsetSize(Purgeable(db.jobs, statuses, before), Purgeable(t.jobs, statuses, before));
    }
  }

  lemma NoSteps(s: State)
    ensures Run(s, []) == s
  {
  }

  lemma PurgeStep(s: State, jobs: map<JobId, Job>, statuses: set<Status>, before: int, batch: int, picked: set<JobId>)
    requires batch > 0 && Batch(Purgeable(s.jobs, statuses, before), batch, picked) && jobs == Without(s.jobs, picked)
    ensures Step(s, Purge(statuses, before, batch, picked)) == s.(jobs := jobs)
  {
    hide Purgeable, Batch, Without;
  }

  lemma PurgeLeaves(jobs0: map<JobId, Job>, jobs: map<JobId, Job>, statuses: set<Status>, before: int, batch: int,
                    picked: set<JobId>)
    requires batch > 0 && Batch(Purgeable(jobs0, statuses, before), batch, picked) && jobs == Without(jobs0, picked)
    ensures Purgeable(jobs, statuses, before) == Purgeable(jobs0, statuses, before) - picked
    ensures picked == {} ==> Purgeable(jobs, statuses, before) == {}
    ensures picked != {} ==> |Purgeable(jobs, statuses, before)| < |Purgeable(jobs0, statuses, before)|
  {
    assert Purgeable(jobs, statuses, before) == Purgeable(jobs0, statuses, before) - picked;
    if picked != {} {
      SubsetSize(Purgeable(jobs, statuses, before), Purgeable(jobs0, statuses, before));
    }
  }

  /** A completed or cancelled row from before `success`, or a failed or dead-lettered row from before `failure`. */
  ghost predicate Overdue(j: Job, success: int, failure: int) {
    || (j.status in {Completed, Cancelled} && j.terminalAt.Some? && j.terminalAt.value < success)
    || (j.status in {Failed, Dlq} && j.terminalAt.Some? && j.terminalAt.value < failure)
  }

  /** `later` is `jobs` less the rows overdue. */
  ghost predicate Purged(jobs: map<JobId, Job>, later: map<JobId, Job>, success: int, failure: int) {
    && (forall id :: id in later <==> id in jobs && !Overdue(jobs[id], success, failure))
    && (forall id :: id in later ==> later[id] == jobs[id])
  }

  lemma NoneOverdue(jobs: map<JobId, Job>, success: int, failure: int)
    requires Purgeable(jobs, SUCCESS, success) == {} && Purgeable(jobs, FAILURE, failure) == {}
    ensures forall id :: id in jobs ==> !Overdue(jobs[id], success, failure)
  {
    forall id | id in jobs ensures !Overdue(jobs[id], success, failure) {
      assert id !in Purgeable(jobs, SUCCESS, success) && id !in Purgeable(jobs, FAILURE, failure);
    }
  }

  lemma PurgedTwice(jobs0: map<JobId, Job>, jobs1: map<JobId, Job>, jobs2: map<JobId, Job>, success: int, failure: int)
    requires jobs1 == Without(jobs0, Purgeable(jobs0, SUCCESS, success))
    requires jobs2 == Without(jobs1, Purgeable(jobs1, FAILURE, failure))
    ensures Purged(jobs0, jobs2, success, failure)
    ensures Purgeable(jobs2, SUCCESS, success) == {}
  {
    assert forall id :: id in jobs1 <==> id in jobs0 && !TerminalBefore(jobs0[id], SUCCESS, success);
    assert forall id :: id in jobs2 <==> id in jobs1 && !TerminalBefore(jobs1[id], FAILURE, failure);
  }

  lemma Suffix(s0: State, moves: seq<Move>, s1: State, n: nat, more: seq<Move>, s2: State, m: nat,
               env: nat -> seq<Event>)
    requires moves <= more && Woven(s0, moves, s1, env, n) && Woven(s0, more, s2, env, m)
    ensures s2 == Run(s1, Events(more[|moves|..]))
  {
    assert Events(more) == Events(moves) + Events(more[|moves|..]);
    RunConcat(s0, Events(moves), Events(more[|moves|..]));
  }

  /** The daily purge: after it no completed or cancelled job from before the success cutoff and no
      failed or dead-lettered one from before the failure cutoff is left; nobody interfering, it
      removes exactly those.  It stops under interference unless a retention is negative. */
  method PurgeTerminalJobs(db: Database, successRetention: int, failureRetention: int, configuredBatch: int,
                           env: nat -> seq<Event>)
      returns (ghost moves: seq<Move>, turn: nat)
    requires (successRetention >= 0 && failureRetention >= 0) || Quiet(env)
    modifies db
    ensures Woven(old(db.View()), moves, db.View(), env, turn)
    ensures PurgeSteps(By(moves, true), old(db.now) - successRetention, old(db.now) - failureRetention,
                       if configuredBatch > 0 then configuredBatch else 1000)
    ensures forall id :: id in db.jobs ==>
              !Overdue(db.jobs[id], old(db.now) - successRetention, old(db.now) - failureRetention)
    ensures Quiet(env) ==> Purged(old(db.jobs), db.jobs, db.now - successRetention, db.now - failureRetention)
  {
    hide Step, Run, By, Woven, Purgeable, Without, Purged, Overdue;
    var now, batch := db.now, BatchSize(configuredBatch);
    ghost var s0, success, failure := db.View(), now - successRetention, now - failureRetention;
    NoMoves(s0, env);
    assert PurgeSteps(By([], true), success, failure, batch);
    moves, turn := PurgeAll(db, SUCCESS, now - successRetention, batch, env, 0, s0, [], success, failure);
    ghost var half, s1, n := moves, db.View(), turn;
    moves, turn := PurgeAll(db, FAILURE, now - failureRetention, batch, env, turn, s0, moves, success, failure);
    if Quiet(env) {
      PurgedTwice(s0.jobs, s1.jobs, db.jobs, now - successRetention, now - failureRetention);
    } else {
      Suffix(s0, half, s1, n, moves, db.View(), turn, env);
      PurgeableShrinksOverRun(s1, Events(moves[|half|..]), SUCCESS, now - successRetention);
    }
    NoneOverdue(db.jobs, success, failure);
  }

  // ---- queue cascade ----

  /** The steps that belong to the cascade of `key`, or end every cascade. */
  predicate Drives(e: Event, key: QueueKey) {
    match e
    case ForceCancel(k) => k == key
    case DeleteBatch(k, _, _) => k == key
    case Detach(k) => k == key
    case DropRow(k) => k == key
    case Resume(k) => k == key
    case Crash => true
    case _ => false
  }

  ghost predicate Foreign(es: seq<Event>, key: QueueKey) {
    forall e :: e in es ==> !Drives(e, key)
  }

  /** The queue's cascade is at `phase`, the queue is deleting, and no config update of its row is under
      way. */
  ghost predicate InFlight(s: State, key: QueueKey, phase: QueuePhase) {
    Orderly(s) && Sealed(s, key) && key in s.cascades && s.cascades[key] == phase
  }

  /** Nobody else moves the cascade. */
  lemma CascadeUntouched(s: State, e: Event, key: QueueKey)
    requires key in s.cascades && !Drives(e, key)
    ensures key in Step(s, e).cascades && Step(s, e).cascades[key] == s.cascades[key]
  {
    hide Step, Enabled;
    if RowEvent(e) || RequestEvent(e) {
      OthersKeepCascades(s, e);
    } else if e.RequestDelete? {
      StepOfRequestDelete(s, e);
    } else if e.ForceCancel? {
      StepOfForceCancel(s, e);
    } else if e.DeleteBatch? {
      StepOfDeleteBatch(s, e);
    } else if QueueCascadeEvent(e) {
      StepOfCascade(s, e);
    } else {
      TenantCascadeFrame(s, e);
    }
  }

  /** What is near the queue has become less, or stayed; nothing has been added. */
  ghost predicate Shrunk(s: State, t: State, key: QueueKey) {
    Near(t, key) <= Near(s, key) && Load(t, key) <= Load(s, key)
  }

  lemma ShrunkRefl(s: State, key: QueueKey)
    ensures Shrunk(s, s, key)
  {
  }

  lemma ShrunkTwice(s: State, t: State, u: State, key: QueueKey)
    requires Shrunk(s, t, key) && Shrunk(t, u, key)
    ensures Shrunk(s, u, key)
  {
  }

  lemma StepShrinks(s: State, e: Event, key: QueueKey)
    requires Orderly(s) && IsDeleting(s, key)
    ensures Shrunk(s, Step(s, e), key)
    ensures e.DeleteBatch? && e.key == key && e.picked != {} && Enabled(s, e) ==> Load(Step(s, e), key) < Load(s, key)
  {
    hide Step, Enabled, Orderly, Near, Load;
    OrderlyNames(s);
    BarrierStep(s, e, key);
    LoadStep(s, e, key);
  }

  /** Others leave a cascade in flight where it is, and add nothing to what is near its queue. */
  lemma StepKeepsCascade(s: State, e: Event, key: QueueKey, phase: QueuePhase)
    requires InFlight(s, key, phase) && !Drives(e, key)
    ensures InFlight(Step(s, e), key, phase) && Shrunk(s, Step(s, e), key)
    ensures Unlisted(s, key) ==> Unlisted(Step(s, e), key)
  {
    hide Step, Orderly, NoEdits, Shrunk, Drives, Unlisted;
    StepOrderly(s, e);
    CascadeUntouched(s, e, key);
    CascadeHasRow(Step(s, e), key);
    SealedStep(s, e, key);
    StepShrinks(s, e, key);
    if Unlisted(s, key) {
      OrderlyNames(s);
      UnlistedStep(s, e, key);
    }
  }

  lemma CascadeHasRow(s: State, key: QueueKey)
    requires Orderly(s) && key in s.cascades
    ensures key in s.queues
  {
  }

  lemma {:induction false} RunKeepsCascade(s: State, es: seq<Event>, key: QueueKey, phase: QueuePhase)
    requires InFlight(s, key, phase) && Foreign(es, key)
    ensures InFlight(Run(s, es), key, phase) && Shrunk(s, Run(s, es), key)
    ensures Unlisted(s, key) ==> Unlisted(Run(s, es), key)
    decreases |es|
  {
    hide Step, InFlight, Shrunk, Unlisted;
    if es == [] {
      ShrunkRefl(s, key);
    } else {
      var t := Run(s, es[..|es| - 1]);
      RunKeepsCascade(s, es[..|es| - 1], key, phase);
      assert es[|es| - 1] in es;
      StepKeepsCascade(t, es[|es| - 1], key, phase);
      ShrunkTwice(s, t, Run(s, es), key);
    }
  }

  ghost predicate Undisturbed(env: nat -> seq<Event>, key: QueueKey) {
    forall i :: Foreign(env(i), key)
  }

  /** The deletion's own steps. */
  ghost predicate CascadeSteps(own: seq<Event>, key: QueueKey) {
    forall e :: e in own ==>
      (Drives(e, key) && !e.Crash? && !e.Resume?) || (e.RequestDelete? && e.key == key)
  }

  /** One delete batch; an empty one moves the cascade on. */
  method CascadeBatch(db: Database, key: QueueKey, batch: int, ghost env: nat -> seq<Event>, ghost turn: nat,
                      ghost s0: State, ghost moves: seq<Move>)
      returns (n: nat, ghost picked: set<JobId>, ghost more: seq<Move>)
    requires batch > 0 && InFlight(db.View(), key, DeletingJobs)
    requires Woven(s0, moves, db.View(), env, turn) && CascadeSteps(By(moves, true), key)
    modifies db`jobs, db`cascades
    ensures Woven(s0, more, db.View(), env, turn) && CascadeSteps(By(more, true), key)
    ensures By(more, true) == By(moves, true) + [DeleteBatch(key, batch, picked)] && n == |picked|
    ensures n == 0 <==> JobsOf(old(db.jobs), key) == {}
    ensures InFlight(db.View(), key, if n == 0 then Detaching else DeletingJobs)
    ensures Shrunk(old(db.View()), db.View(), key)
    ensures db.View().requests == old(db.View()).requests && db.View().copies == old(db.View()).copies
    ensures if n == 0 then JobsOf(db.View().jobs, key) == {} && more == moves + [Own(DeleteBatch(key, batch, {}))]
            else Load(db.View(), key) < Load(old(db.View()), key) && moves <= more
  {
    hide Step, Run, By, Woven, Orderly, Load, Shrunk, JobsOf, NoEdits, CascadeSteps;
    ghost var s := db.View();
    n, picked := db.DeleteByQueue(key, batch);
    if n == 0 {
      db.cascades := db.cascades[key := Detaching];
    }
    ghost var e := DeleteBatch(key, batch, picked);
    DeletedBatch(s, db.jobs, key, batch, picked);
    OwnCascadeStep(s, e, key);
    StepShrinks(s, e, key);
    OwnStep(s0, moves, s, env, turn, e);
    CascadeStepsSnoc(By(moves, true), e, key);
    more := moves + [Own(e)];
  }

  /** The cascade's own statements short of the row's removal keep the queue sealed. */
  lemma OwnCascadeStep(s: State, e: Event, key: QueueKey)
    requires Orderly(s) && Sealed(s, key) && key in Step(s, e).queues
    ensures Orderly(Step(s, e)) && Sealed(Step(s, e), key)
  {
    hide Step, Orderly, NoEdits;
    StepOrderly(s, e);
    SealedStep(s, e, key);
  }

  lemma CascadeStepsSnoc(own: seq<Event>, e: Event, key: QueueKey)
    requires CascadeSteps(own, key)
    requires (Drives(e, key) && !e.Crash? && !e.Resume?) || (e.RequestDelete? && e.key == key)
    ensures CascadeSteps(own + [e], key)
  {
  }

  lemma DeletedBatch(s: State, jobs: map<JobId, Job>, key: QueueKey, batch: int, picked: set<JobId>)
    requires batch > 0 && Batch(JobsOf(s.jobs, key), batch, picked) && jobs == Without(s.jobs, picked)
    requires key in s.cascades && s.cascades[key] == DeletingJobs
    ensures Enabled(s, DeleteBatch(key, batch, picked))
    ensures Step(s, DeleteBatch(key, batch, picked)) ==
            s.(jobs := jobs, cascades := if picked == {} then s.cascades[key := Detaching] else s.cascades)
    ensures picked == {} ==> JobsOf(jobs, key) == {}
  {
    hide Step, JobsOf;
    StepOfDeleteBatch(s, DeleteBatch(key, batch, picked));
    assert s.cascades[key := DeletingJobs] == s.cascades;
    assert picked == {} ==> jobs == s.jobs;
  }

  /** Others at work between two statements of the cascade. */
  method CascadePause(db: Database, key: QueueKey, ghost phase: QueuePhase, env: nat -> seq<Event>, ghost turn: nat,
                      es: seq<Event>, ghost s0: State, ghost moves: seq<Move>)
      returns (ghost more: seq<Move>)
    requires InFlight(db.View(), key, phase) && Undisturbed(env, key)
    requires es == env(turn) && Woven(s0, moves, db.View(), env, turn)
    modifies db
    ensures InFlight(db.View(), key, phase)
    ensures moves <= more && Woven(s0, more, db.View(), env, turn + 1) && By(more, true) == By(moves, true)
    ensures Shrunk(old(db.View()), db.View(), key)
    ensures Unlisted(old(db.View()), key) ==> Unlisted(db.View(), key)
  {
    hide Step, Run, By, Woven, InFlight, Shrunk, Unlisted;
    RunKeepsCascade(db.View(), es, key, phase);
    more := Yield(db, env, turn, es, s0, moves);
  }

  /** Takes the queue off every worker's list, worker by worker. */
  method DetachQueueFromWorkers(db: Database, key: QueueKey)
    modifies db`workers
    ensures db.workers == DetachedWorkers(old(db.workers), key)
  {
    var rest := db.workers.Keys;
    while rest != {}
      invariant rest <= db.workers.Keys == old(db.workers).Keys
      invariant forall w :: w in db.workers ==>
                  db.workers[w] == if w in rest then old(db.workers)[w] else DetachedWorkers(old(db.workers), key)[w]
      decreases |rest|
    {
      var w :| w in rest;
      if db.workers[w].project == key.project {
        var updated := RemoveName(db.workers[w].queues, key.name);
        if updated != db.workers[w].queues {
          db.SaveWorker(w, db.workers[w].(queues := updated));
        }
      }
      rest := rest - {w};
    }
  }

  /** A queue's deletion, statement by statement, whatever others do in between: it stops, and then the
      queue's row and its listings are gone.  Any job of the queue that is left or still to come was
      expected when the last batch (`last` among the moves) found the queue empty. */
  method CascadeQueue(db: Database, key: QueueKey, configuredBatch: int, env: nat -> seq<Event>, first: nat,
                      ghost s0: State, ghost moves: seq<Move>)
      returns (ghost batches: seq<Event>, ghost more: seq<Move>, turn: nat, ghost last: nat)
    requires InFlight(db.View(), key, DeletingJobs) && Undisturbed(env, key)
    requires Woven(s0, moves, db.View(), env, first) && CascadeSteps(By(moves, true), key)
    modifies db
    ensures Woven(s0, more, db.View(), env, turn) && CascadeSteps(By(more, true), key)
    ensures By(more, true) == By(moves, true) + batches
                              + [DeleteBatch(key, BatchSize(configuredBatch), {}), Detach(key), DropRow(key)]
    ensures |batches| <= Load(old(db.View()), key) && (JobsOf(old(db.jobs), key) == {} ==> batches == [])
    ensures Batched(batches, key, BatchSize(configuredBatch))
    ensures key !in db.queues && key !in db.cascades && Orderly(db.View())
    ensures last < |more| && more[last] == Own(DeleteBatch(key, BatchSize(configuredBatch), {}))
    ensures Near(db.View(), key) <= Expected(Run(s0, Events(more[..last])), key) <= Near(old(db.View()), key)
    ensures Unlisted(db.View(), key)
  {
    hide *;
    var batch := BatchSize(configuredBatch);
    ghost var quiet;
    batches, more, turn, last, quiet := DeleteAll(db, key, batch, env, first, s0, moves);
    ghost var upToLast, empty, t := more, db.View(), db.View();
    ShrunkRefl(empty, key);
    more := CascadePause(db, key, Detaching, env, turn, env(turn), s0, more);
    turn, t := turn + 1, db.View();
    more := CascadeDetach(db, key, env, turn, s0, more);
    ShrunkTwice(empty, t, db.View(), key);
    t := db.View();
    more := CascadePause(db, key, DroppingRow, env, turn, env(turn), s0, more);
    ShrunkTwice(empty, t, db.View(), key);
    turn, t := turn + 1, db.View();
    more := CascadeDrop(db, key, env, turn, s0, more);
    ShrunkTwice(empty, t, db.View(), key);
    NearShrunk(empty, db.View(), key);
    assert more[..last] == upToLast[..last];
  }

  lemma NearShrunk(s: State, t: State, key: QueueKey)
    requires Shrunk(s, t, key)
    ensures Near(t, key) <= Near(s, key) && Load(t, key) <= Load(s, key)
  {
  }

  /** Batches of this size that delete something. */
  ghost predicate Batched(batches: seq<Event>, key: QueueKey, batch: int) {
    forall e :: e in batches ==> e.DeleteBatch? && e.key == key && e.limit == batch && e.picked != {}
  }

  lemma BatchedSnoc(batches: seq<Event>, key: QueueKey, batch: int, picked: set<JobId>)
    requires Batched(batches, key, batch) && picked != {}
    ensures Batched(batches + [DeleteBatch(key, batch, picked)], key, batch)
  {
  }

  lemma NoBatches(key: QueueKey, batch: int)
    ensures Batched([], key, batch)
  {
  }

  /** The delete loop, up to and including the batch that finds the queue empty. */
  method DeleteAll(db: Database, key: QueueKey, batch: int, env: nat -> seq<Event>, first: nat,
                   ghost s0: State, ghost moves: seq<Move>)
      returns (ghost batches: seq<Event>, ghost more: seq<Move>, turn: nat, ghost last: nat, ghost quiet: State)
    requires batch > 0 && InFlight(db.View(), key, DeletingJobs) && Undisturbed(env, key)
    requires Woven(s0, moves, db.View(), env, first) && CascadeSteps(By(moves, true), key)
    modifies db
    ensures InFlight(db.View(), key, Detaching)
    ensures Woven(s0, more, db.View(), env, turn) && CascadeSteps(By(more, true), key)
    ensures By(more, true) == By(moves, true) + batches + [DeleteBatch(key, batch, {})]
    ensures |batches| <= Load(old(db.View()), key) && (JobsOf(old(db.jobs), key) == {} ==> batches == [])
    ensures Batched(batches, key, batch)
    ensures last + 1 == |more| && more[last] == Own(DeleteBatch(key, batch, {}))
    ensures quiet == Run(s0, Events(more[..last])) && Near(db.View(), key) == Expected(quiet, key)
    ensures Expected(quiet, key) <= Near(old(db.View()), key)
  {
    hide *;
    more, turn, batches := moves, first, [];
    ghost var start := db.View();
    ShrunkRefl(start, key);
    NoBatches(key, batch);
    while true
      invariant InFlight(db.View(), key, DeletingJobs) && Shrunk(start, db.View(), key)
      invariant Woven(s0, more, db.View(), env, turn) && CascadeSteps(By(more, true), key)
      invariant By(more, true) == By(moves, true) + batches && Batched(batches, key, batch)
      invariant |batches| + Load(db.View(), key) <= Load(start, key)
      invariant JobsOf(old(db.jobs), key) == {} ==> batches == [] && db.jobs == old(db.jobs)
      decreases Load(db.View(), key)
    {
      last, quiet := |more|, db.View();
      ghost var before, picked := more, {};
      var n;
      n, picked, more := CascadeBatch(db, key, batch, env, turn, s0, more);
      if n == 0 {
        assert more[..last] == before;
        WovenIsRun(s0, before, quiet, env, turn);
        NothingButExpected(quiet, db.View(), key);
        NearShrunk(start, quiet, key);
        return;
      }
      BatchedSnoc(batches, key, batch, picked);
      batches := batches + [DeleteBatch(key, batch, picked)];
      ShrunkTwice(start, quiet, db.View(), key);
      ghost var t := db.View();
      more := CascadePause(db, key, DeletingJobs, env, turn, env(turn), s0, more);
      ShrunkTwice(start, t, db.View(), key);
      NearShrunk(t, db.View(), key);
      turn := turn + 1;
    }
  }

  lemma NothingButExpected(s: State, t: State, key: QueueKey)
    requires JobsOf(t.jobs, key) == {} && t.requests == s.requests && t.copies == s.copies
    ensures Near(t, key) == Expected(s, key) <= Near(s, key)
  {
  }

  method CascadeDetach(db: Database, key: QueueKey, ghost env: nat -> seq<Event>, ghost turn: nat,
                       ghost s0: State, ghost moves: seq<Move>)
      returns (ghost more: seq<Move>)
    requires InFlight(db.View(), key, Detaching)
    requires Woven(s0, moves, db.View(), env, turn) && CascadeSteps(By(moves, true), key)
    modifies db`workers, db`cascades
    ensures InFlight(db.View(), key, DroppingRow)
    ensures moves <= more && Woven(s0, more, db.View(), env, turn) && CascadeSteps(By(more, true), key)
    ensures By(more, true) == By(moves, true) + [Detach(key)]
    ensures Shrunk(old(db.View()), db.View(), key) && Unlisted(db.View(), key)
  {
    hide Step, Run, By, Woven, Orderly, DetachedWorkers, NoEdits, CascadeSteps, Unlisted, Shrunk;
    ghost var s, e := db.View(), Detach(key);
    StepOfCascade(s, e);
    DetachUnlists(s, key);
    OwnStep(s0, moves, s, env, turn, e);
    CascadeStepsSnoc(By(moves, true), e, key);
    DetachQueueFromWorkers(db, key);
    db.cascades := db.cascades[key := DroppingRow];
    assert db.View() == Step(s, e);
    OwnCascadeStep(s, e, key);
    StepShrinks(s, e, key);
    more := moves + [Own(e)];
  }

  method CascadeDrop(db: Database, key: QueueKey, ghost env: nat -> seq<Event>, ghost turn: nat,
                     ghost s0: State, ghost moves: seq<Move>)
      returns (ghost more: seq<Move>)
    requires InFlight(db.View(), key, DroppingRow)
    requires Woven(s0, moves, db.View(), env, turn) && CascadeSteps(By(moves, true), key)
    modifies db`queues, db`cascades
    ensures moves <= more && Woven(s0, more, db.View(), env, turn) && CascadeSteps(By(more, true), key)
    ensures By(more, true) == By(moves, true) + [DropRow(key)]
    ensures key !in db.queues && key !in db.cascades && Orderly(db.View())
    ensures Shrunk(old(db.View()), db.View(), key)
    ensures Unlisted(old(db.View()), key) ==> Unlisted(db.View(), key)
  {
    hide Step, Run, By, Woven, Orderly, NoEdits, CascadeSteps, Shrunk;
    ghost var s, e := db.View(), DropRow(key);
    StepOfCascade(s, e);
    StepOrderly(s, e);
    StepShrinks(s, e, key);
    OwnStep(s0, moves, s, env, turn, e);
    CascadeStepsSnoc(By(moves, true), e, key);
    db.DeleteQueue(key);
    db.cascades := Without(db.cascades, {key});
    more := moves + [Own(e)];
  }

  // ---- the deletion request ----

  datatype DeleteResult = NoSuchQueue | AlreadyDeleting | HasActiveJobs | Deleted | Started

  /** Turns the queue deleting, cancels what is active if forced, and either finishes the cascade at
      once (no jobs) or leaves it in flight.  At most one cascade is in flight for a queue, and none of
      its config updates. */
  method RequestDeleteQueue(db: Database, key: QueueKey, force: bool, configuredBatch: int, env: nat -> seq<Event>)
      returns (r: DeleteResult, ghost moves: seq<Move>, turn: nat, ghost last: nat)
    requires Orderly(db.View()) && Undisturbed(env, key) && NoEdits(db.View(), key)
    requires IsDeleting(db.View(), key) || (key !in db.cascades && !TenantOwns(db.View(), key))
    modifies db
    ensures Woven(old(db.View()), moves, db.View(), env, turn) && CascadeSteps(By(moves, true), key)
    ensures Orderly(db.View())
    ensures r.NoSuchQueue? <==> key !in old(db.queues)
    ensures r.AlreadyDeleting? <==> key in old(db.queues) && old(db.queues)[key].status == Deleting
    ensures r.HasActiveJobs? <==>
              && key in old(db.queues) && old(db.queues)[key].status != Deleting && !force
              && exists id :: && id in old(db.jobs) && old(db.jobs)[id].project == key.project
                              && old(db.jobs)[id].queue == key.name
                              && old(db.jobs)[id].status in {Pending, Scheduled, Running}
    ensures r.Started? || r.Deleted? ==>
              exists active :: Begins(By(moves, true), key, force, active, r.Deleted?, configuredBatch)
                && (active <==> exists id :: && id in old(db.jobs) && old(db.jobs)[id].project == key.project
                                             && old(db.jobs)[id].queue == key.name
                                             && old(db.jobs)[id].status in {Pending, Scheduled, Running})
    ensures r.Started? ==>
              exists id :: id in db.jobs && db.jobs[id].project == key.project && db.jobs[id].queue == key.name
    ensures r.NoSuchQueue? || r.AlreadyDeleting? || r.HasActiveJobs? ==> moves == [] && db.View() == old(db.View())
    ensures r.Started? ==> InFlight(db.View(), key, DeletingJobs)
    ensures r.Deleted? ==> key !in db.queues && key !in db.cascades
    ensures r.Deleted? ==>
              && last < |moves| && moves[last] == Own(DeleteBatch(key, BatchSize(configuredBatch), {}))
              && Near(db.View(), key) <= Expected(Run(old(db.View()), Events(moves[..last])), key)
              && Near(db.View(), key) <= Near(old(db.View()), key)
  {
    hide Step, Run, By, Woven, Orderly, InFlight, Near, Expected, NoEdits, TenantOwns, CascadeSteps;
    moves, turn, last := [], 0, 0;
    Untouched(db.View(), env, key);
    var q := db.FindQueue(key);
    if q.None? {
      return NoSuchQueue, moves, turn, last;
    }
    if q.value.status.Deleting? {
      return AlreadyDeleting, moves, turn, last;
    }
    var active := db.CountActiveByQueue(key);
    if active > 0 && !force {
      return HasActiveJobs, moves, turn, last;
    }
    ActiveMeans(db.jobs, key);
    r, moves, turn, last := Delete(db, key, q.value, active > 0, force, configuredBatch, env);
  }

  /** The statements of a deletion request: the mark; if there were active jobs, their cancelling; and, if no job was
      left then, the whole cascade. */
  ghost predicate Begins(own: seq<Event>, key: QueueKey, force: bool, active: bool, whole: bool, configuredBatch: int) {
    own == [RequestDelete(key, force)] + (if active then [ForceCancel(key)] else [])
           + if whole then [DeleteBatch(key, if configuredBatch > 0 then configuredBatch else 1000, {}), Detach(key),
                            DropRow(key)]
             else []
  }

  /** The deletion request once it is not refused. */
  method Delete(db: Database, key: QueueKey, q: Queue, active: bool, ghost force: bool, configuredBatch: int,
                env: nat -> seq<Event>)
      returns (r: DeleteResult, ghost moves: seq<Move>, turn: nat, ghost last: nat)
    requires Orderly(db.View()) && Undisturbed(env, key) && NoEdits(db.View(), key)
    requires key in db.queues && q == db.queues[key] && !q.status.Deleting?
    requires key !in db.cascades && !TenantOwns(db.View(), key)
    requires active <==> ActiveJobsOf(db.jobs, key) != {}
    requires active ==> force
    modifies db
    ensures Woven(old(db.View()), moves, db.View(), env, turn) && CascadeSteps(By(moves, true), key)
    ensures Orderly(db.View())
    ensures r.Started? ==> InFlight(db.View(), key, DeletingJobs) && JobsOf(db.jobs, key) != {}
    ensures Begins(By(moves, true), key, force, active, r.Deleted?, configuredBatch)
    ensures r.Deleted? ==> key !in db.queues && key !in db.cascades
    ensures r.Deleted? ==>
              && last < |moves| && moves[last] == Own(DeleteBatch(key, BatchSize(configuredBatch), {}))
              && Near(db.View(), key) <= Expected(Run(old(db.View()), Events(moves[..last])), key)
              && Near(db.View(), key) <= Near(old(db.View()), key)
    ensures r.Started? || r.Deleted?
  {
    hide *;
    ghost var s0, s1 := db.View(), db.View();
    last := 0;
    moves := BeginDelete(db, key, q, active, force, env, s0);
    s1 := db.View();
    SameNear(s0, s1, key);
    moves := CascadePause(db, key, if active then ForceCancelling else DeletingJobs, env, 0, env(0), s0, moves);
    NearShrunk(s1, db.View(), key);
    turn := 1;
    if active {
      s1 := db.View();
      moves := ForceCancelActive(db, key, env, 1, s0, moves);
      NearShrunk(s1, db.View(), key);
      s1 := db.View();
      moves := CascadePause(db, key, DeletingJobs, env, 1, env(1), s0, moves);
      NearShrunk(s1, db.View(), key);
      turn := 2;
    }
    BeginsSoFar(By(moves, true), key, force, active, configuredBatch);
    var total := db.CountByQueue(key);
    if total == 0 {
      ghost var batches, before := [], moves;
      batches, moves, turn, last := CascadeQueue(db, key, configuredBatch, env, turn, s0, moves);
      BeginsWhole(By(before, true), By(moves, true), key, force, active, batches, configuredBatch);
      return Deleted, moves, turn, last;
    }
    r := Started;
    InFlightOrderly(db.View(), key, DeletingJobs);
  }

  lemma BeginsSoFar(own: seq<Event>, key: QueueKey, force: bool, active: bool, configuredBatch: int)
    requires own == if active then [RequestDelete(key, force)] + [ForceCancel(key)] else [RequestDelete(key, force)]
    ensures Begins(own, key, force, active, false, configuredBatch)
  {
  }

  lemma BeginsWhole(before: seq<Event>, own: seq<Event>, key: QueueKey, force: bool, active: bool, batches: seq<Event>,
                    configuredBatch: int)
    requires Begins(before, key, force, active, false, configuredBatch) && batches == []
    requires own == before + batches + [DeleteBatch(key, BatchSize(configuredBatch), {}), Detach(key), DropRow(key)]
    ensures Begins(own, key, force, active, true, configuredBatch)
  {
  }

  lemma SameNear(s: State, t: State, key: QueueKey)
    requires t.jobs == s.jobs && t.requests == s.requests && t.copies == s.copies
    ensures Near(t, key) == Near(s, key)
  {
  }

  lemma Untouched(s: State, env: nat -> seq<Event>, key: QueueKey)
    ensures Woven(s, [], s, env, 0) && CascadeSteps(By([], true), key) && By([], true) == []
  {
  }

  lemma InFlightOrderly(s: State, key: QueueKey, phase: QueuePhase)
    requires InFlight(s, key, phase)
    ensures Orderly(s)
  {
  }

  method BeginDelete(db: Database, key: QueueKey, q: Queue, active: bool, ghost force: bool, ghost env: nat -> seq<Event>,
                     ghost s0: State)
      returns (ghost more: seq<Move>)
    requires Orderly(db.View()) && s0 == db.View() && NoEdits(s0, key)
    requires key in db.queues && q == db.queues[key] && !q.status.Deleting?
    requires key !in db.cascades && !TenantOwns(s0, key)
    requires active <==> ActiveJobsOf(db.jobs, key) != {}
    requires active ==> force
    modifies db`queues, db`cascades
    ensures InFlight(db.View(), key, if active then ForceCancelling else DeletingJobs)
    ensures db.View().requests == old(db.View()).requests && db.View().copies == old(db.View()).copies
    ensures db.View().jobs == old(db.View()).jobs
    ensures Woven(s0, more, db.View(), env, 0) && CascadeSteps(By(more, true), key)
    ensures By(more, true) == [RequestDelete(key, force)]
  {
    hide Step, Run, By, Woven, Orderly, CascadeSteps, TenantOwns, ActiveJobsOf, Saved, InFlight, NoEdits;
    more := FirstMove(s0, key, force, env);
    BeginIsStep(s0, key, q, active, force);
    db.SaveQueue(key, q.(status := Deleting));
    db.cascades := db.cascades[key := if active then ForceCancelling else DeletingJobs];
  }

  lemma FirstMove(s: State, key: QueueKey, force: bool, env: nat -> seq<Event>) returns (moves: seq<Move>)
    ensures Woven(s, moves, Step(s, RequestDelete(key, force)), env, 0) && CascadeSteps(By(moves, true), key)
    ensures By(moves, true) == [RequestDelete(key, force)]
  {
    hide Step, Run, By, Woven, CascadeSteps;
    var e := RequestDelete(key, force);
    Untouched(s, env, key);
    OwnStep(s, [], s, env, 0, e);
    CascadeStepsSnoc(By([], true), e, key);
    moves := [] + [Own(e)];
  }

  lemma BeginIsStep(s: State, key: QueueKey, q: Queue, active: bool, force: bool)
    requires Orderly(s) && NoEdits(s, key)
    requires key in s.queues && q == s.queues[key] && !q.status.Deleting?
    requires key !in s.cascades && !TenantOwns(s, key)
    requires active <==> ActiveJobsOf(s.jobs, key) != {}
    requires active ==> force
    ensures
      var t := Step(s, RequestDelete(key, force));
      && t == s.(queues := Saved(s.queues, key, q.(status := Deleting)),
                 cascades := s.cascades[key := if active then ForceCancelling else DeletingJobs])
      && InFlight(t, key, if active then ForceCancelling else DeletingJobs)
  {
    hide Step, Orderly, TenantOwns, ActiveJobsOf, Enabled, Sealed, NoEdits;
    StepOfRequestDelete(s, RequestDelete(key, force));
    StepOrderly(s, RequestDelete(key, force));
    MarkSeals(s, Step(s, RequestDelete(key, force)), key);
  }

  lemma MarkSeals(s: State, t: State, key: QueueKey)
    requires key in s.queues && t.queues == s.queues[key := s.queues[key].(status := Deleting)] && t.edits == s.edits
    requires NoEdits(s, key)
    ensures Sealed(t, key)
  {
    forall token ensures !EditOf(t, token, key) {
      assert !EditOf(s, token, key);
    }
  }

  method ForceCancelActive(db: Database, key: QueueKey, ghost env: nat -> seq<Event>, ghost turn: nat,
                           ghost s0: State, ghost moves: seq<Move>)
      returns (ghost more: seq<Move>)
    requires InFlight(db.View(), key, ForceCancelling)
    requires Woven(s0, moves, db.View(), env, turn) && CascadeSteps(By(moves, true), key)
    modifies db`jobs, db`cascades
    ensures InFlight(db.View(), key, DeletingJobs)
    ensures Woven(s0, more, db.View(), env, turn) && CascadeSteps(By(more, true), key)
    ensures By(more, true) == By(moves, true) + [ForceCancel(key)]
    ensures forall id :: id in db.jobs && db.jobs[id].project == key.project && db.jobs[id].queue == key.name ==>
              db.jobs[id].status in {Completed, Cancelled, Failed, Dlq}
    ensures Shrunk(old(db.View()), db.View(), key)
  {
    hide Step, Run, By, Woven, Orderly, NoEdits, CascadeSteps, Shrunk;
    ghost var s, e := db.View(), ForceCancel(key);
    StepOfForceCancel(s, e);
    ForceCancelReady(s, key);
    StepShrinks(s, e, key);
    OwnStep(s0, moves, s, env, turn, e);
    CascadeStepsSnoc(By(moves, true), e, key);
    var _ := db.ForceCancelActiveByQueue(key);
    db.cascades := db.cascades[key := DeletingJobs];
    OwnCascadeStep(s, e, key);
    more := moves + [Own(e)];
  }

  lemma ForceCancelReady(s: State, key: QueueKey)
    requires key in s.cascades && s.cascades[key] == ForceCancelling
    ensures Enabled(s, ForceCancel(key))
  {
  }
}
