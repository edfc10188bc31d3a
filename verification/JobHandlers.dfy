/** The handlers that read a job, change their private copy and save it whole
    (internal/application/service/queue/router/service.go, job/service.go).  Others run after the guard,
    after the read, and while a job is published. */
module JobHandlers {
  import opened Wrappers
  import opened JobModel
  import opened QueueState
  import opened QueueSteps
  import opened StepEquations
  import opened JobHistory
  import opened CascadeSafety
  import opened Barrier
  import opened Stranding
  import opened Storage
  import opened Interleaving
  import opened StatementMeaning

  // ---- one handler among others ----

  /** The events that act for the handler `token`. */
  predicate ActsFor(e: Event, token: nat) {
    (JobEvent(e) || e.EnqueueInsert?) && e.token == token
  }

  /** Nobody else acts for the handler `token`. */
  ghost predicate OtherHandlers(es: seq<Event>, token: nat) {
    forall e :: e in es ==> !ActsFor(e, token)
  }

  ghost predicate Alone(env: nat -> seq<Event>, token: nat) {
    forall n :: OtherHandlers(env(n), token)
  }

  /** The handler's visit and copy, or their absence, are as they were. */
  ghost predicate SameHandler(s: State, t: State, token: nat) {
    && (token in t.copies <==> token in s.copies) && (token in s.copies ==> t.copies[token] == s.copies[token])
    && (token in t.visits <==> token in s.visits) && (token in s.visits ==> t.visits[token] == s.visits[token])
  }

  lemma SameHandlerStep(s: State, e: Event, token: nat)
    requires !ActsFor(e, token)
    ensures SameHandler(s, Step(s, e), token)
  {
    hide Step, Enabled;
    SameCopyStep(s, e, token);
    SameVisitStep(s, e, token);
  }

  lemma SameCopyStep(s: State, e: Event, token: nat)
    requires !ActsFor(e, token)
    ensures token in Step(s, e).copies <==> token in s.copies
    ensures token in s.copies ==> Step(s, e).copies[token] == s.copies[token]
  {
    hide *;
    if e.JobRead? {
      CopiesAfterRead(s, e);
    } else if e.JobSave? {
      OtherSave(s, e, token);
    } else if e.EnqueueInsert? {
      CopiesAfterInsert(s, e);
    } else {
      OthersKeepCopies(s, e, token);
    }
    NotActing(e, token);
  }

  lemma NotActing(e: Event, token: nat)
    requires !ActsFor(e, token)
    ensures e.JobRead? || e.JobSave? || e.JobVisit? || e.JobAbandon? || e.EnqueueInsert? ==> e.token != token
  {
  }

  lemma OtherSave(s: State, e: Event, token: nat)
    requires e.JobSave? && !ActsFor(e, token)
    ensures token in Step(s, e).copies <==> token in s.copies
    ensures token in s.copies ==> Step(s, e).copies[token] == s.copies[token]
  {
    hide Step, Enabled, JobsSaved, CopiesSaved;
    StepOfSave(s, e);
    if Enabled(s, e) { CopiesAfterSave(s, e.token); }
  }

  lemma SameVisitStep(s: State, e: Event, token: nat)
    requires !ActsFor(e, token)
    ensures token in Step(s, e).visits <==> token in s.visits
    ensures token in s.visits ==> Step(s, e).visits[token] == s.visits[token]
  {
    hide Step, Enabled, QueueWritable;
    if e.JobVisit? {
      StepOfVisit(s, e);
    } else if e.JobRead? {
      VisitUsedUp(s, e);
    } else if e.JobAbandon? {
      StepOfJobAbandon(s, e);
    } else if e.JobSave? {
      VisitsAfterSave(s, e);
    } else {
      OthersKeepVisits(s, e);
    }
  }

  lemma VisitsAfterSave(s: State, e: Event)
    requires e.JobSave?
    ensures Step(s, e).visits == s.visits
  {
    hide *;
    StepOfSave(s, e);
  }

  lemma {:induction false} HandlerStays(s: State, es: seq<Event>, token: nat)
    requires OtherHandlers(es, token)
    ensures SameHandler(s, Run(s, es), token)
    decreases |es|
  {
    hide Step, ActsFor;
    if es != [] {
      var init, e := es[..|es| - 1], es[|es| - 1];
      HandlerStays(s, init, token);
      assert e in es;
      SameHandlerStep(Run(s, init), e, token);
    }
  }

  lemma WovenOrderly(s0: State, moves: seq<Move>, s: State, env: nat -> seq<Event>, n: nat)
    requires Orderly(s0) && Woven(s0, moves, s, env, n)
    ensures Orderly(s)
  {
    hide Run, Orderly;
    RunOrderly(s0, Events(moves));
  }

  /** Others at work while the handler is under way. */
  method HandlerPause(db: Database, ghost token: nat, env: nat -> seq<Event>, ghost n: nat, es: seq<Event>,
                      ghost s0: State, ghost moves: seq<Move>)
      returns (ghost more: seq<Move>)
    requires es == env(n) && Woven(s0, moves, db.View(), env, n) && Alone(env, token)
    modifies db
    ensures moves <= more && Woven(s0, more, db.View(), env, n + 1) && By(more, true) == By(moves, true)
    ensures SameHandler(old(db.View()), db.View(), token) && db.now >= old(db.now)
  {
    hide Run, Step, By, Woven;
    HandlerStays(db.View(), es, token);
    more := Yield(db, env, n, es, s0, moves);
  }

  // ---- a handler's own statements ----

  /** The guard lets the handler through. */
  method Visit(db: Database, token: nat, key: QueueKey, ghost env: nat -> seq<Event>)
      returns (ghost moves: seq<Move>)
    requires token !in db.copies && token !in db.visits && QueueWritable(db.View(), key).Ok?
    modifies db`visits
    ensures Woven(old(db.View()), moves, db.View(), env, 0) && By(moves, true) == [JobVisit(token, key)]
    ensures db.visits == old(db.visits)[token := key]
  {
    hide Step, Run, By, Woven, QueueWritable;
    ghost var s0, e := db.View(), JobVisit(token, key);
    StepOfVisit(s0, e);
    db.visits := db.visits[token := key];
    NoMoves(s0, env);
    OwnStep(s0, [], s0, env, 0, e);
    moves := [] + [Own(e)];
  }

  /** The handler may read now: past the guard, or as the scheduler. */
  predicate MayRead(s: State, token: nat, key: QueueKey, change: Change) {
    && token !in s.copies
    && (if change.Promoting? then token !in s.visits else token in s.visits && s.visits[token] == key)
  }

  /** The handler has read the job, and goes ahead with it. */
  method Hold(db: Database, token: nat, key: QueueKey, id: JobId, change: Change, ghost env: nat -> seq<Event>,
              ghost n: nat, ghost s0: State, ghost moves: seq<Move>)
      returns (ghost more: seq<Move>)
    requires Woven(s0, moves, db.View(), env, n)
    requires MayRead(db.View(), token, key, change) && GoesAhead(db.View(), key, id, change)
    modifies db`copies, db`visits
    ensures Woven(s0, more, db.View(), env, n) && more == moves + [Own(JobRead(token, key, id, change))]
    ensures By(more, true) == By(moves, true) + [JobRead(token, key, id, change)]
    ensures id in db.jobs && change.Fits(db.jobs[id])
    ensures db.copies == old(db.copies)[token := JobCopy(id, db.jobs[id], change)]
    ensures db.visits == Without(old(db.visits), {token})
  {
    hide Step, Run, By, Woven, GoesAhead, Enabled;
    ghost var s, e := db.View(), JobRead(token, key, id, change);
    StepOfRead(s, e);
    db.copies := db.copies[token := JobCopy(id, db.jobs[id], change)];
    db.visits := Without(db.visits, {token});
    OwnStep(s0, moves, s, env, n, e);
    more := moves + [Own(e)];
  }

  /** The handler has read no job it can go ahead with. */
  method TurnAway(db: Database, token: nat, key: QueueKey, id: JobId, ghost change: Change,
                  ghost env: nat -> seq<Event>, ghost n: nat, ghost s0: State, ghost moves: seq<Move>)
      returns (ghost more: seq<Move>)
    requires Woven(s0, moves, db.View(), env, n)
    requires MayRead(db.View(), token, key, change) && !GoesAhead(db.View(), key, id, change)
    modifies db`visits
    ensures Woven(s0, more, db.View(), env, n) && more == moves + [Own(JobRead(token, key, id, change))]
    ensures By(more, true) == By(moves, true) + [JobRead(token, key, id, change)]
    ensures db.visits == Without(old(db.visits), {token})
  {
    hide Step, Run, By, Woven, GoesAhead, Enabled;
    ghost var s, e := db.View(), JobRead(token, key, id, change);
    StepOfRead(s, e);
    db.visits := Without(db.visits, {token});
    OwnStep(s0, moves, s, env, n, e);
    more := moves + [Own(e)];
  }

  /** Saves the changed copy, whatever has become of the row. */
  method Release(db: Database, token: nat, j: JobEntity, ghost env: nat -> seq<Event>, ghost n: nat, ghost s0: State,
                 ghost moves: seq<Move>)
      returns (ok: bool, ghost more: seq<Move>)
    requires Orderly(s0) && Woven(s0, moves, db.View(), env, n)
    requires token in db.copies && Saveable(db.View(), db.copies[token])
    requires j.id == db.copies[token].id
    requires j.Row() == db.copies[token].change.Of(db.copies[token].read, db.now)
    modifies db`jobs, db`copies
    ensures Woven(s0, more, db.View(), env, n) && more == moves + [Own(JobSave(token))]
    ensures By(more, true) == By(moves, true) + [JobSave(token)]
    ensures ok <==> Storable(old(db.View()), old(db.copies)[token])
    ensures db.copies == CopiesSaved(old(db.View()), token) && db.jobs == JobsSaved(old(db.View()), old(db.copies)[token])
  {
    hide Step, Run, By, Woven, Enabled, Change.Of, ByIdempotencyKey, CopiesSaved, Orderly, Saveable;
    ghost var s, e := db.View(), JobSave(token);
    ghost var c := s.copies[token];
    WovenOrderly(s0, moves, s, env, n);
    SavesGoThrough(s, token);
    StepOfSave(s, e);
    OwnStep(s0, moves, s, env, n, e);
    ChangeKeepsIdentity(c, s.now);
    var after := CopiesSaved(db.View(), token);
    ok := db.Save(j);
    db.copies := after;
    more := moves + [Own(e)];
  }

  /** The handler does not save its copy. */
  method GiveUp(db: Database, token: nat, ghost env: nat -> seq<Event>, ghost n: nat, ghost s0: State,
                ghost moves: seq<Move>)
      returns (ghost more: seq<Move>)
    requires Woven(s0, moves, db.View(), env, n) && token in db.copies && token !in db.visits
    modifies db`copies
    ensures Woven(s0, more, db.View(), env, n) && more == moves + [Own(JobAbandon(token))]
    ensures By(more, true) == By(moves, true) + [JobAbandon(token)]
    ensures db.copies == Without(old(db.copies), {token})
  {
    hide Step, Run, By, Woven;
    ghost var s, e := db.View(), JobAbandon(token);
    StepOfJobAbandon(s, e);
    assert Without(s.visits, {token}) == s.visits;
    OwnStep(s0, moves, s, env, n, e);
    db.copies := Without(db.copies, {token});
    more := moves + [Own(e)];
  }

  /** Publishes the row just inserted or saved, if it is claimable by now, and saves it once more if the
      broker has taken it (`published`). */
  method Publish(db: Database, token: nat, j: JobEntity, published: bool, env: nat -> seq<Event>, n: nat,
                 ghost s0: State, ghost moves: seq<Move>)
      returns (saved: bool, ghost more: seq<Move>, turn: nat)
    requires Orderly(s0) && Woven(s0, moves, db.View(), env, n) && Alone(env, token)
    requires token in db.copies && token !in db.visits && db.copies[token] == JobCopy(j.id, j.Row(), Republishing)
    modifies db
    ensures Woven(s0, more, db.View(), env, turn)
    ensures saved <==> published && j.Row().IsClaimable(old(db.now))
    ensures db.now >= old(db.now)
    ensures moves <= more
    ensures By(more, true) == By(moves, true) + [if saved then JobSave(token) else JobAbandon(token)]
    ensures token !in db.copies && token !in db.visits
  {
    hide Step, Run, By, Woven, Orderly, Storable;
    more, turn := moves, n;
    if j.Row().IsClaimable(db.now) {
      ghost var at := db.now;
      more := HandlerPause(db, token, env, n, env(n), s0, more);
      turn := n + 1;
      if published {
        StillClaimable(j.Row(), at, db.now);
        var stored;
        stored, more := Release(db, token, j, env, turn, s0, more);
        return true, more, turn;
      }
    }
    more := GiveUp(db, token, env, turn, s0, more);
    saved := false;
  }

  lemma StillClaimable(j: Job, at: int, now: int)
    requires j.IsClaimable(at) && at <= now
    ensures j.IsClaimable(now)
  {
  }

  /** The guard, and others at work before the handler reads its job. */
  method Begin(db: Database, token: nat, key: QueueKey, env: nat -> seq<Event>)
      returns (w: Writable, ghost moves: seq<Move>)
    requires token !in db.copies && token !in db.visits && Alone(env, token)
    modifies db
    ensures w == QueueWritable(old(db.View()), key)
    ensures w != Ok ==> moves == [] && db.View() == old(db.View())
    ensures w == Ok ==>
              && Woven(old(db.View()), moves, db.View(), env, 1) && By(moves, true) == [JobVisit(token, key)]
              && token !in db.copies && token in db.visits && db.visits[token] == key
  {
    hide Step, Run, By, Woven, QueueWritable;
    ghost var s0 := db.View();
    w := QueueWritable(db.View(), key);
    moves := [];
    if w == Ok {
      moves := Visit(db, token, key, env);
      moves := HandlerPause(db, token, env, 0, env(0), s0, moves);
    }
  }

  /** The handler holds the job it has read, and others are at work before it saves it. */
  method HoldOn(db: Database, token: nat, key: QueueKey, id: JobId, change: Change, env: nat -> seq<Event>,
                ghost s0: State, ghost moves: seq<Move>)
      returns (ghost more: seq<Move>)
    requires Woven(s0, moves, db.View(), env, 1) && Alone(env, token)
    requires MayRead(db.View(), token, key, change) && GoesAhead(db.View(), key, id, change)
    modifies db
    ensures Woven(s0, more, db.View(), env, 2) && moves + [Own(JobRead(token, key, id, change))] <= more
    ensures By(more, true) == By(moves, true) + [JobRead(token, key, id, change)]
    ensures id in old(db.jobs) && change.Fits(old(db.jobs)[id])
    ensures token in db.copies && db.copies[token] == JobCopy(id, old(db.jobs)[id], change) && token !in db.visits
  {
    hide Step, Run, By, Woven, GoesAhead;
    more := Hold(db, token, key, id, change, env, 1, s0, moves);
    more := HandlerPause(db, token, env, 1, env(1), s0, more);
  }

  // ---- what a handler has done ----

  /** The state in which the `at`-th move was made. */
  ghost function StateAt(s0: State, moves: seq<Move>, at: nat): State
    requires at <= |moves|
  {
    Run(s0, Events(moves[..at]))
  }

  /** The handler's own statements: the read, and if it went ahead the save; what the read said (`check`) is
      the answer, unless the save is refused. */
  ghost predicate HandlerDone(r: Outcome, check: Outcome, own: seq<Event>, token: nat, key: QueueKey, id: JobId,
                              change: Change)
  {
    var read := [JobVisit(token, key), JobRead(token, key, id, change)];
    if check.Done? then (r.Done? || r.SaveRefused?) && own == read + [JobSave(token)]
    else r == check && own == read
  }

  /** The handler's read is among the moves, and this is what it said. */
  ghost predicate ReadAt(s0: State, moves: seq<Move>, at: nat, token: nat, key: QueueKey, id: JobId, change: Change,
                         s: State)
  {
    at < |moves| && moves[at] == Own(JobRead(token, key, id, change)) && s == StateAt(s0, moves, at)
  }

  lemma ReadWasAt(s0: State, before: seq<Move>, moves: seq<Move>, env: nat -> seq<Event>, n: nat, token: nat,
                  key: QueueKey, id: JobId, change: Change, s: State)
    requires Woven(s0, before, s, env, n) && before + [Own(JobRead(token, key, id, change))] <= moves
    ensures ReadAt(s0, moves, |before|, token, key, id, change, s)
  {
    hide Run;
    assert moves[..|before|] == before;
  }

  lemma DoneIsStored(s: State, c: Copy)
    ensures c.id in JobsSaved(s, c) <==> Storable(s, c)
  {
    hide Change.Of, ByIdempotencyKey;
  }

  // ---- router: ack ----

  /** Finds the job, and checks that it runs and that the worker may settle it. */
  method FindToSettle(db: Database, key: QueueKey, id: JobId, worker: string) returns (j: JobEntity?, r: Outcome)
    ensures r == SettleOutcome(db.View(), key, id, worker) && !r.Barred? && !r.SaveRefused?
    ensures r.Done? ==> j != null && id in db.jobs && j.id == id && j.Row() == db.jobs[id] && KeyOf(j.Row()) == key
    ensures j != null ==> fresh(j)
  {
    j := db.FindByID(key, id);
    r := if j == null then NotFound
         else if !j.status.Running? then InvalidTransition
         else if !WorkerAllowed(j.Row(), worker) then WorkerMismatch
         else Done;
  }

  lemma SettleGoesAhead(s: State, key: QueueKey, id: JobId, change: Change)
    requires change.Completing? || change.Failing?
    ensures GoesAhead(s, key, id, change) <==> SettleOutcome(s, key, id, change.worker).Done?
  {
  }

  method AckJob(db: Database, token: nat, key: QueueKey, id: JobId, worker: string, result: string,
                env: nat -> seq<Event>)
      returns (r: Outcome, ghost moves: seq<Move>, ghost pauses: nat, ghost at: nat, ghost s: State)
    requires Orderly(db.View()) && token !in db.copies && token !in db.visits && Alone(env, token)
    modifies db
    ensures Woven(old(db.View()), moves, db.View(), env, pauses) && token !in db.copies && token !in db.visits
    ensures r.Barred? <==> QueueWritable(old(db.View()), key) != Ok
    ensures r.Barred? ==> moves == [] && r.w == QueueWritable(old(db.View()), key)
    ensures !r.Barred? ==> ReadAt(old(db.View()), moves, at, token, key, id, Completing(worker, result), s)
    ensures !r.Barred? ==> HandlerDone(r, SettleOutcome(s, key, id, worker), By(moves, true), token, key, id,
                                       Completing(worker, result))
    ensures !r.Barred? ==>
              var there := id in s.jobs && s.jobs[id].project == key.project && s.jobs[id].queue == key.name;
              && (r.NotFound? <==> !there) && (r.InvalidTransition? <==> there && s.jobs[id].status != Running)
              && (r.WorkerMismatch? <==>
                    there && s.jobs[id].status == Running && s.jobs[id].workerId !in {"", worker})
    ensures r.Done? ==> id in db.jobs
    ensures r.SaveRefused? ==> id !in db.jobs
  {
    hide Step, Run, By, Woven, Orderly, QueueWritable, CopiesSaved, Storable, StateAt, ReadAt, SettleOutcome,
         GoesAhead, WorkerAllowed;
    ghost var s0, change := db.View(), Completing(worker, result);
    NoMoves(s0, env);
    var w;
    w, moves := Begin(db, token, key, env);
    pauses, at, s := 0, |moves|, db.View();
    if w != Ok {
      return Barred(w), moves, pauses, at, s;
    }
    pauses := 1;
    RefusalsMean(s, key, id, worker);
    ghost var before := moves;
    var j;
    j, r := FindToSettle(db, key, id, worker);
    SettleGoesAhead(s, key, id, change);
    if r != Done {
      moves := TurnAway(db, token, key, id, change, env, 1, s0, moves);
      ReadWasAt(s0, before, moves, env, 1, token, key, id, change, s);
      return;
    }
    moves := HoldOn(db, token, key, id, Completing(worker, result), env, s0, moves);
    pauses := 2;
    j.MarkCompleted(result, db.now);
    var ok;
    DoneIsStored(db.View(), db.copies[token]);
    SavedForGood(db.View(), token);
    ok, moves := Release(db, token, j, env, 2, s0, moves);
    ReadWasAt(s0, before, moves, env, 1, token, key, id, change, s);
    r := if ok then Done else SaveRefused;
  }

  /** A handler that does not publish is done once it has saved. */
  lemma SavedForGood(s: State, token: nat)
    requires token in s.copies
    ensures !s.copies[token].change.Publishes(s.copies[token].read) ==> token !in CopiesSaved(s, token)
  {
  }

  // ---- router and job service: cancel, control retry ----

  method CancelJob(db: Database, token: nat, key: QueueKey, id: JobId, env: nat -> seq<Event>)
      returns (r: Outcome, ghost moves: seq<Move>, ghost pauses: nat, ghost at: nat, ghost s: State)
    requires Orderly(db.View()) && token !in db.copies && token !in db.visits && Alone(env, token)
    modifies db
    ensures Woven(old(db.View()), moves, db.View(), env, pauses) && token !in db.copies && token !in db.visits
    ensures r.Barred? <==> QueueWritable(old(db.View()), key) != Ok
    ensures r.Barred? ==> moves == [] && r.w == QueueWritable(old(db.View()), key)
    ensures !r.Barred? ==> ReadAt(old(db.View()), moves, at, token, key, id, Cancelling, s)
    ensures !r.Barred? ==> HandlerDone(r, CancelOutcome(s, key, id), By(moves, true), token, key, id,
                                       Cancelling)
    ensures !r.Barred? ==>
              var there := id in s.jobs && s.jobs[id].project == key.project && s.jobs[id].queue == key.name;
              && (r.NotFound? <==> !there)
              && (r.InvalidTransition? <==> there && s.jobs[id].status in {Completed, Cancelled, Dlq})
              && (r.Done? || r.SaveRefused? <==> there && s.jobs[id].status in {Pending, Scheduled, Running, Failed})
    ensures r.Done? ==> id in db.jobs
    ensures r.SaveRefused? ==> id !in db.jobs
  {
    hide Step, Run, By, Woven, Orderly, QueueWritable, CopiesSaved, Storable, StateAt, ReadAt;
    ghost var s0, change := db.View(), Cancelling;
    NoMoves(s0, env);
    var w;
    w, moves := Begin(db, token, key, env);
    pauses, at, s := 0, |moves|, db.View();
    if w != Ok {
      return Barred(w), moves, pauses, at, s;
    }
    pauses := 1;
    CancelMeans(s, key, id);
    ghost var before := moves;
    var j := db.FindByID(key, id);
    r := if j == null then NotFound
         else if j.status.Completed? || j.status.Cancelled? || j.status.Dlq? then InvalidTransition
         else Done;
    if r != Done {
      moves := TurnAway(db, token, key, id, change, env, 1, s0, moves);
      ReadWasAt(s0, before, moves, env, 1, token, key, id, change, s);
      return;
    }
    moves := HoldOn(db, token, key, id, Cancelling, env, s0, moves);
    pauses := 2;
    j.MarkCancelled(db.now);
    var ok;
    DoneIsStored(db.View(), db.copies[token]);
    SavedForGood(db.View(), token);
    ok, moves := Release(db, token, j, env, 2, s0, moves);
    ReadWasAt(s0, before, moves, env, 1, token, key, id, change, s);
    r := if ok then Done else SaveRefused;
  }

  lemma CancelMeans(s: State, key: QueueKey, id: JobId)
    ensures
      var there := id in s.jobs && s.jobs[id].project == key.project && s.jobs[id].queue == key.name;
      && CancelOutcome(s, key, id) ==
         (if !there then NotFound else if s.jobs[id].status in {Completed, Cancelled, Dlq} then InvalidTransition
          else Outcome.Done)
      && (there ==> (s.jobs[id].status !in {Completed, Cancelled, Dlq} <==>
                     s.jobs[id].status in {Pending, Scheduled, Running, Failed}))
  {
    if id in s.jobs { SevenStatuses(s.jobs[id].status); }
  }

  method RetryJob(db: Database, token: nat, key: QueueKey, id: JobId, env: nat -> seq<Event>)
      returns (r: Outcome, ghost moves: seq<Move>, ghost pauses: nat, ghost at: nat, ghost s: State)
    requires Orderly(db.View()) && token !in db.copies && token !in db.visits && Alone(env, token)
    modifies db
    ensures Woven(old(db.View()), moves, db.View(), env, pauses) && token !in db.copies && token !in db.visits
    ensures r.Barred? <==> QueueWritable(old(db.View()), key) != Ok
    ensures r.Barred? ==> moves == [] && r.w == QueueWritable(old(db.View()), key)
    ensures !r.Barred? ==> ReadAt(old(db.View()), moves, at, token, key, id, Reviving, s)
    ensures !r.Barred? ==> HandlerDone(r, RetryOutcome(s, key, id), By(moves, true), token, key, id,
                                       Reviving)
    ensures !r.Barred? ==>
              var there := id in s.jobs && s.jobs[id].project == key.project && s.jobs[id].queue == key.name;
              && (r.NotFound? <==> !there)
              && (r.InvalidTransition? <==> there && s.jobs[id].status !in {Failed, Dlq})
              && (r.Done? || r.SaveRefused? <==> there && s.jobs[id].status in {Failed, Dlq})
    ensures r.Done? ==> id in db.jobs
    ensures r.SaveRefused? ==> id !in db.jobs
  {
    hide Step, Run, By, Woven, Orderly, QueueWritable, CopiesSaved, Storable, StateAt, ReadAt;
    ghost var s0, change := db.View(), Reviving;
    NoMoves(s0, env);
    var w;
    w, moves := Begin(db, token, key, env);
    pauses, at, s := 0, |moves|, db.View();
    if w != Ok {
      return Barred(w), moves, pauses, at, s;
    }
    pauses := 1;
    RefusalsMean(s, key, id, "");
    ghost var before := moves;
    var j := db.FindByID(key, id);
    r := if j == null then NotFound
         else if !j.status.Failed? && !j.status.Dlq? then InvalidTransition
         else Done;
    if r != Done {
      moves := TurnAway(db, token, key, id, change, env, 1, s0, moves);
      ReadWasAt(s0, before, moves, env, 1, token, key, id, change, s);
      return;
    }
    moves := HoldOn(db, token, key, id, Reviving, env, s0, moves);
    pauses := 2;
    j.MarkRetryFromControl(db.now);
    var ok;
    DoneIsStored(db.View(), db.copies[token]);
    SavedForGood(db.View(), token);
    ok, moves := Release(db, token, j, env, 2, s0, moves);
    ReadWasAt(s0, before, moves, env, 1, token, key, id, change, s);
    r := if ok then Done else SaveRefused;
  }

  // ---- router: nack ----

  /** The handler's first save is among the moves, and this was the state it met. */
  ghost predicate SaveAt(s0: State, moves: seq<Move>, at: nat, token: nat, s: State) {
    at < |moves| && moves[at] == Own(JobSave(token)) && s == StateAt(s0, moves, at) && token in s.copies
  }

  lemma SaveWasAt(s0: State, before: seq<Move>, moves: seq<Move>, env: nat -> seq<Event>, n: nat, token: nat, s: State)
    requires Woven(s0, before, s, env, n) && before + [Own(JobSave(token))] <= moves && token in s.copies
    ensures SaveAt(s0, moves, |before|, token, s)
  {
    hide Run;
    assert moves[..|before|] == before;
  }

  /** What a handler holds once it has saved. */
  lemma AfterSave(s: State, token: nat)
    requires token in s.copies
    ensures
      var c, after := s.copies[token], CopiesSaved(s, token);
      && (token in after <==> GoesOn(s, c))
      && (token in after ==> after[token] == JobCopy(c.id, c.change.Of(c.read, s.now), Republishing))
  {
    hide CopiesSaved, Storable, Change.Of;
    CopiesAfterSave(s, token);
  }

  /** The handler's own statements: the read; if it went ahead, in state `s`, the save, in state `t`; and if
      that put the job back into a queue that is there, the second save, if the job is due at once, which takes an
      overflowing default delay, and the broker has taken it. */
  ghost predicate NackDone(r: Outcome, check: Outcome, own: seq<Event>, t: State, token: nat, key: QueueKey, id: JobId,
                           change: Change, published: bool)
    requires change.Failing?
  {
    var read := [JobVisit(token, key), JobRead(token, key, id, change)];
    if !check.Done? then r == check && own == read
    else
      && token in t.copies
      && r == (if Storable(t, t.copies[token]) then Done else SaveRefused)
      && if GoesOn(t, t.copies[token])
         then
           var again := published && change.retryDelay <= 0 && DefaultBackoff(t.copies[token].read.attempt) <= 0;
           own == read + [JobSave(token)] + [if again then JobSave(token) else JobAbandon(token)]
         else own == read + [JobSave(token)]
  }

  /** `published` is the broker's answer. */
  method NackJob(db: Database, token: nat, key: QueueKey, id: JobId, worker: string, reason: string,
                 retryDelay: int, published: bool, env: nat -> seq<Event>)
      returns (r: Outcome, ghost moves: seq<Move>, pauses: nat, ghost at: nat, ghost s: State,
               ghost savedAt: nat, ghost t: State)
    requires Orderly(db.View()) && token !in db.copies && token !in db.visits && Alone(env, token)
    modifies db
    ensures Woven(old(db.View()), moves, db.View(), env, pauses) && token !in db.copies && token !in db.visits
    ensures r.Barred? <==> QueueWritable(old(db.View()), key) != Ok
    ensures r.Barred? ==> moves == [] && r.w == QueueWritable(old(db.View()), key)
    ensures !r.Barred? ==> ReadAt(old(db.View()), moves, at, token, key, id, Failing(worker, reason, retryDelay), s)
    ensures !r.Barred? ==> NackDone(r, SettleOutcome(s, key, id, worker), By(moves, true), t, token, key, id,
                                    Failing(worker, reason, retryDelay), published)
    ensures !r.Barred? ==>
              var there := id in s.jobs && s.jobs[id].project == key.project && s.jobs[id].queue == key.name;
              && (r.NotFound? <==> !there) && (r.InvalidTransition? <==> there && s.jobs[id].status != Running)
              && (r.WorkerMismatch? <==>
                    there && s.jobs[id].status == Running && s.jobs[id].workerId !in {"", worker})
    ensures r.Done? || r.SaveRefused? ==> SaveAt(old(db.View()), moves, savedAt, token, t)
  {
    hide Step, Run, By, Woven, Orderly, QueueWritable, StateAt, ReadAt, SaveAt, SettleOutcome, NackDone;
    ghost var s0 := db.View();
    NoMoves(s0, env);
    var w;
    w, moves := Begin(db, token, key, env);
    pauses, at, s, savedAt, t := 0, |moves|, db.View(), 0, db.View();
    if w != Ok {
      return Barred(w), moves, pauses, at, s, savedAt, t;
    }
    r, moves, pauses, at, s, savedAt, t := NackPassed(db, token, key, id, worker, reason, retryDelay, published, env, s0,
                                                      moves);
    RefusalsMean(s, key, id, worker);
  }

  /** A nack past the guard. */
  method NackPassed(db: Database, token: nat, key: QueueKey, id: JobId, worker: string, reason: string,
                    retryDelay: int, published: bool, env: nat -> seq<Event>, ghost s0: State, ghost moves: seq<Move>)
      returns (r: Outcome, ghost more: seq<Move>, pauses: nat, ghost at: nat, ghost s: State,
               ghost savedAt: nat, ghost t: State)
    requires Orderly(s0) && Woven(s0, moves, db.View(), env, 1) && By(moves, true) == [JobVisit(token, key)]
    requires token !in db.copies && token in db.visits && db.visits[token] == key && Alone(env, token)
    modifies db
    ensures Woven(s0, more, db.View(), env, pauses) && token !in db.copies && token !in db.visits
    ensures !r.Barred? && (r.Done? || r.SaveRefused? || r == SettleOutcome(s, key, id, worker))
    ensures SettleOutcome(s, key, id, worker).Done? ==> r.Done? || r.SaveRefused?
    ensures r.Done? || r.SaveRefused? ==> SettleOutcome(s, key, id, worker).Done?
    ensures ReadAt(s0, more, at, token, key, id, Failing(worker, reason, retryDelay), s)
    ensures NackDone(r, SettleOutcome(s, key, id, worker), By(more, true), t, token, key, id,
                     Failing(worker, reason, retryDelay), published)
    ensures r.Done? || r.SaveRefused? ==> SaveAt(s0, more, savedAt, token, t)
  {
    hide Step, Run, By, Woven, Orderly, Storable, StateAt, ReadAt, SaveAt, GoesOn, SettleOutcome, GoesAhead;
    ghost var change := Failing(worker, reason, retryDelay);
    pauses, at, s, savedAt, t := 1, |moves|, db.View(), 0, db.View();
    var j;
    j, r := FindToSettle(db, key, id, worker);
    SettleGoesAhead(s, key, id, change);
    if r != Done {
      more := TurnAway(db, token, key, id, change, env, 1, s0, moves);
      ReadWasAt(s0, moves, more, env, 1, token, key, id, change, s);
      return;
    }
    more := HoldOn(db, token, key, id, Failing(worker, reason, retryDelay), env, s0, moves);
    var ok;
    ok, more, pauses, savedAt, t := NackHeld(db, token, j, key, reason, retryDelay, published, env, s0, more);
    ReadWasAt(s0, moves, more, env, 1, token, key, id, change, s);
    r := if ok then Done else SaveRefused;
  }

  /** What a nack does with the job it holds. */
  method NackHeld(db: Database, token: nat, j: JobEntity, key: QueueKey, reason: string, retryDelay: int,
                  published: bool, env: nat -> seq<Event>, ghost s0: State, ghost moves: seq<Move>)
      returns (ok: bool, ghost more: seq<Move>, pauses: nat, ghost savedAt: nat, ghost t: State)
    requires Orderly(s0) && Woven(s0, moves, db.View(), env, 2) && Alone(env, token)
    requires token in db.copies && token !in db.visits
    requires j.id == db.copies[token].id && j.Row() == db.copies[token].read
    requires db.copies[token].change.Failing? && KeyOf(j.Row()) == key
    requires db.copies[token].change.reason == reason && db.copies[token].change.retryDelay == retryDelay
    modifies j, db
    ensures Woven(s0, more, db.View(), env, pauses) && token !in db.copies && token !in db.visits && moves <= more
    ensures SaveAt(s0, more, savedAt, token, t) && token in t.copies && (ok <==> Storable(t, t.copies[token]))
    ensures if GoesOn(t, t.copies[token])
            then
              var again := published && retryDelay <= 0 && DefaultBackoff(t.copies[token].read.attempt) <= 0;
              By(more, true) == By(moves, true) + [JobSave(token)] + [if again then JobSave(token) else JobAbandon(token)]
            else By(more, true) == By(moves, true) + [JobSave(token)]
  {
    hide Step, Run, By, Woven, Orderly, Storable, SaveAt, GoesOn;
    t, savedAt := db.View(), |moves|;
    var goesOn;
    ok, goesOn, more := SaveNacked(db, token, j, key, reason, retryDelay, env, s0, moves);
    pauses := 2;
    if goesOn {
      var saved;
      saved, more, pauses := Publish(db, token, j, published, env, 2, s0, more);
    }
    SaveWasAt(s0, moves, more, env, 2, token, t);
  }

  /** Retries or dead-letters the job, saves it, and looks the queue up to publish it. */
  method SaveNacked(db: Database, token: nat, j: JobEntity, key: QueueKey, reason: string, retryDelay: int,
                    ghost env: nat -> seq<Event>, ghost s0: State, ghost moves: seq<Move>)
      returns (ok: bool, goesOn: bool, ghost more: seq<Move>)
    requires Orderly(s0) && Woven(s0, moves, db.View(), env, 2)
    requires token in db.copies && j.id == db.copies[token].id && j.Row() == db.copies[token].read
    requires db.copies[token].change.Failing? && KeyOf(j.Row()) == key
    requires db.copies[token].change.reason == reason && db.copies[token].change.retryDelay == retryDelay
    modifies j, db`jobs, db`copies
    ensures Woven(s0, more, db.View(), env, 2) && more == moves + [Own(JobSave(token))]
    ensures By(more, true) == By(moves, true) + [JobSave(token)]
    ensures ok <==> Storable(old(db.View()), old(db.copies)[token])
    ensures goesOn <==> GoesOn(old(db.View()), old(db.copies)[token])
    ensures if goesOn then token in db.copies && db.copies[token] == JobCopy(j.id, j.Row(), Republishing)
            else token !in db.copies
    ensures goesOn ==> (j.Row().IsClaimable(db.now) <==> retryDelay <= 0 && DefaultBackoff(old(j.attempt)) <= 0)
  {
    hide Step, Run, By, Woven, Orderly, Storable, CopiesSaved, JobsSaved, DefaultBackoff;
    var retried := j.attempt < j.maxAttempts;
    if retried {
      var delay := retryDelay;
      if delay <= 0 {
        delay := DefaultBackoff(j.attempt);
      }
      j.MarkRetry(delay, db.now);
    } else {
      j.MarkDlq(reason, db.now);
    }
    AfterSave(db.View(), token);
    ok, more := Release(db, token, j, env, 2, s0, moves);
    var q := db.FindQueue(key);
    goesOn := ok && retried && q.Some?;
  }
}
