/** The long poll (internal/application/service/queue/router/service.go Dequeue): the guard is
    checked once, then the claim is retried until jobs turn up, the wait is over, or the caller
    leaves.  Anything may happen between its steps, including the deletion of the queue. */
module LongPoll {
  import opened Wrappers
  import opened JobModel
  import opened QueueState
  import opened QueueSteps
  import opened StepEquations
  import opened StatementMeaning
  import opened Storage
  import opened QueueService
  import opened Interleaving

  const POLL_INTERVAL: int := 500_000_000

  // ---- what a poll does ----

  /** The jobs of the queue a claim can take: pending or scheduled, and due. */
  ghost function Awaiting(s: State, key: QueueKey): set<JobId> {
    set id | && id in s.jobs && s.jobs[id].project == key.project && s.jobs[id].queue == key.name
             && (s.jobs[id].status == Pending || s.jobs[id].status == Scheduled)
             && (s.jobs[id].scheduleAt == None || s.jobs[id].scheduleAt.value <= s.now)
  }

  /** What the poll's own claims took, in order. */
  ghost function Claims(own: seq<Event>): seq<set<JobId>> {
    if own == [] then []
    else
      var e := own[|own| - 1];
      Claims(own[..|own| - 1]) + (if e.Claim? then [e.picked] else [])
  }

  /** The poll's own steps: claims of one limit; after one that got nothing, a wait of at most 500 ms, and then
      the next claim; after one that got something for a named worker, its heartbeat, and nothing more. */
  ghost predicate PollTrace(own: seq<Event>, key: QueueKey, worker: string, limit: int) {
    forall i :: 0 <= i < |own| ==> StepFits(own, i, key, worker, limit)
  }

  ghost predicate StepFits(own: seq<Event>, i: nat, key: QueueKey, worker: string, limit: int)
    requires i < |own|
  {
    match own[i]
    case Claim(k, w, n, _) => k == key && w == worker && n == limit && (i > 0 ==> own[i - 1].Tick?)
    case Tick(d) => d <= 500_000_000 && i > 0 && own[i - 1].Claim? && own[i - 1].picked == {}
    case Heartbeat(p, w) =>
      && p == key.project && w == worker && worker != "" && i + 1 == |own|
      && i > 0 && own[i - 1].Claim? && own[i - 1].picked != {}
    case _ => false
  }

  /** Every claim the poll made was a legal one, and took as many of the queue's awaiting jobs as the limit allows. */
  ghost predicate ClaimsFull(s0: State, moves: seq<Move>, key: QueueKey, limit: int) {
    forall k :: 0 <= k < |moves| && moves[k].Own? && moves[k].e.Claim? ==>
      ClaimFull(Run(s0, Events(moves[..k])), moves[k].e, key, limit)
  }

  ghost predicate ClaimFull(s: State, e: Event, key: QueueKey, limit: int)
    requires e.Claim?
  {
    && Enabled(s, e) && e.picked <= Awaiting(s, key)
    && |e.picked| == if limit < |Awaiting(s, key)| then limit else |Awaiting(s, key)|
  }

  /** So a claim that took nothing found no job of the queue claimable. */
  lemma EmptyClaimFoundNothing(s0: State, moves: seq<Move>, key: QueueKey, limit: int, k: nat, id: JobId)
    requires ClaimsFull(s0, moves, key, limit) && limit > 0
    requires k < |moves| && moves[k].Own? && moves[k].e.Claim? && moves[k].e.picked == {}
    ensures
      var s := Run(s0, Events(moves[..k]));
      id in s.jobs && s.jobs[id].project == key.project && s.jobs[id].queue == key.name ==>
        !s.jobs[id].IsClaimable(s.now)
  {
    hide Run, Enabled;
    var s := Run(s0, Events(moves[..k]));
    assert ClaimFull(s, moves[k].e, key, limit);
    assert Awaiting(s, key) == {};
    assert id !in Awaiting(s, key);
  }

  function RowIds(rows: seq<Row>): set<JobId> {
    set r | r in rows :: r.id
  }

  // ---- keeping track ----

  lemma ClaimsSnoc(own: seq<Event>, e: Event)
    ensures Claims(own + [e]) == Claims(own) + (if e.Claim? then [e.picked] else [])
  {
    assert (own + [e])[..|own|] == own;
  }

  /** The poll's next step may be a claim. */
  ghost predicate ReadyToClaim(own: seq<Event>) {
    own != [] ==> own[|own| - 1].Tick?
  }

  /** The poll's last step is this claim. */
  ghost predicate JustClaimed(own: seq<Event>, picked: set<JobId>) {
    own != [] && own[|own| - 1].Claim? && own[|own| - 1].picked == picked
  }

  lemma TraceClaim(own: seq<Event>, key: QueueKey, worker: string, limit: int, picked: set<JobId>)
    requires PollTrace(own, key, worker, limit) && ReadyToClaim(own)
    ensures PollTrace(own + [Claim(key, worker, limit, picked)], key, worker, limit)
    ensures JustClaimed(own + [Claim(key, worker, limit, picked)], picked)
  {
    TraceSnoc(own, Claim(key, worker, limit, picked), key, worker, limit);
  }

  lemma TraceBeat(own: seq<Event>, key: QueueKey, worker: string, limit: int, picked: set<JobId>)
    requires PollTrace(own, key, worker, limit) && JustClaimed(own, picked) && picked != {} && worker != ""
    ensures PollTrace(own + [Heartbeat(key.project, worker)], key, worker, limit)
  {
    TraceSnoc(own, Heartbeat(key.project, worker), key, worker, limit);
  }

  lemma TraceSnoc(own: seq<Event>, e: Event, key: QueueKey, worker: string, limit: int)
    requires PollTrace(own, key, worker, limit) && (own != [] ==> !own[|own| - 1].Heartbeat?)
    requires StepFits(own + [e], |own|, key, worker, limit)
    ensures PollTrace(own + [e], key, worker, limit)
  {
    forall i | 0 <= i < |own| ensures StepFits(own + [e], i, key, worker, limit) {
      assert StepFits(own, i, key, worker, limit);
    }
  }

  lemma TraceTick(own: seq<Event>, key: QueueKey, worker: string, limit: int, d: nat)
    requires PollTrace(own, key, worker, limit) && JustClaimed(own, {}) && d <= 500_000_000
    ensures PollTrace(own + [Tick(d)], key, worker, limit) && ReadyToClaim(own + [Tick(d)])
  {
    TraceSnoc(own, Tick(d), key, worker, limit);
  }

  lemma FullOwn(s0: State, moves: seq<Move>, e: Event, key: QueueKey, limit: int)
    requires ClaimsFull(s0, moves, key, limit)
    requires e.Claim? ==> ClaimFull(Run(s0, Events(moves)), e, key, limit)
    ensures ClaimsFull(s0, moves + [Own(e)], key, limit)
  {
    hide Run, ClaimFull;
    var more := moves + [Own(e)];
    assert more[..|moves|] == moves;
    assert forall n :: 0 <= n < |moves| ==> more[..n] == moves[..n];
  }

  lemma FullOthers(s0: State, moves: seq<Move>, more: seq<Move>, key: QueueKey, limit: int)
    requires ClaimsFull(s0, moves, key, limit) && moves <= more && By(more, true) == By(moves, true)
    ensures ClaimsFull(s0, more, key, limit)
  {
    hide Run, ClaimFull, By;
    OthersOnly(moves, more);
  }

  lemma ClaimIsFull(s: State, key: QueueKey, worker: string, limit: int, picked: set<JobId>)
    requires limit > 0 && Enabled(s, Claim(key, worker, limit, picked))
    ensures ClaimFull(s, Claim(key, worker, limit, picked), key, limit)
  {
    hide Enabled;
    ClaimSelects(s, key, worker, limit, picked, Awaiting(s, key));
    assert Awaiting(s, key) == picked + (Awaiting(s, key) - picked);
  }

  lemma PickedRows(s: State, key: QueueKey, worker: string, limit: int, picked: set<JobId>)
    requires Enabled(s, Claim(key, worker, limit, picked)) && picked <= Awaiting(s, key)
    ensures
      var t := Step(s, Claim(key, worker, limit, picked));
      forall id :: id in picked ==>
        && id in t.jobs && KeyOf(t.jobs[id]) == key
        && t.jobs[id].status == Running && t.jobs[id].workerId == worker
        && t.jobs[id].startedAt == Some(s.now) && t.jobs[id].updatedAt == s.now
  {
    hide Step, Enabled;
    ClaimWrites(s, key, worker, limit, picked);
  }

  // ---- one attempt ----

  /** What a claim returns: rows running for this worker under a lease that starts now, as they are stored. */
  ghost predicate Leased(rows: seq<Row>, key: QueueKey, worker: string, s: State) {
    && |rows| == |RowIds(rows)|
    && forall r :: r in rows ==>
         && r.id in s.jobs && s.jobs[r.id] == r.job
         && KeyOf(r.job) == key && r.job.status == Running && r.job.workerId == worker && r.job.startedAt == Some(s.now)
  }

  /** One claim, followed by a heartbeat for a named worker that got something. */
  method AttemptClaim(db: Database, key: QueueKey, worker: string, batch: int,
                      ghost env: nat -> seq<Event>, ghost n: nat, ghost s0: State, ghost moves: seq<Move>)
      returns (rows: seq<Row>, ghost more: seq<Move>)
    requires batch > 0 && Woven(s0, moves, db.View(), env, n)
    requires PollTrace(By(moves, true), key, worker, batch) && ReadyToClaim(By(moves, true))
    requires ClaimsFull(s0, moves, key, batch)
    modifies db`jobs, db`workers
    ensures Woven(s0, more, db.View(), env, n)
    ensures PollTrace(By(more, true), key, worker, batch) && ClaimsFull(s0, more, key, batch)
    ensures exists picked ::
              By(more, true) == By(moves, true) + [Claim(key, worker, batch, picked)]
                                + if picked != {} && worker != "" then [Heartbeat(key.project, worker)] else []
    ensures Claims(By(more, true)) == Claims(By(moves, true)) + [RowIds(rows)]
    ensures rows == [] ==> JustClaimed(By(more, true), {})
    ensures rows != [] && worker != "" ==> Beaten(By(more, true), key, worker)
    ensures |rows| == var n := |Awaiting(old(db.View()), key)|; if batch < n then batch else n
    ensures Leased(rows, key, worker, db.View())
  {
    hide Step, Run, By, Claims, Woven, Enabled, PollTrace, JustClaimed, ReadyToClaim, ClaimsFull, Leased, RowIds, Beaten;
    ghost var s := db.View();
    ghost var picked;
    rows, picked := db.ClaimPending(key, worker, batch);
    ghost var claim := Claim(key, worker, batch, picked);
    WovenIsRun(s0, moves, s, env, n);
    ClaimIsFull(s, key, worker, batch, picked);
    FullOwn(s0, moves, claim, key, batch);
    OwnStep(s0, moves, s, env, n, claim);
    ClaimsSnoc(By(moves, true), claim);
    TraceClaim(By(moves, true), key, worker, batch, picked);
    more := moves + [Own(claim)];
    PickedRows(s, key, worker, batch, picked);
    ClaimedIds(rows, picked);
    ClaimedIsLeased(rows, picked, key, worker, db.View());
    if |rows| > 0 && worker != "" {
      ghost var t, beat := db.View(), Heartbeat(key.project, worker);
      var _ := HeartbeatWorker(db, key.project, worker);
      FullOwn(s0, more, beat, key, batch);
      OwnStep(s0, more, t, env, n, beat);
      ClaimsSnoc(By(more, true), beat);
      TraceBeat(By(more, true), key, worker, batch, picked);
      BeatKeepsLeased(rows, key, worker, t);
      EndsBeaten(By(more, true), key, worker);
      more := more + [Own(beat)];
    }
  }

  /** The poll has ended with the worker's heartbeat. */
  ghost predicate Beaten(own: seq<Event>, key: QueueKey, worker: string) {
    own != [] && own[|own| - 1] == Heartbeat(key.project, worker)
  }

  lemma EndsBeaten(own: seq<Event>, key: QueueKey, worker: string)
    ensures Beaten(own + [Heartbeat(key.project, worker)], key, worker)
  {
  }

  lemma ClaimedIds(rows: seq<Row>, picked: set<JobId>)
    requires |rows| == |picked| && (forall r :: r in rows ==> r.id in picked)
    requires forall id :: id in picked ==> exists r :: r in rows && r.id == id
    ensures RowIds(rows) == picked && (rows == [] <==> picked == {})
  {
  }

  lemma ClaimedIsLeased(rows: seq<Row>, picked: set<JobId>, key: QueueKey, worker: string, s: State)
    requires RowIds(rows) == picked && |rows| == |picked|
    requires forall r :: r in rows ==> r.id in picked && r.id in s.jobs && r.job == s.jobs[r.id]
    requires forall id :: id in picked ==>
               && id in s.jobs && KeyOf(s.jobs[id]) == key
               && s.jobs[id].status == Running && s.jobs[id].workerId == worker
               && s.jobs[id].startedAt == Some(s.now) && s.jobs[id].updatedAt == s.now
    ensures Leased(rows, key, worker, s) && forall r :: r in rows ==> r.job.updatedAt == s.now
  {
  }

  /** The heartbeat after a claim changes none of the rows claimed. */
  lemma BeatKeepsLeased(rows: seq<Row>, key: QueueKey, worker: string, s: State)
    requires Leased(rows, key, worker, s) && forall r :: r in rows ==> r.job.updatedAt == s.now
    ensures Leased(rows, key, worker, Step(s, Heartbeat(key.project, worker)))
  {
    hide Step, RowIds;
    HeartbeatWrites(s, key.project, worker);
  }

  // ---- the poll ----

  datatype DequeueResult = Jobs(rows: seq<Row>) | DequeueRefused(w: Writable) | DequeueRateLimited | ContextDone

  /** What a poll may do with its claims: all but the last take nothing, and the last took exactly
      the jobs returned, of which there may be none. */
  ghost predicate ClaimsReturned(claims: seq<set<JobId>>, r: DequeueResult) {
    && (forall i :: 0 <= i < |claims| - 1 ==> claims[i] == {})
    && (claims != [] ==> claims[|claims| - 1] == if r.Jobs? then RowIds(r.rows) else {})
    && (r.Jobs? ==> claims != [])
  }

  /** Nobody else is at work, and the caller stays. */
  ghost predicate Undisturbed(env: nat -> seq<Event>, done: nat -> bool) {
    forall i :: env(i) == [] && !done(i)
  }

  /** Undisturbed, a poll that starts in `s` returns what awaits it there, up to the limit. */
  ghost predicate TakesWhatAwaits(r: DequeueResult, s: State, key: QueueKey, limit: int) {
    && r.Jobs?
    && (Awaiting(s, key) != {} ==>
          |r.rows| == if limit < |Awaiting(s, key)| then limit else |Awaiting(s, key)|)
  }

  /** `env(i)` is what others do in the poll's i-th pause, and `done(i)` the context's answer to its
      i-th look.  The poll claims before it returns, and returns without a job only once its wait is over. */
  method Dequeue(db: Database, allowed: bool, key: QueueKey, worker: string, batchSize: int, wait: int,
                 env: nat -> seq<Event>, done: nat -> bool)
      returns (r: DequeueResult, ghost moves: seq<Move>, ghost pauses: nat)
    modifies db
    ensures Woven(old(db.View()), moves, db.View(), env, pauses)
    ensures PollTrace(By(moves, true), key, worker, if batchSize > 0 then batchSize else 1)
    ensures ClaimsFull(old(db.View()), moves, key, if batchSize > 0 then batchSize else 1)
    ensures ClaimsReturned(Claims(By(moves, true)), r)
    ensures |Claims(By(moves, true))| <= if wait > 0 then (wait + 499_999_999) / 500_000_000 else 1
    ensures QueueWritable(old(db.View()), key) != Ok ==>
              r == DequeueRefused(QueueWritable(old(db.View()), key)) && moves == []
    ensures QueueWritable(old(db.View()), key).Ok? && !allowed ==> r == DequeueRateLimited && moves == []
    ensures QueueWritable(old(db.View()), key).Ok? && allowed ==> r.Jobs? || (r.ContextDone? && exists i :: done(i))
    ensures r.Jobs? && r.rows == [] && wait > 0 ==> db.now >= old(db.now) + wait
    ensures r.Jobs? ==> Leased(r.rows, key, worker, db.View())
    ensures r.Jobs? && r.rows != [] && worker != "" ==> Beaten(By(moves, true), key, worker)
    ensures QueueWritable(old(db.View()), key).Ok? && allowed && Undisturbed(env, done) ==>
              TakesWhatAwaits(r, old(db.View()), key, if batchSize > 0 then batchSize else 1)
  {
    hide Step, Run, Claims, By, Woven, PollTrace, ClaimsFull, Leased, Beaten, ReadyToClaim, QueueWritable, Awaiting;
    ghost var s0 := db.View();
    moves, pauses := [], 0;
    var batch := if batchSize <= 0 then 1 else batchSize;
    Nothing(s0, env, key, worker, batch);
    if QueueWritable(db.View(), key) != Ok {
      return DequeueRefused(QueueWritable(db.View(), key)), moves, pauses;
    }
    if !allowed {
      return DequeueRateLimited, moves, pauses;
    }
    moves := PollPause(db, key, batch, env, 0, env(0), s0, moves);
    pauses := 1;
    if wait > 0 {
      r, moves, pauses := Poll(db, key, worker, batch, wait, env, done, 1, s0, moves);
      return;
    }
    if done(0) {
      return ContextDone, moves, pauses;
    }
    var rows;
    rows, moves := AttemptClaim(db, key, worker, batch, env, 1, s0, moves);
    r := Jobs(rows);
  }

  /** Others at work; if nobody is, nothing changes. */
  method PollPause(db: Database, ghost key: QueueKey, ghost batch: int, env: nat -> seq<Event>, ghost n: nat,
                   es: seq<Event>, ghost s0: State, ghost moves: seq<Move>)
      returns (ghost more: seq<Move>)
    requires es == env(n) && Woven(s0, moves, db.View(), env, n) && ClaimsFull(s0, moves, key, batch)
    modifies db
    ensures Woven(s0, more, db.View(), env, n + 1) && ClaimsFull(s0, more, key, batch)
    ensures By(more, true) == By(moves, true) && db.now >= old(db.now)
    ensures es == [] ==> db.View() == old(db.View())
  {
    hide Run, By, Woven, ClaimsFull;
    NobodyMoves(db.View());
    more := Yield(db, env, n, es, s0, moves);
    FullOthers(s0, moves, more, key, batch);
  }

  lemma NobodyMoves(s: State)
    ensures Run(s, []) == s
  {
  }

  method Poll(db: Database, key: QueueKey, worker: string, batch: int, wait: int, env: nat -> seq<Event>,
              done: nat -> bool, first: nat, ghost s0: State, ghost moves: seq<Move>)
      returns (r: DequeueResult, ghost more: seq<Move>, ghost pauses: nat)
    requires wait > 0 && batch > 0 && Woven(s0, moves, db.View(), env, first) && By(moves, true) == []
    requires PollTrace([], key, worker, batch) && ClaimsFull(s0, moves, key, batch)
    modifies db
    ensures Woven(s0, more, db.View(), env, pauses)
    ensures PollTrace(By(more, true), key, worker, batch) && ClaimsFull(s0, more, key, batch)
    ensures ClaimsReturned(Claims(By(more, true)), r)
    ensures |Claims(By(more, true))| <= (wait + 499_999_999) / 500_000_000
    ensures r.Jobs? || (r.ContextDone? && exists i :: done(i))
    ensures r.Jobs? && r.rows == [] ==> db.now >= old(db.now) + wait
    ensures r.Jobs? ==> Leased(r.rows, key, worker, db.View())
    ensures r.Jobs? && r.rows != [] && worker != "" ==> Beaten(By(more, true), key, worker)
    ensures Undisturbed(env, done) ==> TakesWhatAwaits(r, old(db.View()), key, batch)
  {
    hide Run, Step, Claims, By, Woven, PollTrace, ClaimsFull, Leased, Beaten, ReadyToClaim, JustClaimed, Awaiting, RowIds;
    more, pauses := moves, first;
    NothingClaimed();
    var start, deadline := db.now, db.now + wait;
    var looks, turn := 0, first;
    ghost var polls := 0;
    while true
      invariant Woven(s0, more, db.View(), env, turn) && pauses == turn
      invariant PollTrace(By(more, true), key, worker, batch) && ClaimsFull(s0, more, key, batch)
      invariant ReadyToClaim(By(more, true))
      invariant |Claims(By(more, true))| == polls && forall i :: 0 <= i < polls ==> Claims(By(more, true))[i] == {}
      invariant polls <= (wait + 499_999_999) / 500_000_000
      invariant start + polls * POLL_INTERVAL <= db.now || deadline <= db.now
      invariant Undisturbed(env, done) ==>
                  if polls == 0 then db.View() == old(db.View()) else Awaiting(old(db.View()), key) == {}
      invariant polls == 0 ==> db.now < deadline
      decreases if db.now < deadline then deadline - db.now else 0
    {
      if done(looks) {
        return ContextDone, more, pauses;
      }
      if !(db.now < deadline) {
        NothingLeased(key, worker, db.View());
        return Jobs([]), more, pauses;
      }
      more := PollPause(db, key, batch, env, turn, env(turn), s0, more);
      pauses := turn + 1;
      if done(looks + 1) {
        return ContextDone, more, pauses;
      }
      var rows;
      rows, more := AttemptClaim(db, key, worker, batch, env, turn + 1, s0, more);
      polls := polls + 1;
      if |rows| > 0 {
        return Jobs(rows), more, pauses;
      }
      assert rows == [];
      NothingLeased(key, worker, db.View());
      var over;
      over, more, turn := Rest(db, deadline, key, worker, batch, env, turn + 1, s0, more);
      pauses := turn;
      if over {
        NothingLeased(key, worker, db.View());
        return Jobs([]), more, pauses;
      }
      looks := looks + 2;
    }
  }

  /** Others run; then, unless the wait is over, the poll sleeps to its end, but no longer than 500 ms. */
  method Rest(db: Database, deadline: int, ghost key: QueueKey, ghost worker: string, ghost batch: int,
              env: nat -> seq<Event>, n: nat, ghost s0: State, ghost moves: seq<Move>)
      returns (over: bool, ghost more: seq<Move>, turn: nat)
    requires Woven(s0, moves, db.View(), env, n)
    requires PollTrace(By(moves, true), key, worker, batch) && ClaimsFull(s0, moves, key, batch)
    requires JustClaimed(By(moves, true), {})
    modifies db
    ensures Woven(s0, more, db.View(), env, turn)
    ensures PollTrace(By(more, true), key, worker, batch) && ClaimsFull(s0, more, key, batch)
    ensures Claims(By(more, true)) == Claims(By(moves, true))
    ensures if over then db.now >= deadline
            else ReadyToClaim(By(more, true)) && (db.now >= old(db.now) + POLL_INTERVAL || db.now >= deadline)
    ensures db.now > old(db.now) || db.now >= deadline
  {
    hide Run, Step, Claims, By, Woven, PollTrace, ClaimsFull, ReadyToClaim, JustClaimed;
    more := PollPause(db, key, batch, env, n, env(n), s0, moves);
    turn := n + 1;
    var remaining := deadline - db.now;
    over := remaining <= 0;
    if !over {
      more := Sleep(db, Min(POLL_INTERVAL, remaining), key, worker, batch, env, turn, env(turn), s0, more);
      turn := turn + 1;
    }
  }

  lemma Nothing(s: State, env: nat -> seq<Event>, key: QueueKey, worker: string, limit: int)
    ensures Woven(s, [], s, env, 0) && By([], true) == [] && Claims([]) == []
    ensures PollTrace([], key, worker, limit) && ClaimsFull(s, [], key, limit) && ReadyToClaim([])
  {
  }

  lemma NothingLeased(key: QueueKey, worker: string, s: State)
    ensures Leased([], key, worker, s) && RowIds([]) == {}
  {
  }

  lemma NothingClaimed()
    ensures Claims([]) == [] && ReadyToClaim([])
  {
  }

  /** Others run, and then the clock stands at least `sleep` past where it stood. */
  method Sleep(db: Database, sleep: nat, ghost key: QueueKey, ghost worker: string, ghost batch: int,
               env: nat -> seq<Event>, ghost n: nat, es: seq<Event>, ghost s0: State, ghost moves: seq<Move>)
      returns (ghost more: seq<Move>)
    requires es == env(n) && Woven(s0, moves, db.View(), env, n) && sleep <= 500_000_000
    requires PollTrace(By(moves, true), key, worker, batch) && ClaimsFull(s0, moves, key, batch)
    requires JustClaimed(By(moves, true), {})
    modifies db
    ensures Woven(s0, more, db.View(), env, n + 1)
    ensures PollTrace(By(more, true), key, worker, batch) && ClaimsFull(s0, more, key, batch)
    ensures ReadyToClaim(By(more, true))
    ensures Claims(By(more, true)) == Claims(By(moves, true))
    ensures db.now >= old(db.now) + sleep
  {
    hide Run, Step, Claims, By, Woven, PollTrace, ClaimsFull, ReadyToClaim, JustClaimed;
    var wake := db.now + sleep;
    more := PollPause(db, key, batch, env, n, es, s0, moves);
    ghost var t := db.View();
    var missing := Max(0, wake - db.now);
    db.now := db.now + missing;
    FullOwn(s0, more, Tick(missing), key, batch);
    TickAndAbandonWrite(t, missing, 0, "");
    OwnStep(s0, more, t, env, n + 1, Tick(missing));
    TraceTick(By(more, true), key, worker, batch, missing);
    ClaimsSnoc(By(more, true), Tick(missing));
    more := more + [Own(Tick(missing))];
  }
}
