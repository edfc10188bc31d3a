/** The enqueue (internal/application/service/queue/router/service.go Enqueue): the guard, the queue, which
    it creates if need be, the insert, and the save after publishing, with others at work in between. */
module Enqueuing {
  import opened Wrappers
  import opened JobModel
  import opened QueueState
  import opened QueueSteps
  import opened StepEquations
  import opened JobHistory
  import opened CascadeSafety
  import opened Storage
  import opened Interleaving
  import opened QueueService
  import opened JobHandlers

  // ---- one enqueue among others ----

  /** Nobody else acts for the enqueue that will insert `id`. */
  predicate OtherEnqueue(e: Event, id: JobId) {
    EnqueueEvent(e) ==> e.id != id
  }

  ghost predicate OtherEnqueues(es: seq<Event>, id: JobId) {
    forall e :: e in es ==> OtherEnqueue(e, id)
  }

  /** Nobody else acts for the enqueue, or for the handler that publishes its job. */
  ghost predicate AloneEnqueuing(env: nat -> seq<Event>, id: JobId, token: nat) {
    Alone(env, token) && forall n :: OtherEnqueues(env(n), id)
  }

  lemma RequestStaysStep(s: State, e: Event, id: JobId)
    requires OtherEnqueue(e, id) && id in s.requests
    ensures id in Step(s, e).requests && Step(s, e).requests[id] == s.requests[id]
  {
    hide Step, Enabled;
    if !EnqueueEvent(e) {
      OthersKeepRequests(s, e);
    } else if e.EnqueueAdmit? {
      StepOfAdmit(s, e);
    } else if e.EnqueueInsert? {
      InsertTouches(s, e);
    } else {
      BuildingKeepsOthers(s, e, id);
    }
  }

  lemma BuildingKeepsOthers(s: State, e: Event, id: JobId)
    requires e.EnqueueDraft? || e.EnqueueCreate? || e.EnqueueAbandon?
    requires e.id != id && id in s.requests
    ensures id in Step(s, e).requests && Step(s, e).requests[id] == s.requests[id]
  {
    hide Step, Enabled, QueueCreated, SerialCreated, RequestsFound, RequestsCreated;
    if e.EnqueueDraft? {
      StepOfDraft(s, e);
      OthersFound(s, e.id, id);
    } else if e.EnqueueCreate? {
      StepOfCreate(s, e);
      OthersFound(s, e.id, id);
    } else {
      StepOfAbandon(s, e);
    }
  }

  lemma OthersFound(s: State, id: JobId, other: JobId)
    requires other in s.requests && other != id
    ensures id in s.requests && s.requests[id].Admitted? ==>
              other in RequestsFound(s, id) && RequestsFound(s, id)[other] == s.requests[other]
    ensures id in s.requests && s.requests[id].Creating? ==>
              other in RequestsCreated(s, id) && RequestsCreated(s, id)[other] == s.requests[other]
  {
    hide QueueCreated, ByIdempotencyKey, ValidCreate, ValidQueue;
  }

  /** A request under way stays as it is, and its id stays unused, while others run. */
  lemma {:induction false} RequestStays(s: State, es: seq<Event>, id: JobId)
    requires OtherEnqueues(es, id) && Orderly(s) && id in s.requests
    ensures Orderly(Run(s, es))
    ensures id in Run(s, es).requests && Run(s, es).requests[id] == s.requests[id]
    ensures id !in Run(s, es).issued && id !in Run(s, es).jobs
    decreases |es|
  {
    hide Step, Orderly;
    if es != [] {
      var init, e := es[..|es| - 1], es[|es| - 1];
      RequestStays(s, init, id);
      assert e in es;
      RequestStaysStep(Run(s, init), e, id);
      StepOrderly(Run(s, init), e);
    }
    RequestedIsNew(Run(s, es), id);
  }

  lemma RequestedIsNew(s: State, id: JobId)
    requires Orderly(s) && id in s.requests
    ensures id !in s.issued && id !in s.jobs
  {
  }

  /** Others at work while the enqueue of `id` is under way. */
  method RequestPause(db: Database, ghost id: JobId, ghost token: nat, env: nat -> seq<Event>, ghost n: nat,
                      es: seq<Event>, ghost s0: State, ghost moves: seq<Move>)
      returns (ghost more: seq<Move>)
    requires es == env(n) && Woven(s0, moves, db.View(), env, n) && AloneEnqueuing(env, id, token)
    requires Orderly(s0) && id in db.requests && token !in db.copies && token !in db.visits
    modifies db
    ensures Woven(s0, more, db.View(), env, n + 1) && By(more, true) == By(moves, true)
    ensures id in db.requests && db.requests[id] == old(db.requests)[id] && id !in db.issued && id !in db.jobs
    ensures token !in db.copies && token !in db.visits && db.now >= old(db.now)
  {
    hide Run, Step, By, Woven, Orderly;
    ghost var s := db.View();
    WovenOrderly(s0, moves, s, env, n);
    assert OtherEnqueues(env(n), id);
    RequestStays(s, es, id);
    HandlerStays(s, es, token);
    more := Yield(db, env, n, es, s0, moves);
  }

  // ---- the enqueue ----

  datatype EnqueueResult =
    | Accepted(id: JobId, row: Job, saved: bool)
    | AlreadyQueued(existing: JobId)
    | Rejected
    | Conflict
    | RateLimited
    | Refused(w: Writable)

  /** Why an enqueue past the guard is rejected: a deleting queue, a negative project, a name that is blank or too
      long, or a schedule more than a minute past. */
  ghost predicate Rejects(s: State, key: QueueKey, scheduleAt: Option<int>, delay: int) {
    || (key in s.queues && s.queues[key].status == Deleting)
    || key.project < 0 || |TrimSpace(key.name)| == 0 || |TrimSpace(key.name)| > 255
    || (delay <= 0 && scheduleAt.Some? && scheduleAt.value < s.now - 60_000_000_000)
  }

  lemma InvalidQueueRejects(s: State, key: QueueKey, scheduleAt: Option<int>, delay: int)
    ensures !ValidQueue(key) ==> Rejects(s, key, scheduleAt, delay)
  {
  }

  lemma InvalidRowRejects(s: State, key: QueueKey, scheduleAt: Option<int>, delay: int)
    ensures !ValidCreate(key.project, key.name, EffectiveSchedule(scheduleAt, delay, s.now), s.now) ==>
              Rejects(s, key, scheduleAt, delay)
  {
  }

  /** What an enqueue past the guard has done when it returns `r`: the statements it got to, and why it got no
      further; `s` is the state it returns in. */
  ghost predicate EnqueueDone(r: EnqueueResult, own: seq<Event>, entry: seq<Event>, id: JobId, token: nat, a: Request,
                        published: bool, s: State)
    requires a.Admitted?
  {
    match r
    case Accepted(i, row, saved) =>
      && own == entry + [EnqueueInsert(id, token)] + [if saved then JobSave(token) else JobAbandon(token)]
      && i == id && IsRowOf(row, a) && (saved ==> published) && (published && row.status.Pending? ==> saved)
    case Conflict => own == entry + [EnqueueInsert(id, token)] && ByIdempotencyKey(s.jobs, a.key, a.idempotencyKey) != {}
    case AlreadyQueued(i) => own == entry && i in ByIdempotencyKey(s.jobs, a.key, a.idempotencyKey)
    case Rejected => own == entry && Rejects(s, a.key, a.scheduleAt, a.delay)
    case RateLimited => false
    case Refused(_) => false
  }

  /** The row was built between the call and the insert, and stored by the insert; it was saved again exactly if it
      was due when the enqueue came to publish it, after the insert, and the broker took it. */
  ghost predicate Inserted(r: EnqueueResult, s0: State, moves: seq<Move>, id: JobId, token: nat, published: bool,
                           now: int)
    requires r.Accepted?
  {
    exists n, look :: InsertedAt(r.row, s0, moves, n, id, token) && PublishedAt(r, s0, moves, n, published, look, now)
  }

  ghost predicate InsertedAt(row: Job, s0: State, moves: seq<Move>, n: int, id: JobId, token: nat) {
    && 0 <= n < |moves| && moves[n] == Own(EnqueueInsert(id, token))
    && s0.now <= row.createdAt <= StateAt(s0, moves, n).now
    && id in StateAt(s0, moves, n + 1).jobs && StateAt(s0, moves, n + 1).jobs[id] == row
  }

  ghost predicate PublishedAt(r: EnqueueResult, s0: State, moves: seq<Move>, n: int, published: bool, look: int,
                              now: int)
    requires r.Accepted?
  {
    && 0 <= n <= |moves| && StateAt(s0, moves, n).now <= look <= now
    && (r.saved <==> published && (r.row.scheduleAt == None || r.row.scheduleAt.value <= look))
  }

  /** The row is a new job of the request. */
  predicate IsRowOf(row: Job, a: Request)
    requires a.Admitted?
  {
    && KeyOf(row) == a.key && row.payload == a.payload && row.attempt == 0
    && row.idempotencyKey == (if a.idempotencyKey == "" then None else Some(a.idempotencyKey))
    && row.scheduleAt == if a.delay > 0 then Some(row.createdAt + a.delay) else a.scheduleAt
  }

  function Entry(id: JobId, a: Request, created: bool): seq<Event>
    requires a.Admitted?
  {
    [EnqueueAdmit(id, a.key, a.payload, a.idempotencyKey, a.scheduleAt, a.delay)] + [EnqueueDraft(id)]
    + if created then [EnqueueCreate(id)] else []
  }

  /** `id` is the freshly generated job id, `allowed` the rate gate's answer, `published` the broker's; `a` is
      the request.  Others run after every statement. */
  method EnqueueJob(db: Database, allowed: bool, published: bool, id: JobId, token: nat, a: Request,
                    env: nat -> seq<Event>)
      returns (r: EnqueueResult, ghost created: bool, ghost moves: seq<Move>, pauses: nat)
    requires a.Admitted? && AloneEnqueuing(env, id, token)
    requires Orderly(db.View()) && id !in db.issued && id !in db.requests
    requires token !in db.copies && token !in db.visits
    modifies db
    ensures Woven(old(db.View()), moves, db.View(), env, pauses)
    ensures token !in db.copies && token !in db.visits
    ensures r.Refused? <==> QueueWritable(old(db.View()), a.key) != Ok
    ensures r.Refused? ==> r.w == QueueWritable(old(db.View()), a.key)
    ensures r.RateLimited? <==> QueueWritable(old(db.View()), a.key).Ok? && !allowed
    ensures if r.Refused? || r.RateLimited? then db.View() == old(db.View()) && moves == []
            else EnqueueDone(r, By(moves, true), Entry(id, a, created), id, token, a, published, db.View())
    ensures r.Accepted? ==> Inserted(r, old(db.View()), moves, id, token, published, db.now)
  {
    hide Step, Run, By, Woven, QueueWritable, ByIdempotencyKey, Orderly, Entry, AloneEnqueuing, EnqueueDone, Inserted;
    ghost var s0 := db.View();
    moves, pauses, created := [], 0, false;
    NoMoves(s0, env);
    if QueueWritable(db.View(), a.key) != Ok {
      return Refused(QueueWritable(db.View(), a.key)), created, moves, pauses;
    }
    if !allowed {
      return RateLimited, created, moves, pauses;
    }
    moves := Admit(db, id, a, env, s0);
    moves := RequestPause(db, id, token, env, 0, env(0), s0, moves);
    r, created, moves, pauses := Build(db, published, id, token, a, env, s0, moves);
    DoneIsNotRefused(r, By(moves, true), Entry(id, a, created), id, token, a, published, db.View());
  }

  lemma DoneIsNotRefused(r: EnqueueResult, own: seq<Event>, entry: seq<Event>, id: JobId, token: nat, a: Request,
                          published: bool, s: State)
    requires a.Admitted? && EnqueueDone(r, own, entry, id, token, a, published, s)
    ensures !r.Refused? && !r.RateLimited?
  {
  }

  /** The guard has let the enqueue through. */
  method Admit(db: Database, id: JobId, a: Request, ghost env: nat -> seq<Event>, ghost s0: State)
      returns (ghost moves: seq<Move>)
    requires a.Admitted? && s0 == db.View() && QueueWritable(s0, a.key).Ok?
    requires id !in db.issued && id !in db.requests
    modifies db`requests
    ensures Woven(s0, moves, db.View(), env, 0)
    ensures By(moves, true) == [EnqueueAdmit(id, a.key, a.payload, a.idempotencyKey, a.scheduleAt, a.delay)]
    ensures db.requests == old(db.requests)[id := a]
  {
    hide Step, Run, By, Woven, QueueWritable, Enabled;
    ghost var e := EnqueueAdmit(id, a.key, a.payload, a.idempotencyKey, a.scheduleAt, a.delay);
    StepOfAdmit(s0, e);
    db.requests := db.requests[id := a];
    NoMoves(s0, env);
    OwnStep(s0, [], s0, env, 0, e);
    moves := [] + [Own(e)];
  }

  /** What building the row comes to: there is no queue yet, or the row is drafted, or it is over. */
  datatype Progress = NoQueue | RowBuilt | Over(r: EnqueueResult)

  function AsAdmitted(r: Request): Request
    requires !r.Drafted?
  {
    Admitted(r.key, r.payload, r.idempotencyKey, r.scheduleAt, r.delay)
  }

  /** The draft is the request's. */
  predicate IsDraftOf(d: Request, a: Request, since: int, now: int)
    requires a.Admitted?
  {
    && d.Drafted? && since <= d.at && d.key == a.key && d.payload == a.payload && d.idempotencyKey == a.idempotencyKey
    && d.scheduleAt == EffectiveSchedule(a.scheduleAt, a.delay, d.at) && d.at <= now
  }

  /** How far the request `a` has come. */
  ghost predicate Stands(p: Progress, s: State, id: JobId, a: Request, since: int)
    requires a.Admitted?
  {
    match p
    case NoQueue => id in s.requests && s.requests[id].Creating? && AsAdmitted(s.requests[id]) == a
    case RowBuilt => id in s.requests && IsDraftOf(s.requests[id], a, since, s.now)
    case Over(r) =>
      && id !in s.requests
      && ((r.Rejected? && Rejects(s, a.key, a.scheduleAt, a.delay))
          || (r.AlreadyQueued? && r.existing in ByIdempotencyKey(s.jobs, a.key, a.idempotencyKey)))
  }

  /** Finds or creates the queue, builds the row, inserts and publishes it. */
  method Build(db: Database, published: bool, id: JobId, token: nat, a: Request, env: nat -> seq<Event>,
               ghost s0: State, ghost moves: seq<Move>)
      returns (r: EnqueueResult, ghost created: bool, ghost more: seq<Move>, pauses: nat)
    requires a.Admitted? && AloneEnqueuing(env, id, token)
    requires Orderly(s0) && Woven(s0, moves, db.View(), env, 1)
    requires By(moves, true) == [EnqueueAdmit(id, a.key, a.payload, a.idempotencyKey, a.scheduleAt, a.delay)]
    requires id in db.requests && db.requests[id] == a && token !in db.copies && token !in db.visits
    requires s0.now <= db.now
    modifies db
    ensures Woven(s0, more, db.View(), env, pauses)
    ensures token !in db.copies && token !in db.visits
    ensures EnqueueDone(r, By(more, true), Entry(id, a, created), id, token, a, published, db.View())
    ensures r.Accepted? ==> Inserted(r, s0, more, id, token, published, db.now)
  {
    hide Step, Run, By, Woven, ByIdempotencyKey, Orderly, AloneEnqueuing, Rejects, IsDraftOf, Inserted;
    pauses, created := 1, false;
    var p;
    p, more := LookUp(db, id, env, 1, s0, moves);
    if p.NoQueue? {
      more := RequestPause(db, id, token, env, 1, env(1), s0, more);
      pauses, created := 2, true;
      p, more := Create(db, id, env, 2, s0, more);
    }
    assert By(more, true) == Entry(id, a, created);
    if p.Over? {
      return p.r, created, more, pauses;
    }
    ghost var at := db.now;
    more := RequestPause(db, id, token, env, pauses, env(pauses), s0, more);
    StillDraft(db.requests[id], a, s0.now, at, db.now);
    r, more, pauses := InsertAndPublish(db, published, id, token, a, env, pauses + 1, s0, more);
  }

  lemma StillDraft(d: Request, a: Request, since: int, at: int, now: int)
    requires a.Admitted? && IsDraftOf(d, a, since, at) && at <= now
    ensures IsDraftOf(d, a, since, now)
  {
  }

  /** Looks the queue up; if it is there, goes on to the row. */
  method LookUp(db: Database, id: JobId, ghost env: nat -> seq<Event>, ghost n: nat, ghost s0: State,
                ghost moves: seq<Move>)
      returns (p: Progress, ghost more: seq<Move>)
    requires Woven(s0, moves, db.View(), env, n) && id in db.requests && db.requests[id].Admitted?
    requires s0.now <= db.now
    modifies db`requests
    ensures Woven(s0, more, db.View(), env, n) && By(more, true) == By(moves, true) + [EnqueueDraft(id)]
    ensures Stands(p, db.View(), id, old(db.requests)[id], s0.now)
  {
    hide Step, Run, By, Woven, ByIdempotencyKey, ValidCreate, ValidQueue, RequestsDrafted, EffectiveSchedule;
    ghost var s, e := db.View(), EnqueueDraft(id);
    StepOfDraft(s, e);
    OwnStep(s0, moves, s, env, n, e);
    more := moves + [Own(e)];
    var a := db.requests[id];
    var q := db.FindQueue(a.key);
    if q.None? {
      if ValidQueue(a.key) {
        db.requests := db.requests[id := Creating(a.key, a.payload, a.idempotencyKey, a.scheduleAt, a.delay)];
        return NoQueue, more;
      }
      db.requests := Without(db.requests, {id});
      InvalidQueueRejects(db.View(), a.key, a.scheduleAt, a.delay);
      return Over(Rejected), more;
    }
    if !q.value.status.IsActive() {
      db.requests := Without(db.requests, {id});
      return Over(Rejected), more;
    }
    p := BuildRow(db, id, q.value, s0.now);
  }

  /** Creates the queue, or takes the row somebody else has created meanwhile, and goes on to the row. */
  method Create(db: Database, id: JobId, ghost env: nat -> seq<Event>, ghost n: nat, ghost s0: State,
                ghost moves: seq<Move>)
      returns (p: Progress, ghost more: seq<Move>)
    requires Woven(s0, moves, db.View(), env, n) && id in db.requests && db.requests[id].Creating?
    requires s0.now <= db.now
    modifies db`requests, db`queues, db`nextQueue
    ensures Woven(s0, more, db.View(), env, n) && By(more, true) == By(moves, true) + [EnqueueCreate(id)]
    ensures !p.NoQueue? && Stands(p, db.View(), id, AsAdmitted(old(db.requests)[id]), s0.now)
  {
    hide Step, Run, By, Woven, ByIdempotencyKey, ValidCreate, ValidQueue, RequestsDrafted, EffectiveSchedule;
    ghost var s, e := db.View(), EnqueueCreate(id);
    StepOfCreate(s, e);
    OwnStep(s0, moves, s, env, n, e);
    more := moves + [Own(e)];
    var key := db.requests[id].key;
    if !ValidQueue(key) && key !in db.queues {
      InvalidQueueRejects(db.View(), key, db.requests[id].scheduleAt, db.requests[id].delay);
      db.requests := Without(db.requests, {id});
      return Over(Rejected), more;
    }
    var q := CreateQueue(db, key, 0, 0);
    var row := db.queues[key];
    SameDraft(s, db.View(), id, row);
    p := BuildRow(db, id, row, s0.now);
  }

  /** Building the row does not depend on the queues. */
  lemma SameDraft(s: State, t: State, id: JobId, q: Queue)
    requires t.jobs == s.jobs && t.now == s.now && t.requests == s.requests
    requires id in s.requests && !s.requests[id].Drafted?
    ensures RequestsDrafted(s, id, q) == RequestsDrafted(t, id, q)
  {
    hide ByIdempotencyKey, ValidCreate;
  }

  /** Looks the idempotency key up, and builds the row for the queue. */
  method BuildRow(db: Database, id: JobId, q: Queue, ghost since: int) returns (p: Progress)
    requires id in db.requests && !db.requests[id].Drafted? && since <= db.now
    modifies db`requests
    ensures db.requests == RequestsDrafted(old(db.View()), id, q)
    ensures !p.NoQueue? && Stands(p, db.View(), id, AsAdmitted(old(db.requests)[id]), since)
  {
    hide ByIdempotencyKey, ValidCreate, ValidQueue;
    var r := db.requests[id];
    var existing := db.FindByIdempotencyKey(r.key, r.idempotencyKey);
    if existing.Some? {
      db.requests := Without(db.requests, {id});
      return Over(AlreadyQueued(existing.value));
    }
    var at := r.scheduleAt;
    if r.delay > 0 {
      at := Some(db.now + r.delay);
    }
    if !ValidCreate(r.key.project, r.key.name, at, db.now) {
      db.requests := Without(db.requests, {id});
      InvalidRowRejects(db.View(), r.key, r.scheduleAt, r.delay);
      return Over(Rejected);
    }
    db.requests := db.requests[id := Drafted(r.key, r.payload, r.idempotencyKey, at, q.maxAttempts, db.now)];
    p := RowBuilt;
  }

  /** Inserts the drafted row, and publishes it. */
  method InsertAndPublish(db: Database, published: bool, id: JobId, token: nat, a: Request, env: nat -> seq<Event>,
                          n: nat, ghost s0: State, ghost moves: seq<Move>)
      returns (r: EnqueueResult, ghost more: seq<Move>, pauses: nat)
    requires a.Admitted? && AloneEnqueuing(env, id, token)
    requires Orderly(s0) && Woven(s0, moves, db.View(), env, n) && token !in db.copies && token !in db.visits
    requires id in db.requests && IsDraftOf(db.requests[id], a, s0.now, db.now) && id !in db.issued && id !in db.jobs
    modifies db
    ensures Woven(s0, more, db.View(), env, pauses)
    ensures token !in db.copies && token !in db.visits
    ensures EnqueueDone(r, By(more, true), By(moves, true), id, token, a, published, db.View())
    ensures r.Accepted? ==> Inserted(r, s0, more, id, token, published, db.now)
  {
    hide Step, Run, By, Woven, ByIdempotencyKey, Orderly, IsRowOf, Inserted, NewJob;
    ghost var d, at, s := db.requests[id], db.now, db.View();
    var j, ok;
    j, ok, more := Insert(db, id, token, env, n, s0, moves);
    ghost var inserted, t := more, db.View();
    pauses := n;
    if !ok {
      return Conflict, more, pauses;
    }
    var row := j.Row();
    RowOfDraft(d, a, s0.now, at);
    more := HandlerPause(db, token, env, n, env(n), s0, more);
    PendingIsClaimable(d, at, db.now);
    ghost var look := db.now;
    var saved;
    saved, more, pauses := Publish(db, token, j, published, env, n + 1, s0, more);
    r := Accepted(id, row, saved);
    NewIsClaimable(d, look);
    WasInserted(r, s0, moves, s, inserted, t, more, env, n, id, token, published, look, db.now);
  }

  /** The insert among the moves, and the states before and after it. */
  lemma WasInserted(r: EnqueueResult, s0: State, moves: seq<Move>, s: State, inserted: seq<Move>, t: State,
                    more: seq<Move>, env: nat -> seq<Event>, n: nat, id: JobId, token: nat, published: bool,
                    look: int, now: int)
    requires r.Accepted? && Woven(s0, moves, s, env, n) && Woven(s0, inserted, t, env, n)
    requires inserted == moves + [Own(EnqueueInsert(id, token))] && inserted <= more
    requires s0.now <= r.row.createdAt <= s.now && id in t.jobs && t.jobs[id] == r.row
    requires s.now <= look <= now
    requires r.saved <==> published && (r.row.scheduleAt == None || r.row.scheduleAt.value <= look)
    ensures Inserted(r, s0, more, id, token, published, now)
  {
    hide Run;
    var at := |moves|;
    assert more[..at] == moves && more[..at + 1] == inserted;
    assert InsertedAt(r.row, s0, more, at, id, token) && PublishedAt(r, s0, more, at, published, look, now);
  }

  lemma NewIsClaimable(d: Request, look: int)
    requires d.Drafted?
    ensures d.Row().IsClaimable(look) <==> d.Row().scheduleAt == None || d.Row().scheduleAt.value <= look
    ensures d.Row().createdAt == d.at
  {
  }

  lemma RowOfDraft(d: Request, a: Request, since: int, at: int)
    requires a.Admitted? && IsDraftOf(d, a, since, at)
    ensures IsRowOf(d.Row(), a)
  {
  }

  lemma PendingIsClaimable(d: Request, at: int, now: int)
    requires d.Drafted? && d.at <= at <= now
    ensures d.Row().status.Pending? ==> d.Row().IsClaimable(now)
  {
  }

  /** Inserts the drafted row; its handler goes on holding it. */
  method Insert(db: Database, id: JobId, token: nat, ghost env: nat -> seq<Event>, ghost n: nat, ghost s0: State,
                ghost moves: seq<Move>)
      returns (j: JobEntity, ok: bool, ghost more: seq<Move>)
    requires Woven(s0, moves, db.View(), env, n) && token !in db.copies && token !in db.visits
    requires id in db.requests && db.requests[id].Drafted? && id !in db.issued && id !in db.jobs
    modifies db`jobs, db`issued, db`requests, db`copies
    ensures fresh(j) && j.id == id && j.Row() == old(db.requests)[id].Row()
    ensures Woven(s0, more, db.View(), env, n) && By(more, true) == By(moves, true) + [EnqueueInsert(id, token)]
    ensures more == moves + [Own(EnqueueInsert(id, token))] && (ok ==> id in db.jobs && db.jobs[id] == j.Row())
    ensures if ok then token in db.copies && db.copies[token] == JobCopy(id, j.Row(), Republishing)
            else
              && db.copies == old(db.copies)
              && ByIdempotencyKey(db.jobs, old(db.requests)[id].key, old(db.requests)[id].idempotencyKey) != {}
  {
    hide Step, Run, By, Woven, Enabled, ByIdempotencyKey, Without, NewJob;
    ghost var s, e := db.View(), EnqueueInsert(id, token);
    StepOfInsert(s, e);
    OwnStep(s0, moves, s, env, n, e);
    more := moves + [Own(e)];
    var request := db.requests[id];
    NoKeyNoDuplicate(s.jobs, request.key);
    j := new JobEntity(id, request.Row());
    ok := db.Create(j);
    if ok {
      db.copies := db.copies[token := JobCopy(id, request.Row(), Republishing)];
    }
    db.requests := Without(db.requests, {id});
  }

  lemma NoKeyNoDuplicate(jobs: map<JobId, Job>, key: QueueKey)
    ensures ByIdempotencyKey(jobs, key, "") == {}
  {
  }
}
