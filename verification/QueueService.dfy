/** The queue and worker services (internal/application/service/queue/queue/service.go,
    worker/service.go).  Others run between the read of a row and the statement that depends on it. */
module QueueService {
  import opened Wrappers
  import opened JobModel
  import opened QueueState
  import opened QueueSteps
  import opened StepEquations
  import opened JobHistory
  import opened CascadeSafety
  import opened Storage
  import opened Interleaving

  /** Creates the queue, or returns the row a concurrent creation left. */
  method CreateQueue(db: Database, key: QueueKey, visibility: int, maxAttempts: int) returns (q: Option<Queue>)
    modifies db`queues, db`nextQueue
    ensures q.Some? <==> ValidQueue(key)
    ensures var created := ValidQueue(key) && key !in old(db.queues);
            && db.queues == (if created then old(db.queues)[key := NewQueue(old(db.nextQueue), visibility, maxAttempts)]
                             else old(db.queues))
            && db.nextQueue == if created then old(db.nextQueue) + 1 else old(db.nextQueue)
    ensures q.Some? ==> key in db.queues && q.value == db.queues[key]
  {
    if !ValidQueue(key) {
      return None;
    }
    var _ := db.CreateQueue(key, NewQueue(0, visibility, maxAttempts));
    q := db.FindQueue(key);
  }

  /** Returns the queue if it is there and not deleting.  If it is not there, others run, and then it is
      created; the answer is the row that is there then, whatever its status. */
  method Ensure(db: Database, key: QueueKey, visibility: int, maxAttempts: int, env: nat -> seq<Event>)
      returns (q: Option<Queue>, ghost moves: seq<Move>, ghost pauses: nat)
    modifies db
    ensures Woven(old(db.View()), moves, db.View(), env, pauses)
    ensures By(moves, true) == if key in old(db.queues) then [] else [EnsureQueue(key, visibility, maxAttempts)]
    ensures key in old(db.queues) ==>
              && db.View() == old(db.View())
              && q == if db.queues[key].status != Deleting then Some(db.queues[key]) else None
    ensures key !in old(db.queues) ==>
              (q.Some? <==> ValidQueue(key)) && (q.Some? ==> key in db.queues && q.value == db.queues[key])
  {
    hide Step, Run, By, Woven, ValidQueue;
    ghost var s0 := db.View();
    moves, pauses := [], 0;
    NoMoves(s0, env);
    var existing := db.FindQueue(key);
    if existing.Some? {
      return if existing.value.status.IsActive() then existing else None, moves, pauses;
    }
    moves := Yield(db, env, 0, env(0), s0, moves);
    pauses := 1;
    ghost var s, e := db.View(), EnsureQueue(key, visibility, maxAttempts);
    StepOfEnsure(s, e);
    q := CreateQueue(db, key, visibility, maxAttempts);
    OwnStep(s0, moves, s, env, 1, e);
    moves := moves + [Own(e)];
  }

  /** Nobody else acts for the config update `token`. */
  ghost predicate OtherEdits(es: seq<Event>, token: nat) {
    forall e :: e in es && UpdateEvent(e) ==> e.token != token
  }

  lemma {:induction false} EditStays(s: State, es: seq<Event>, token: nat)
    requires OtherEdits(es, token) && token in s.edits
    ensures token in Run(s, es).edits && Run(s, es).edits[token] == s.edits[token]
    decreases |es|
  {
    hide Step;
    if es != [] {
      var init, e := es[..|es| - 1], es[|es| - 1];
      EditStays(s, init, token);
      if UpdateEvent(e) {
        StepOfUpdate(Run(s, init), e);
      } else {
        OthersKeepEdits(Run(s, init), e);
      }
    }
  }

  /** Reads the row, lets others run, and saves the changed copy, whatever has become of the row: unless it has
      been recreated, the row is as it was read but for the columns asked for. */
  method UpdateQueueConfig(db: Database, token: nat, key: QueueKey, visibility: Option<int>, maxAttempts: Option<int>,
                           env: nat -> seq<Event>)
      returns (ok: bool, ghost moves: seq<Move>, ghost pauses: nat)
    requires token !in db.edits && OtherEdits(env(0), token)
    modifies db
    ensures Woven(old(db.View()), moves, db.View(), env, pauses)
    ensures ok <==> key in old(db.queues) && old(db.queues)[key].status != Deleting
    ensures By(moves, true) == if ok then [UpdateRead(token, key, visibility, maxAttempts), UpdateSave(token)] else []
    ensures !ok ==> db.View() == old(db.View())
    ensures ok ==> token !in db.edits
    ensures ok ==>
              && key in db.queues
              && var q, r := old(db.queues)[key], db.queues[key];
                 r.serial == q.serial ==>
                   && r.status == q.status
                   && r.visibility == (if visibility.Some? then visibility.value else q.visibility)
                   && r.maxAttempts == if maxAttempts.Some? then maxAttempts.value else q.maxAttempts
  {
    hide Step, Run, By, Woven;
    ghost var s0 := db.View();
    moves, pauses := [], 0;
    NoMoves(s0, env);
    var current := db.FindQueue(key);
    if current.None? || !current.value.status.IsActive() {
      return false, moves, pauses;
    }
    var row := Edited(current.value, visibility, maxAttempts);
    db.edits := db.edits[token := Edit(key, row)];
    ghost var read, save := UpdateRead(token, key, visibility, maxAttempts), UpdateSave(token);
    StepOfUpdate(s0, read);
    OwnStep(s0, [], s0, env, 0, read);
    moves := [] + [Own(read)];
    ghost var s1 := db.View();
    moves := Yield(db, env, 0, env(0), s0, moves);
    pauses := 1;
    EditStays(s1, env(0), token);
    ghost var s2 := db.View();
    StepOfUpdate(s2, save);
    db.SaveQueue(key, row);
    db.edits := Without(db.edits, {token});
    OwnStep(s0, moves, s2, env, 1, save);
    moves := moves + [Own(save)];
    ok := true;
  }

  // ---- worker service ----

  method HeartbeatWorker(db: Database, project: int, worker: string) returns (found: bool)
    modifies db`workers, db`jobs
    ensures db.View() == Step(old(db.View()), Heartbeat(project, worker))
    ensures found <==> worker in old(db.workers) && old(db.workers)[worker].project == project
  {
    var w := db.FindWorker(project, worker);
    if w.None? {
      return false;
    }
    db.SaveWorker(worker, w.value.(lastSeenAt := db.now));
    var _ := db.ExtendLease(project, worker);
    found := true;
  }
}
