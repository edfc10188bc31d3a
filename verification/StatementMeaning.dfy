/** Each statement once more, said of the tables' columns alone: which rows it selects, how many of them, and
    what becomes of every row.  Where one of these lemmas names a selection, a check or a transition of the
    system, another says in full what that is; so together they hold the system to the SQL and to the services
    independently of its own definitions. */
module StatementMeaning {
  import opened Wrappers
  import opened JobModel
  import opened QueueState
  import opened QueueSteps
  import opened StepEquations

  // ---- LIMIT ----

  /** A batch is all there is, or as much as the limit allows. */
  lemma BatchMeans(eligible: set<JobId>, limit: nat, picked: set<JobId>)
    ensures Batch(eligible, limit, picked) <==>
              picked <= eligible && |picked| <= limit && (|picked| < limit ==> picked == eligible)
  {
    if picked <= eligible {
      assert eligible == picked + (eligible - picked);
    }
  }

  // ---- claims and leases ----

  /** A claim takes the queue's jobs that are pending or scheduled and due: without a schedule first, then by
      schedule, then by creation; one if the limit is not positive. */
  lemma ClaimSelects(s: State, key: QueueKey, worker: string, limit: int, picked: set<JobId>, waiting: set<JobId>)
    requires forall id :: id in waiting <==>
               && id in s.jobs && s.jobs[id].project == key.project && s.jobs[id].queue == key.name
               && (s.jobs[id].status == Pending || s.jobs[id].status == Scheduled)
               && (s.jobs[id].scheduleAt == None || s.jobs[id].scheduleAt.value <= s.now)
    ensures
      var n: nat := if limit <= 0 then 1 else limit;
      Enabled(s, Claim(key, worker, limit, picked)) <==>
        && picked <= waiting && |picked| <= n && (|picked| < n ==> picked == waiting)
        && (forall x, y :: x in picked && y in waiting && y !in picked ==>
              var a, b := s.jobs[x], s.jobs[y];
              if a.scheduleAt == b.scheduleAt then a.createdAt <= b.createdAt
              else a.scheduleAt == None || (b.scheduleAt.Some? && a.scheduleAt.value < b.scheduleAt.value))
  {
    hide Step, Enabled, Batch, Min;
    StepOfClaim(s, Claim(key, worker, limit, picked));
    BatchMeans(waiting, LimitOr(limit, CLAIM_LIMIT), picked);
    assert waiting == Claimable(s, key);
  }

  lemma ClaimWrites(s: State, key: QueueKey, worker: string, limit: int, picked: set<JobId>)
    ensures
      var t := Step(s, Claim(key, worker, limit, picked));
      if !Enabled(s, Claim(key, worker, limit, picked)) then t == s
      else
        && t == s.(jobs := t.jobs) && t.jobs.Keys == s.jobs.Keys
        && forall id :: id in s.jobs ==>
             t.jobs[id] == if id !in picked then s.jobs[id]
                           else s.jobs[id].(status := Running, workerId := worker, attempt := s.jobs[id].attempt + 1,
                                            startedAt := Some(s.now), updatedAt := s.now)
  {
    hide Step, Enabled, Earliest, Claimable;
    StepOfClaim(s, Claim(key, worker, limit, picked));
  }

  /** A sweep takes the running jobs, in an active queue of an active tenant, whose lease began more than the
      queue's visibility timeout ago, whoever holds it: the oldest leases first, up to 500 by default. */
  lemma ReclaimSelects(s: State, limit: int, picked: set<JobId>, expired: set<JobId>)
    requires forall id :: id in expired <==>
               && id in s.jobs && s.jobs[id].status == Running && s.jobs[id].startedAt != None
               && QueueKey(s.jobs[id].project, s.jobs[id].queue) in s.queues
               && s.queues[QueueKey(s.jobs[id].project, s.jobs[id].queue)].status == Active
               && s.jobs[id].project in s.tenants && s.tenants[s.jobs[id].project] == Active
               && s.now - s.jobs[id].startedAt.value > s.queues[QueueKey(s.jobs[id].project, s.jobs[id].queue)].visibility
    ensures
      var n: nat := if limit <= 0 then 500 else limit;
      Enabled(s, Reclaim(limit, picked)) <==>
        && picked <= expired && |picked| <= n && (|picked| < n ==> picked == expired)
        && (forall x, y :: x in picked && y in expired && y !in picked ==>
              s.jobs[x].startedAt.value <= s.jobs[y].startedAt.value)
  {
    hide Step, Enabled, Batch, Min;
    ReclaimNeeds(s, Reclaim(limit, picked));
    BatchMeans(expired, LimitOr(limit, RECLAIM_LIMIT), picked);
    assert expired == Expired(s);
  }

  /** The same of one job, without the set. */
  lemma ReclaimTakesLost(s: State, limit: int, picked: set<JobId>)
    requires Enabled(s, Reclaim(limit, picked))
    ensures |picked| <= if limit <= 0 then 500 else limit
    ensures picked <= s.jobs.Keys
    ensures forall id :: id in s.jobs ==>
              var j, key := s.jobs[id], QueueKey(s.jobs[id].project, s.jobs[id].queue);
              var lost := && j.status == Running && j.startedAt != None
                          && key in s.queues && s.queues[key].status == Active
                          && j.project in s.tenants && s.tenants[j.project] == Active
                          && s.now - j.startedAt.value > s.queues[key].visibility;
              (id in picked ==> lost) && (|picked| < (if limit <= 0 then 500 else limit) && lost ==> id in picked)
  {
    hide Step, Enabled;
    ReclaimSelects(s, limit, picked, Expired(s));
  }

  lemma ExpiredIsStored(s: State)
    ensures Expired(s) <= s.jobs.Keys
  {
  }

  lemma ReclaimNeeds(s: State, e: Event)
    requires e.Reclaim?
    ensures Enabled(s, e) <==> Earliest(s.jobs, Expired(s), ByStart, LimitOr(e.limit, RECLAIM_LIMIT), e.picked)
  {
    hide Earliest, Expired;
  }

  lemma ReclaimWrites(s: State, limit: int, picked: set<JobId>)
    ensures
      var t := Step(s, Reclaim(limit, picked));
      if !Enabled(s, Reclaim(limit, picked)) then t == s
      else
        && t == s.(jobs := t.jobs) && t.jobs.Keys == s.jobs.Keys
        && forall id :: id in s.jobs ==>
             t.jobs[id] == if id !in picked then s.jobs[id]
                           else s.jobs[id].(status := Pending, workerId := "", startedAt := None, updatedAt := s.now)
  {
    hide Step, Enabled, Expired;
    StepOfReclaim(s, Reclaim(limit, picked));
  }

  /** A heartbeat dates a worker known in the project, and the lease of every job it runs there. */
  lemma HeartbeatWrites(s: State, project: int, worker: string)
    ensures
      var t := Step(s, Heartbeat(project, worker));
      if worker !in s.workers || s.workers[worker].project != project then t == s
      else
        && t == s.(jobs := t.jobs, workers := s.workers[worker := s.workers[worker].(lastSeenAt := s.now)])
        && t.jobs.Keys == s.jobs.Keys
        && forall id :: id in s.jobs ==>
             var j := s.jobs[id];
             t.jobs[id] == if worker != "" && j.status == Running && j.project == project && j.workerId == worker
                           then j.(startedAt := Some(s.now), updatedAt := s.now) else j
  {
    hide Step, Enabled;
    StepOfHeartbeat(s, Heartbeat(project, worker));
  }

  // ---- the guard ----

  /** A handler passes the guard unless its tenant or its queue is deleting. */
  lemma VisitWrites(s: State, token: nat, key: QueueKey)
    requires token !in s.visits && token !in s.copies
    ensures
      var barred := || (key.project > 0 && key.project in s.tenants && s.tenants[key.project] == Deleting)
                    || (key.name != "" && key in s.queues && s.queues[key].status == Deleting);
      Step(s, JobVisit(token, key)) == if barred then s else s.(visits := s.visits[token := key])
  {
    hide Step, Enabled;
    StepOfVisit(s, JobVisit(token, key));
  }

  // ---- reading a job ----

  /** What a handler that has read the job goes ahead on: ack and nack on a running job of that worker, or of
      no worker; cancel on any job but a completed, cancelled or dead-lettered one; control retry on a failed
      or dead-lettered one; promotion on a due one in an active queue of an active tenant. */
  lemma ReadGoesAhead(s: State, key: QueueKey, id: JobId, change: Change)
    ensures GoesAhead(s, key, id, change) <==>
              && id in s.jobs && s.jobs[id].project == key.project && s.jobs[id].queue == key.name
              && var j := s.jobs[id];
                 match change
                 case Completing(worker, _) => j.status == Running && (j.workerId == "" || j.workerId == worker)
                 case Failing(worker, _, _) => j.status == Running && (j.workerId == "" || j.workerId == worker)
                 case Cancelling => j.status in {Pending, Scheduled, Running, Failed}
                 case Reviving => j.status in {Failed, Dlq}
                 case Promoting =>
                   && j.status == Scheduled && j.scheduleAt.Some? && j.scheduleAt.value <= s.now
                   && key in s.queues && s.queues[key].status == Active
                   && key.project in s.tenants && s.tenants[key.project] == Active
                 case Republishing => false
  {
    assert key == QueueKey(key.project, key.name);
    match change
    case Completing(_, _) =>
    case Failing(_, _, _) =>
    case Cancelling => if id in s.jobs { SevenStatuses(s.jobs[id].status); }
    case Reviving =>
    case Promoting =>
    case Republishing =>
  }

  lemma SevenStatuses(status: Status)
    ensures status in {Pending, Scheduled, Running, Completed, Failed, Cancelled, Dlq}
  {
    match status
    case Pending => case Scheduled => case Running => case Completed => case Failed => case Cancelled => case Dlq =>
  }

  /** The answers that turn a handler away. */
  lemma RefusalsMean(s: State, key: QueueKey, id: JobId, worker: string)
    ensures
      var there := id in s.jobs && s.jobs[id].project == key.project && s.jobs[id].queue == key.name;
      && (SettleOutcome(s, key, id, worker).NotFound? <==> !there)
      && (CancelOutcome(s, key, id).NotFound? <==> !there)
      && (RetryOutcome(s, key, id).NotFound? <==> !there)
      && (SettleOutcome(s, key, id, worker).InvalidTransition? <==> there && s.jobs[id].status != Running)
      && (SettleOutcome(s, key, id, worker).WorkerMismatch? <==>
            there && s.jobs[id].status == Running && s.jobs[id].workerId !in {"", worker})
      && (CancelOutcome(s, key, id).InvalidTransition? <==> there && s.jobs[id].status in {Completed, Cancelled, Dlq})
      && (RetryOutcome(s, key, id).InvalidTransition? <==> there && s.jobs[id].status !in {Failed, Dlq})
    ensures SettleOutcome(s, key, id, worker) in {Outcome.Done, NotFound, InvalidTransition, WorkerMismatch}
    ensures {CancelOutcome(s, key, id), RetryOutcome(s, key, id)} <= {Outcome.Done, NotFound, InvalidTransition}
  {
  }

  lemma WithoutMeans<K, V>(m: map<K, V>, keys: set<K>)
    ensures Without(m, keys) == m - keys
  {
  }

  lemma FoundMeans(s: State, key: QueueKey, id: JobId)
    ensures Found(s, key, id) <==> id in s.jobs && s.jobs[id].project == key.project && s.jobs[id].queue == key.name
  {
  }

  /** The handler holds the row as it has read it, or turns away; either way its visit is over. */
  lemma ReadWrites(s: State, token: nat, key: QueueKey, id: JobId, change: Change)
    ensures
      var e := JobRead(token, key, id, change);
      && (Enabled(s, e) <==>
            token !in s.copies && if change.Promoting? then token !in s.visits
                                  else token in s.visits && s.visits[token] == key)
      && (Enabled(s, e) && GoesAhead(s, key, id, change) ==>
            && id in s.jobs && change.Fits(s.jobs[id])
            && Step(s, e) == s.(visits := s.visits - {token},
                                copies := s.copies[token := JobCopy(id, s.jobs[id], change)]))
      && (Enabled(s, e) && !GoesAhead(s, key, id, change) ==> Step(s, e) == s.(visits := s.visits - {token}))
      && (!Enabled(s, e) ==> Step(s, e) == s)
  {
    hide *;
    StepOfRead(s, JobRead(token, key, id, change));
    WithoutMeans(s.visits, {token});
    FoundMeans(s, key, id);
  }

  /** The scheduler's snapshot holds the scheduled jobs that are due, in an active queue of an active tenant, those
      due first, up to 100 by default. */
  lemma DueSelects(s: State, limit: int, picked: set<JobId>)
    requires Earliest(s.jobs, Due(s), ByDue, LimitOr(limit, DUE_LIMIT), picked)
    ensures |picked| <= if limit <= 0 then 100 else limit
    ensures picked <= s.jobs.Keys
    ensures forall id :: id in s.jobs ==>
              var j, key := s.jobs[id], QueueKey(s.jobs[id].project, s.jobs[id].queue);
              var due := && j.status == Scheduled && j.scheduleAt.Some? && j.scheduleAt.value <= s.now
                         && key in s.queues && s.queues[key].status == Active
                         && j.project in s.tenants && s.tenants[j.project] == Active;
              && (id in picked ==> due) && (|picked| < (if limit <= 0 then 100 else limit) && due ==> id in picked)
              && (due && id !in picked ==>
                    forall x :: x in picked ==>
                      s.jobs[x].scheduleAt.Some? && s.jobs[x].scheduleAt.value <= j.scheduleAt.value)
  {
    BatchMeans(Due(s), LimitOr(limit, DUE_LIMIT), picked);
    hide Batch;
    forall id | id in picked ensures id in s.jobs && DueScheduled(s, s.jobs[id]) {
      assert id in Due(s);
    }
    forall id, x | id in s.jobs && DueScheduled(s, s.jobs[id]) && id !in picked && x in picked
      ensures s.jobs[x].scheduleAt.value <= s.jobs[id].scheduleAt.value
    {
      assert id in Due(s) - picked;
      assert Leq(SortKeyOf(ByDue, s.jobs[x]), SortKeyOf(ByDue, s.jobs[id]));
    }
    forall id | id in s.jobs && DueScheduled(s, s.jobs[id]) ensures id in Due(s) {
    }
  }

  // ---- saving a job ----

  /** A handler can save its copy at any time, a waiting job it publishes only once that is due. */
  lemma SaveNeeds(s: State, token: nat)
    requires token in s.copies
    ensures
      var c := s.copies[token];
      Enabled(s, JobSave(token)) <==>
        && c.id in s.issued
        && (c.change.Republishing? && c.read.scheduleAt.Some? ==> c.read.scheduleAt.value <= s.now)
        && (c.id in s.jobs ==>
              var j := s.jobs[c.id];
              && c.read.project == j.project && c.read.queue == j.queue && c.read.payload == j.payload
              && c.read.idempotencyKey == j.idempotencyKey && c.read.maxAttempts == j.maxAttempts
              && c.read.createdAt == j.createdAt)
  {
    hide Step, Enabled;
    SaveEnabled(s, token);
  }

  lemma SaveEnabled(s: State, token: nat)
    requires token in s.copies
    ensures
      var c := s.copies[token];
      Enabled(s, JobSave(token)) <==>
        && c.id in s.issued && Saveable(s, c) && (c.id in s.jobs ==> c.read.SameIdentity(s.jobs[c.id]))
  {
    hide *;
    StepOfSave(s, JobSave(token));
  }

  /** The save goes through unless the row is gone and another job of the queue has its idempotency key. */
  ghost predicate HasRoom(s: State, c: Copy) {
    || c.id in s.jobs
    || c.read.idempotencyKey in {None, Some("")}
    || forall i :: i in s.jobs && s.jobs[i].project == c.read.project && s.jobs[i].queue == c.read.queue ==>
         s.jobs[i].idempotencyKey != c.read.idempotencyKey
  }

  /** A save writes the one row and no other table; it writes the row whole, over whatever is there, or inserts
      it again. */
  lemma SaveWrites(s: State, token: nat)
    requires Enabled(s, JobSave(token))
    ensures
      var t, c := Step(s, JobSave(token)), s.copies[token];
      && t == s.(jobs := t.jobs, copies := t.copies)
      && (forall id :: id != c.id ==> (id in t.jobs <==> id in s.jobs) && (id in s.jobs ==> t.jobs[id] == s.jobs[id]))
      && (c.id in t.jobs <==> HasRoom(s, c))
      && (HasRoom(s, c) ==> t.jobs[c.id] == c.change.Of(c.read, s.now))
  {
    hide Step, Enabled, CopiesSaved, Change.Of;
    StepOfSave(s, JobSave(token));
    RoomMeans(s, s.copies[token]);
  }

  lemma RoomMeans(s: State, c: Copy)
    ensures Storable(s, c) <==> HasRoom(s, c)
  {
    if c.read.idempotencyKey.Some? {
      KeyTakenMeans(s, KeyOf(c.read), c.read.idempotencyKey.value);
      hide ByIdempotencyKey;
    }
  }

  /** The row each handler writes. */
  lemma ChangeMeans(c: Copy, now: int)
    ensures
      var j := c.read;
      c.change.Of(j, now) ==
        match c.change
        case Completing(_, result) => j.(status := Completed, result := result, completedAt := Some(now),
                                         terminalAt := Some(now), updatedAt := now)
        case Failing(_, reason, retryDelay) =>
          if j.attempt >= j.maxAttempts
          then j.(status := Dlq, errorMessage := reason, terminalAt := Some(now), updatedAt := now)
          else j.(status := Pending, startedAt := None, workerId := "", terminalAt := None, updatedAt := now,
                  scheduleAt := Some(now + if retryDelay > 0 then retryDelay else DefaultBackoff(j.attempt)))
        case Cancelling => j.(status := Cancelled, terminalAt := Some(now), updatedAt := now)
        case Reviving => j.(status := Pending, scheduleAt := None, errorMessage := "", startedAt := None,
                            completedAt := None, workerId := "", terminalAt := None, updatedAt := now)
        case Promoting => j.(status := Pending, terminalAt := None, updatedAt := now)
        case Republishing => j
  {
    hide DefaultBackoff;
  }

  /** Having saved, the scheduler, and a nack that has put the job back into a queue that is there, goes on
      holding the row it has saved; any other handler is done. */
  lemma SaveKeeps(s: State, token: nat)
    requires Enabled(s, JobSave(token))
    ensures
      var t, c := Step(s, JobSave(token)), s.copies[token];
      var goesOn := && HasRoom(s, c)
                    && (|| c.change.Promoting?
                        || (&& c.change.Failing? && c.read.attempt < c.read.maxAttempts
                            && QueueKey(c.read.project, c.read.queue) in s.queues));
      && (token in t.copies <==> goesOn)
      && (goesOn ==> t.copies[token] == JobCopy(c.id, c.change.Of(c.read, s.now), Republishing))
      && (forall u :: u != token ==> (u in t.copies <==> u in s.copies) && (u in s.copies ==> t.copies[u] == s.copies[u]))
  {
    hide Step, Enabled, JobsSaved, Storable, HasRoom, Change.Of;
    StepOfSave(s, JobSave(token));
    RoomMeans(s, s.copies[token]);
  }

  // ---- the clock, and giving up ----

  lemma TickAndAbandonWrite(s: State, elapsed: nat, token: nat, id: JobId)
    ensures Step(s, Tick(elapsed)) == s.(now := s.now + elapsed)
    ensures Step(s, JobAbandon(token)) == s.(visits := s.visits - {token}, copies := s.copies - {token})
    ensures Step(s, EnqueueAbandon(id)) == s.(requests := s.requests - {id})
    ensures Step(s, UpdateAbandon(token)) == s.(edits := s.edits - {token})
  {
    hide Step, Enabled;
    TickAlways(s, elapsed);
    StepOfSweep(s, Tick(elapsed));
    StepOfJobAbandon(s, JobAbandon(token));
    StepOfAbandon(s, EnqueueAbandon(id));
    StepOfUpdate(s, UpdateAbandon(token));
  }

  lemma TickAlways(s: State, elapsed: nat)
    ensures Enabled(s, Tick(elapsed))
  {
  }

  // ---- enqueues ----

  /** Some job of the queue has the idempotency key. */
  ghost predicate KeyTaken(s: State, key: QueueKey, k: string) {
    k != "" && exists id :: && id in s.jobs && s.jobs[id].project == key.project && s.jobs[id].queue == key.name
                            && s.jobs[id].idempotencyKey == Some(k)
  }

  lemma KeyTakenMeans(s: State, key: QueueKey, k: string)
    ensures ByIdempotencyKey(s.jobs, key, k) != {} <==> KeyTaken(s, key, k)
  {
    var found := ByIdempotencyKey(s.jobs, key, k);
    assert found != {} ==> exists id :: id in found;
    if KeyTaken(s, key, k) {
      var id :| && id in s.jobs && s.jobs[id].project == key.project && s.jobs[id].queue == key.name
                && s.jobs[id].idempotencyKey == Some(k);
      assert id in found;
    }
  }

  /** A name of nothing but white space. */
  ghost predicate Blank(name: string) {
    forall i :: 0 <= i < |name| ==> IsSpace(name[i])
  }

  lemma {:induction false} TrimmedToNothing(name: string)
    ensures TrimSpace(name) == "" <==> Blank(name)
  {
    if name == "" {
    } else if IsSpace(name[0]) {
      TrimmedToNothing(name[1..]);
      assert name == [name[0]] + name[1..];
    } else if IsSpace(name[|name| - 1]) {
      TrimmedToNothing(name[..|name| - 1]);
      assert !IsSpace(name[..|name| - 1][0]);
    }
  }

  /** Trimming takes white space off both ends and nothing else. */
  lemma {:induction false} TrimmedIsInside(name: string) returns (before: string, after: string)
    ensures Blank(before) && Blank(after) && name == before + TrimSpace(name) + after
    ensures TrimSpace(name) != "" ==>
              !IsSpace(TrimSpace(name)[0]) && !IsSpace(TrimSpace(name)[|TrimSpace(name)| - 1])
  {
    hide IsSpace;
    if name != "" && IsSpace(name[0]) {
      before, after := TrimmedIsInside(name[1..]);
      Wider(name, before, TrimSpace(name), after);
      before := [name[0]] + before;
    } else if name != "" && IsSpace(name[|name| - 1]) {
      before, after := TrimmedIsInside(name[..|name| - 1]);
      Wider(name, before, TrimSpace(name), after);
      after := after + [name[|name| - 1]];
    } else {
      before, after := "", "";
      assert name == "" + name + "";
    }
  }

  lemma Wider(name: string, before: string, middle: string, after: string)
    requires name != ""
    ensures name[1..] == before + middle + after ==> name == [name[0]] + before + middle + after
    ensures name[..|name| - 1] == before + middle + after ==> name == before + middle + (after + [name[|name| - 1]])
  {
    assert name == [name[0]] + name[1..] == name[..|name| - 1] + [name[|name| - 1]];
    assert [name[0]] + before + middle + after == [name[0]] + (before + middle + after);
    assert before + middle + (after + [name[|name| - 1]]) == before + middle + after + [name[|name| - 1]];
  }

  /** An enqueue that has its queue builds its row, unless its key is taken or the row is invalid: a negative
      project, a blank name, or a schedule more than a minute past.  A delay overrides the schedule. */
  lemma DraftMeans(s: State, id: JobId, q: Queue)
    requires id in s.requests && !s.requests[id].Drafted?
    ensures
      var r := s.requests[id];
      var at := if r.delay > 0 then Some(s.now + r.delay) else r.scheduleAt;
      RequestsDrafted(s, id, q) ==
        if || KeyTaken(s, r.key, r.idempotencyKey) || r.key.project < 0 || Blank(r.key.name)
           || (at.Some? && at.value < s.now - 60_000_000_000)
        then s.requests - {id}
        else s.requests[id := Drafted(r.key, r.payload, r.idempotencyKey, at, q.maxAttempts, s.now)]
  {
    hide KeyTaken, Blank, ByIdempotencyKey, TrimSpace;
    KeyTakenMeans(s, s.requests[id].key, s.requests[id].idempotencyKey);
    TrimmedToNothing(s.requests[id].key.name);
  }

  /** An enqueue that looks for its queue builds its row if the queue is there and not deleting, goes on to
      create it if it is missing and can be created, and is over otherwise. */
  lemma LookUpWrites(s: State, id: JobId)
    requires id in s.requests && s.requests[id].Admitted?
    ensures
      var r := s.requests[id];
      Step(s, EnqueueDraft(id)) ==
        s.(requests :=
             if r.key in s.queues && s.queues[r.key].status != Deleting then RequestsDrafted(s, id, s.queues[r.key])
             else if r.key !in s.queues && r.key.project >= 0 && 0 < |TrimSpace(r.key.name)| <= 255 then
               s.requests[id := Creating(r.key, r.payload, r.idempotencyKey, r.scheduleAt, r.delay)]
             else s.requests - {id})
  {
    hide Step, Enabled, RequestsDrafted;
    StepOfDraft(s, EnqueueDraft(id));
  }

  /** The row a creation inserts, under the next id: active, with a timeout of 30 seconds and 25 attempts unless
      others are asked for. */
  ghost predicate NewRow(q: Queue, serial: nat, visibility: int, maxAttempts: int) {
    && q.serial == serial && q.status == Active
    && q.visibility == (if visibility > 0 then visibility else 30_000_000_000)
    && q.maxAttempts == if maxAttempts > 0 then maxAttempts else 25
  }

  /** A creation inserts a missing queue if its project is not negative and its name, trimmed, has between 1 and
      255 characters; a row that is there stays. */
  lemma EnsureWrites(s: State, key: QueueKey, visibility: int, maxAttempts: int)
    ensures
      var t := Step(s, EnsureQueue(key, visibility, maxAttempts));
      if key !in s.queues && key.project >= 0 && 0 < |TrimSpace(key.name)| <= 255 then
        && key in t.queues && NewRow(t.queues[key], s.nextQueue, visibility, maxAttempts)
        && t == s.(queues := s.queues[key := t.queues[key]], nextQueue := s.nextQueue + 1)
      else t == s
  {
    hide Step, Enabled, TrimSpace;
    StepOfEnsure(s, EnsureQueue(key, visibility, maxAttempts));
  }

  /** An enqueue creates its queue as any other creation does, and builds its row for whatever row is there. */
  lemma CreateWrites(s: State, id: JobId)
    requires id in s.requests && s.requests[id].Creating?
    ensures
      var t, u, key := Step(s, EnqueueCreate(id)), Step(s, EnsureQueue(s.requests[id].key, 0, 0)), s.requests[id].key;
      t == u.(requests := if key in u.queues then RequestsDrafted(s, id, u.queues[key]) else s.requests - {id})
  {
    hide Step, Enabled, QueueCreated, SerialCreated, RequestsDrafted;
    StepOfCreate(s, EnqueueCreate(id));
    StepOfEnsure(s, EnsureQueue(s.requests[id].key, 0, 0));
  }

  /** The row of a draft, every column of it. */
  lemma RowMeans(d: Request)
    requires d.Drafted?
    ensures d.Row() ==
            Job(d.key.project, d.key.name, if d.scheduleAt.Some? && d.scheduleAt.value > d.at then Scheduled else Pending,
                d.payload, "", if d.idempotencyKey == "" then None else Some(d.idempotencyKey),
                0, if d.maxAttempts > 0 then d.maxAttempts else 25, d.scheduleAt, None, None, None, "", "", d.at, d.at)
  {
  }

  /** An insert adds the row, unless its key has been taken meanwhile; its handler goes on holding it, to publish
      it. */
  lemma InsertWrites(s: State, id: JobId, token: nat)
    requires id in s.requests && s.requests[id].Drafted? && id !in s.issued && token !in s.copies && token !in s.visits
    ensures
      var t, d := Step(s, EnqueueInsert(id, token)), s.requests[id];
      if KeyTaken(s, d.key, d.idempotencyKey) then t == s.(requests := s.requests - {id})
      else
        t == s.(requests := s.requests - {id}, jobs := s.jobs[id := d.Row()], issued := s.issued + {id},
                copies := s.copies[token := JobCopy(id, d.Row(), Republishing)])
  {
    hide *;
    StepOfInsert(s, EnqueueInsert(id, token));
    WithoutMeans(s.requests, {id});
    InsertableMeans(s, id);
  }

  lemma InsertableMeans(s: State, id: JobId)
    requires id in s.requests && s.requests[id].Drafted? && id !in s.issued
    ensures Insertable(s, id) <==> !KeyTaken(s, s.requests[id].key, s.requests[id].idempotencyKey)
  {
    hide KeyTaken, ByIdempotencyKey;
    KeyTakenMeans(s, s.requests[id].key, s.requests[id].idempotencyKey);
  }

  /** The guard of an enqueue is the same as any handler's. */
  lemma AdmitWrites(s: State, id: JobId, r: Request)
    requires id !in s.issued && id !in s.requests && r.Admitted?
    ensures
      var barred := || (r.key.project > 0 && r.key.project in s.tenants && s.tenants[r.key.project] == Deleting)
                    || (r.key.name != "" && r.key in s.queues && s.queues[r.key].status == Deleting);
      Step(s, EnqueueAdmit(id, r.key, r.payload, r.idempotencyKey, r.scheduleAt, r.delay))
      == if barred then s else s.(requests := s.requests[id := r])
  {
    hide Step, Enabled;
    StepOfAdmit(s, EnqueueAdmit(id, r.key, r.payload, r.idempotencyKey, r.scheduleAt, r.delay));
  }

  // ---- config updates, tenants, workers ----

  /** A config update reads a queue that is not deleting and changes the two columns asked for, and no other. */
  lemma UpdateReads(s: State, token: nat, key: QueueKey, visibility: Option<int>, maxAttempts: Option<int>)
    requires token !in s.edits
    ensures
      var t := Step(s, UpdateRead(token, key, visibility, maxAttempts));
      if key !in s.queues || s.queues[key].status == Deleting then t == s
      else
        && token in t.edits && t == s.(edits := s.edits[token := t.edits[token]]) && t.edits[token].key == key
        && var q, row := s.queues[key], t.edits[token].row;
           && row.serial == q.serial && row.status == q.status
           && row.visibility == (if visibility.Some? then visibility.value else q.visibility)
           && row.maxAttempts == if maxAttempts.Some? then maxAttempts.value else q.maxAttempts
  {
    hide Step, Enabled;
    StepOfUpdate(s, UpdateRead(token, key, visibility, maxAttempts));
  }

  /** Its save writes the whole row over the one with its id, or inserts it; a row recreated under another id
      stays. */
  lemma UpdateSaves(s: State, token: nat)
    requires token in s.edits
    ensures
      var key, row := s.edits[token].key, s.edits[token].row;
      Step(s, UpdateSave(token)) ==
        if key in s.queues && s.queues[key].serial != row.serial then s.(edits := s.edits - {token})
        else s.(edits := s.edits - {token}, queues := s.queues[key := row])
  {
    hide Step, Enabled;
    StepOfUpdate(s, UpdateSave(token));
  }

  /** A worker registers unless its tenant or one of its queues is deleting. */
  lemma RegisterWrites(s: State, worker: string, project: int, names: seq<string>)
    requires worker !in s.workers
    ensures
      var barred := || (project > 0 && project in s.tenants && s.tenants[project] == Deleting)
                    || exists n :: n in names && n != "" && QueueKey(project, n) in s.queues
                                   && s.queues[QueueKey(project, n)].status == Deleting;
      Step(s, RegisterWorker(worker, project, names))
      == if barred then s else s.(workers := s.workers[worker := Worker(project, names, s.now)])
  {
    hide Step, Enabled;
    StepOfRegister(s, RegisterWorker(worker, project, names));
  }

  /** A stale worker goes if it was last seen before the cutoff and runs no job of its project. */
  lemma DropStaleWrites(s: State, worker: string, before: int)
    ensures
      var goes := && worker in s.workers && s.workers[worker].lastSeenAt < before
                  && forall id :: id in s.jobs && s.jobs[id].status == Running && s.jobs[id].workerId == worker ==>
                       s.jobs[id].project != s.workers[worker].project;
      Step(s, DropStaleWorker(worker, before)) == if goes then s.(workers := s.workers - {worker}) else s
  {
    hide Step, Enabled, LeasesOf;
    DropStaleStep(s, worker, before);
    if worker in s.workers {
      NoLeases(s.jobs, s.workers[worker].project, worker);
    }
  }

  lemma NoLeases(jobs: map<JobId, Job>, project: int, worker: string)
    ensures LeasesOf(jobs, project, worker) == {} <==>
              forall id :: id in jobs && jobs[id].status == Running && jobs[id].workerId == worker ==>
                jobs[id].project != project
  {
    if LeasesOf(jobs, project, worker) == {} {
      forall id | id in jobs && jobs[id].status == Running && jobs[id].workerId == worker
        ensures jobs[id].project != project
      {
        assert id !in LeasesOf(jobs, project, worker);
      }
    }
  }

  lemma DropStaleStep(s: State, worker: string, before: int)
    ensures Step(s, DropStaleWorker(worker, before)) ==
            if worker in s.workers && s.workers[worker].lastSeenAt < before
               && LeasesOf(s.jobs, s.workers[worker].project, worker) == {}
            then s.(workers := Without(s.workers, {worker})) else s
  {
    hide LeasesOf, Without;
  }

  lemma CreateTenantWrites(s: State, project: int)
    ensures Step(s, CreateTenant(project)) ==
            if project > 0 && project !in s.tenants then s.(tenants := s.tenants[project := Active]) else s
  {
    hide Step, Enabled;
    StepOfCreateTenant(s, CreateTenant(project));
  }

  // ---- deletion ----

  /** A purge deletes terminal rows of the given statuses from before the cutoff, 1000 by default. */
  lemma PurgeWrites(s: State, statuses: set<Status>, before: int, limit: int, picked: set<JobId>, old_: set<JobId>)
    requires forall id :: id in old_ <==>
               && id in s.jobs && s.jobs[id].status in statuses
               && s.jobs[id].terminalAt.Some? && s.jobs[id].terminalAt.value < before
    ensures
      var n: nat := if limit <= 0 then 1000 else limit;
      Enabled(s, Purge(statuses, before, limit, picked)) <==>
        picked <= old_ && |picked| <= n && (|picked| < n ==> picked == old_)
    ensures Step(s, Purge(statuses, before, limit, picked)) ==
            if Enabled(s, Purge(statuses, before, limit, picked)) then s.(jobs := s.jobs - picked) else s
  {
    hide Step, Enabled, Batch;
    StepOfSweep(s, Purge(statuses, before, limit, picked));
    PurgeNeeds(s, Purge(statuses, before, limit, picked));
    BatchMeans(old_, LimitOr(limit, DELETE_LIMIT), picked);
    assert old_ == Purgeable(s.jobs, statuses, before);
  }

  lemma PurgeNeeds(s: State, e: Event)
    requires e.Purge?
    ensures Enabled(s, e) <==> Batch(Purgeable(s.jobs, e.statuses, e.before), LimitOr(e.limit, DELETE_LIMIT), e.picked)
  {
    hide Purgeable, Batch;
  }

  /** A deletion is refused for a queue that is missing or deleting, and without force for one with a pending,
      scheduled or running job (`active`); otherwise it turns the queue deleting, and what comes next is to cancel
      those jobs, or to delete.  No queue gets a second cascade. */
  lemma RequestDeleteWrites(s: State, key: QueueKey, force: bool, active: bool)
    requires active <==>
               exists id :: && id in s.jobs && s.jobs[id].project == key.project && s.jobs[id].queue == key.name
                            && s.jobs[id].status in {Pending, Scheduled, Running}
    ensures
      var under := || key in s.cascades
                   || (key.project in s.tenantCascades && !s.tenantCascades[key.project].TListing?
                       && key.name in s.tenantCascades[key.project].names);
      Step(s, RequestDelete(key, force)) ==
        if under || key !in s.queues || s.queues[key].status == Deleting || (active && !force) then s
        else s.(queues := s.queues[key := s.queues[key].(status := Deleting)],
                cascades := s.cascades[key := if active then ForceCancelling else DeletingJobs])
  {
    hide Step, Enabled, ActiveJobsOf;
    StepOfRequestDelete(s, RequestDelete(key, force));
    ActiveMeans(s.jobs, key);
  }

  lemma ActiveMeans(jobs: map<JobId, Job>, key: QueueKey)
    ensures ActiveJobsOf(jobs, key) != {} <==>
              exists id :: && id in jobs && jobs[id].project == key.project && jobs[id].queue == key.name
                           && jobs[id].status in {Pending, Scheduled, Running}
  {
    var active := ActiveJobsOf(jobs, key);
    assert active != {} ==> exists id :: id in active;
    forall id | && id in jobs && jobs[id].project == key.project && jobs[id].queue == key.name
                && jobs[id].status in {Pending, Scheduled, Running}
      ensures id in active
    {
    }
  }

  /** Forced cancelling ends the queue's pending, scheduled and running jobs now, and touches no other row. */
  lemma ForceCancelWrites(s: State, key: QueueKey)
    ensures
      var t := Step(s, ForceCancel(key));
      if key !in s.cascades || s.cascades[key] != ForceCancelling then t == s
      else
        && t == s.(jobs := t.jobs, cascades := s.cascades[key := DeletingJobs]) && t.jobs.Keys == s.jobs.Keys
        && forall id :: id in s.jobs ==>
             var j := s.jobs[id];
             t.jobs[id] ==
               if j.project == key.project && j.queue == key.name && j.status in {Pending, Scheduled, Running}
               then j.(status := Cancelled, terminalAt := Some(s.now), workerId := "", startedAt := None,
                       updatedAt := s.now)
               else j
  {
    hide Step, Enabled;
    StepOfForceCancel(s, ForceCancel(key));
    ForceCancelNeeds(s, key);
  }

  lemma ForceCancelNeeds(s: State, key: QueueKey)
    ensures Enabled(s, ForceCancel(key)) <==> key in s.cascades && s.cascades[key] == ForceCancelling
  {
  }

  /** A batch deletes jobs of the queue, 1000 by default; an empty one moves the cascade on. */
  lemma DeleteBatchWrites(s: State, key: QueueKey, limit: int, picked: set<JobId>, all: set<JobId>)
    requires forall id :: id in all <==> id in s.jobs && s.jobs[id].project == key.project && s.jobs[id].queue == key.name
    ensures
      var n: nat := if limit <= 0 then 1000 else limit;
      Enabled(s, DeleteBatch(key, limit, picked)) <==>
        && key in s.cascades && s.cascades[key] == DeletingJobs
        && picked <= all && |picked| <= n && (|picked| < n ==> picked == all)
    ensures Step(s, DeleteBatch(key, limit, picked)) ==
            if !Enabled(s, DeleteBatch(key, limit, picked)) then s
            else s.(jobs := s.jobs - picked,
                    cascades := s.cascades[key := if picked == {} then Detaching else DeletingJobs])
  {
    hide Step, Enabled, Batch;
    StepOfDeleteBatch(s, DeleteBatch(key, limit, picked));
    DeleteBatchNeeds(s, DeleteBatch(key, limit, picked));
    BatchMeans(all, LimitOr(limit, DELETE_LIMIT), picked);
    assert all == JobsOf(s.jobs, key);
  }

  lemma DeleteBatchNeeds(s: State, e: Event)
    requires e.DeleteBatch?
    ensures Enabled(s, e) <==>
              && e.key in s.cascades && s.cascades[e.key] == DeletingJobs
              && Batch(JobsOf(s.jobs, e.key), LimitOr(e.limit, DELETE_LIMIT), e.picked)
  {
    hide JobsOf, Batch;
  }

  /** The last two statements of a queue's cascade, its resumption, and a crash, which loses every cascade. */
  lemma DetachWrites(s: State, key: QueueKey)
    ensures
      var t := Step(s, Detach(key));
      if key !in s.cascades || s.cascades[key] != Detaching then t == s
      else
        && t == s.(workers := t.workers, cascades := s.cascades[key := DroppingRow]) && t.workers.Keys == s.workers.Keys
        && forall w :: w in s.workers ==>
             t.workers[w] == if s.workers[w].project != key.project then s.workers[w]
                             else s.workers[w].(queues := RemoveName(s.workers[w].queues, key.name))
  {
    hide Step, Enabled, RemoveName;
    StepOfCascade(s, Detach(key));
  }

  lemma CascadeWrites(s: State, key: QueueKey)
    ensures Step(s, DropRow(key)) ==
            if key !in s.cascades || s.cascades[key] != DroppingRow then s
            else s.(queues := s.queues - {key}, cascades := s.cascades - {key})
    ensures Step(s, Resume(key)) ==
            if key in s.queues && s.queues[key].status == Deleting && key !in s.cascades
               && key.project !in s.tenantCascades
            then s.(cascades := s.cascades[key := DeletingJobs]) else s
    ensures Step(s, Crash) == s.(cascades := map[], tenantCascades := map[])
  {
    hide *;
    StepOfCascade(s, DropRow(key));
    StepOfCascade(s, Resume(key));
    StepOfCascade(s, Crash);
    WithoutMeans(s.queues, {key});
    WithoutMeans(s.cascades, {key});
  }

  /** A tenant's deletion: the request, the marking of its queues, which are then on its list, and its batches. */
  lemma TenantMarkWrites(s: State, project: int)
    ensures Step(s, RequestDeleteTenant(project)) ==
            if project <= 0 || project !in s.tenants || s.tenants[project] == Deleting then s
            else s.(tenants := s.tenants[project := Deleting],
                    tenantCascades := s.tenantCascades[project := TListing])
    ensures
      var t := Step(s, TenantMark(project));
      if project !in s.tenantCascades || s.tenantCascades[project] != TListing
         || exists k :: k in s.cascades && k.project == project
      then t == s
      else
        && project in t.tenantCascades && t.tenantCascades[project].TDeletingJobs?
        && (forall name :: name in t.tenantCascades[project].names <==> QueueKey(project, name) in s.queues)
        && t == s.(queues := t.queues, tenantCascades := s.tenantCascades[project := t.tenantCascades[project]])
        && t.queues.Keys == s.queues.Keys
        && forall k :: k in s.queues ==>
             t.queues[k] == if k.project == project then s.queues[k].(status := Deleting) else s.queues[k]
    ensures Step(s, ResumeTenant(project)) ==
            if project > 0 && project in s.tenants && s.tenants[project] == Deleting && project !in s.tenantCascades
            then s.(tenantCascades := s.tenantCascades[project := TListing]) else s
  {
    hide Step, Enabled;
    StepOfTenantRequest(s, RequestDeleteTenant(project));
    StepOfTenantRequest(s, ResumeTenant(project));
    StepOfTenantMark(s, TenantMark(project));
    ListedMeans(s, project);
    hide QueuesOf;
  }

  lemma ListedMeans(s: State, project: int)
    ensures forall name :: name in QueuesOf(s, project) <==> QueueKey(project, name) in s.queues
  {
    forall name ensures name in QueuesOf(s, project) <==> QueueKey(project, name) in s.queues {
      assert QueueKey(project, name).project == project && QueueKey(project, name).name == name;
      if name in QueuesOf(s, project) {
        var k :| k in s.queues && k.project == project && k.name == name;
        assert k == QueueKey(project, name);
      }
    }
  }

  lemma TenantBatchWrites(s: State, project: int, limit: int, picked: set<JobId>, all: set<JobId>)
    requires forall id :: id in all <==> id in s.jobs && s.jobs[id].project == project
    ensures
      var n: nat := if limit <= 0 then 1000 else limit;
      Enabled(s, TenantDeleteBatch(project, limit, picked)) <==>
        && project in s.tenantCascades && s.tenantCascades[project].TDeletingJobs?
        && picked <= all && |picked| <= n && (|picked| < n ==> picked == all)
    ensures
      var t := Step(s, TenantDeleteBatch(project, limit, picked));
      if !Enabled(s, TenantDeleteBatch(project, limit, picked)) then t == s
      else
        var names := s.tenantCascades[project].names;
        t == s.(jobs := s.jobs - picked,
                tenantCascades := s.tenantCascades[project :=
                  if picked == {} then TDroppingWorkers(names) else TDeletingJobs(names)])
  {
    hide Step, Enabled, Batch;
    StepOfTenantDeleteBatch(s, TenantDeleteBatch(project, limit, picked));
    TenantBatchNeeds(s, TenantDeleteBatch(project, limit, picked));
    BatchMeans(all, LimitOr(limit, DELETE_LIMIT), picked);
    assert all == JobsOfProject(s.jobs, project);
  }

  lemma TenantBatchNeeds(s: State, e: Event)
    requires e.TenantDeleteBatch?
    ensures Enabled(s, e) <==>
              && e.project in s.tenantCascades && s.tenantCascades[e.project].TDeletingJobs?
              && Batch(JobsOfProject(s.jobs, e.project), LimitOr(e.limit, DELETE_LIMIT), e.picked)
  {
    hide JobsOfProject, Batch;
  }

  /** The rest of a tenant's cascade: its workers, the queues on its list one by one, and its own row. */
  lemma TenantDropWrites(s: State, project: int, name: string)
    ensures
      var t := Step(s, TenantDropWorkers(project));
      if project !in s.tenantCascades || !s.tenantCascades[project].TDroppingWorkers? then t == s
      else
        && t == s.(workers := t.workers, tenantCascades := s.tenantCascades[project :=
                     TDroppingQueues(s.tenantCascades[project].names)])
        && (forall w :: w in t.workers <==> w in s.workers && s.workers[w].project != project)
        && (forall w :: w in t.workers ==> t.workers[w] == s.workers[w])
    ensures
      Step(s, TenantDropQueue(project, name)) ==
        if && project in s.tenantCascades && s.tenantCascades[project].TDroppingQueues?
           && name in s.tenantCascades[project].names
        then s.(queues := s.queues - {QueueKey(project, name)},
                tenantCascades := s.tenantCascades[project :=
                  TDroppingQueues(s.tenantCascades[project].names - {name})])
        else s
    ensures
      Step(s, TenantDropRow(project)) ==
        if project in s.tenantCascades && s.tenantCascades[project] == TDroppingQueues({})
        then s.(tenants := s.tenants - {project}, tenantCascades := s.tenantCascades - {project})
        else s
  {
    hide Step, Enabled;
    TenantDropNeeds(s, project, name);
    StepOfTenantDrop(s, TenantDropWorkers(project));
    StepOfTenantDrop(s, TenantDropQueue(project, name));
    StepOfTenantDrop(s, TenantDropRow(project));
  }

  lemma TenantDropNeeds(s: State, project: int, name: string)
    ensures Enabled(s, TenantDropWorkers(project)) <==>
              project in s.tenantCascades && s.tenantCascades[project].TDroppingWorkers?
    ensures Enabled(s, TenantDropQueue(project, name)) <==>
              && project in s.tenantCascades && s.tenantCascades[project].TDroppingQueues?
              && name in s.tenantCascades[project].names
    ensures Enabled(s, TenantDropRow(project)) <==>
              project in s.tenantCascades && s.tenantCascades[project] == TDroppingQueues({})
  {
  }
}
