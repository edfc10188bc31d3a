/** The database as the services use it: the tables, and one method for each repository statement
    (internal/infrastructure/repository/queue/job/repository.go and its siblings for queues and
    workers).  A statement whose choice of rows is left open by SQL picks them arbitrarily. */
module Storage {
  import opened Wrappers
  import opened JobModel
  import opened QueueState
  import opened QueueSteps
  import opened StepEquations
  import opened ClaimSelection
  import opened StatementMeaning

  /** A row together with its primary key, as RETURNING delivers it. */
  datatype Row = Row(id: JobId, job: Job)

  class Database {
    var now: int
    var jobs: map<JobId, Job>
    var queues: map<QueueKey, Queue>
    var tenants: map<int, Lifecycle>
    var workers: map<string, Worker>
    /** The enqueues, config updates and job handlers in flight. */
    var requests: map<JobId, Request>
    var edits: map<nat, Edit>
    var copies: map<nat, Copy>
    var visits: map<nat, QueueKey>
    /** The cascades in flight, each at its next statement. */
    var cascades: map<QueueKey, QueuePhase>
    var tenantCascades: map<int, TenantPhase>
    /** The next queue id of the sequence. */
    var nextQueue: nat
    /** The job ids inserted so far. */
    var issued: set<JobId>

    constructor (s: State)
      ensures View() == s
    {
      now, jobs, queues, tenants := s.now, s.jobs, s.queues, s.tenants;
      workers, requests, edits, copies, visits := s.workers, s.requests, s.edits, s.copies, s.visits;
      cascades, tenantCascades, nextQueue, issued := s.cascades, s.tenantCascades, s.nextQueue, s.issued;
    }

    function View(): State
      reads this
    {
      State(now, jobs, queues, tenants, workers, requests, edits, copies, visits, cascades, tenantCascades, nextQueue,
            issued)
    }

    /** Other requests, sweeps and cascades run to completion, one step after another. */
    method Interfere(es: seq<Event>)
      modifies this
      ensures View() == Run(old(View()), es)
    {
      hide Step, Run;
      Become(Run(View(), es));
    }

    method Become(s: State)
      modifies this
      ensures View() == s
    {
      hide *;
      TakeTables(s);
      TakeInFlight(s);
      FieldsAreView(s);
    }

    method TakeTables(s: State)
      modifies this`now, this`jobs, this`queues, this`tenants, this`workers, this`nextQueue, this`issued
      ensures now == s.now && jobs == s.jobs && queues == s.queues && tenants == s.tenants
      ensures workers == s.workers && nextQueue == s.nextQueue && issued == s.issued
    {
      now, jobs, queues, tenants := s.now, s.jobs, s.queues, s.tenants;
      workers, nextQueue, issued := s.workers, s.nextQueue, s.issued;
    }

    method TakeInFlight(s: State)
      modifies this`requests, this`edits, this`copies, this`visits, this`cascades, this`tenantCascades
      ensures requests == s.requests && edits == s.edits && copies == s.copies && visits == s.visits
      ensures cascades == s.cascades && tenantCascades == s.tenantCascades
    {
      requests, edits, copies, visits := s.requests, s.edits, s.copies, s.visits;
      cascades, tenantCascades := s.cascades, s.tenantCascades;
    }

    lemma FieldsAreView(s: State)
      requires now == s.now && jobs == s.jobs && queues == s.queues && tenants == s.tenants
      requires workers == s.workers && requests == s.requests && edits == s.edits && copies == s.copies
      requires visits == s.visits && cascades == s.cascades && tenantCascades == s.tenantCascades
      requires nextQueue == s.nextQueue && issued == s.issued
      ensures View() == s
    {
    }

    // ---- set-at-a-time statements ----

    /** UPDATE jobs SET ... WHERE id IN `ids`, row by row in any order. */
    method UpdateWhere(ids: set<JobId>, set_: Job -> Job)
      requires ids <= jobs.Keys
      modifies this`jobs
      ensures jobs == UpdateRows(old(jobs), ids, set_)
    {
      var rest := ids;
      while rest != {}
        invariant rest <= ids
        invariant jobs == UpdateRows(old(jobs), ids - rest, set_)
        decreases |rest|
      {
        var id :| id in rest;
        jobs := jobs[id := set_(jobs[id])];
        rest := rest - {id};
      }
    }

    /** DELETE FROM jobs WHERE id IN (... LIMIT `limit`), over whichever eligible rows come up. */
    method DeleteSome(eligible: set<JobId>, limit: nat) returns (n: nat, ghost picked: set<JobId>)
      requires eligible <= jobs.Keys
      modifies this`jobs
      ensures Batch(eligible, limit, picked) && n == |picked|
      ensures jobs == Without(old(jobs), picked)
    {
      var rest := eligible;
      n, picked := 0, {};
      while n < limit && rest != {}
        invariant picked <= eligible && rest == eligible - picked
        invariant n == |picked| && n <= limit && n + |rest| == |eligible|
        invariant jobs == Without(old(jobs), picked)
        decreases |rest|
      {
        var id :| id in rest;
        jobs := Without(jobs, {id});
        rest, picked, n := rest - {id}, picked + {id}, n + 1;
      }
    }

    // ---- jobs ----

    /** SELECT by project, queue and id: a private copy of the row, or null. */
    method FindByID(key: QueueKey, id: JobId) returns (j: JobEntity?)
      ensures j != null <==> Found(View(), key, id)
      ensures j != null ==> fresh(j) && j.id == id && j.Row() == jobs[id]
    {
      if id in jobs && KeyOf(jobs[id]) == key {
        j := new JobEntity(id, jobs[id]);
      } else {
        j := null;
      }
    }

    method FindByIdempotencyKey(key: QueueKey, k: string) returns (id: Option<JobId>)
      ensures id.None? <==> ByIdempotencyKey(jobs, key, k) == {}
      ensures id.Some? ==> id.value in ByIdempotencyKey(jobs, key, k)
    {
      var found := ByIdempotencyKey(jobs, key, k);
      if found == {} {
        id := None;
      } else {
        var one :| one in found;
        id := Some(one);
      }
    }

    /** INSERT, refused when the primary key is taken or the unique index on queue and idempotency key
        has the job's key already. */
    method Create(j: JobEntity) returns (ok: bool)
      modifies this`jobs, this`issued
      ensures ok <==> j.id !in old(jobs)
                      && (j.idempotencyKey.Some? ==>
                            ByIdempotencyKey(old(jobs), KeyOf(j.Row()), j.idempotencyKey.value) == {})
      ensures jobs == if ok then old(jobs)[j.id := j.Row()] else old(jobs)
      ensures issued == if ok then old(issued) + {j.id} else old(issued)
    {
      var taken: set<JobId> := {};
      if j.idempotencyKey.Some? {
        taken := ByIdempotencyKey(jobs, KeyOf(j.Row()), j.idempotencyKey.value);
      }
      ok := j.id !in jobs && taken == {};
      if ok {
        jobs := jobs[j.id := j.Row()];
        issued := issued + {j.id};
      }
    }

    /** Writes the whole row over the row with its id, or inserts it if that row is gone, unless the
        unique index on queue and idempotency key has the job's key. */
    method Save(j: JobEntity) returns (ok: bool)
      modifies this`jobs
      ensures var room := j.idempotencyKey.Some? ==>
                            ByIdempotencyKey(old(jobs), KeyOf(j.Row()), j.idempotencyKey.value) == {};
              ok <==> j.id in old(jobs) || room
      ensures jobs == if ok then old(jobs)[j.id := j.Row()] else old(jobs)
    {
      var taken: set<JobId> := {};
      if j.idempotencyKey.Some? {
        taken := ByIdempotencyKey(jobs, KeyOf(j.Row()), j.idempotencyKey.value);
      }
      ok := j.id in jobs || taken == {};
      if ok {
        jobs := jobs[j.id := j.Row()];
      }
    }

    method FindDueScheduled(limit: int) returns (rows: seq<JobId>, ghost picked: set<JobId>)
      ensures Earliest(jobs, Due(View()), ByDue, LimitOr(limit, DUE_LIMIT), picked)
      ensures picked == Ids(rows) <= Due(View()) && |rows| == |picked| && Ordered(jobs, rows, ByDue)
    {
      rows, picked := Select(jobs, Due(View()), ByDue, LimitOr(limit, DUE_LIMIT));
    }

    method ClaimPending(key: QueueKey, worker: string, limit: int)
        returns (claimed: seq<Row>, ghost picked: set<JobId>)
      modifies this`jobs
      ensures Enabled(old(View()), Claim(key, worker, limit, picked))
      ensures View() == Step(old(View()), Claim(key, worker, limit, picked))
      ensures |claimed| == |picked|
      ensures forall r :: r in claimed ==> r.id in picked && r.id in jobs && r.job == jobs[r.id]
      ensures forall id :: id in picked ==> id in jobs && Row(id, jobs[id]) in claimed
    {
      var rows, taken := Select(jobs, Claimable(View(), key), BySchedule, LimitOr(limit, CLAIM_LIMIT));
      picked := taken;
      var at := now;
      UpdateWhere(taken, j => SqlClaimed(j, worker, at));
      claimed := [];
      for i := 0 to |rows|
        invariant |claimed| == i
        invariant forall k :: 0 <= k < i ==> rows[k] in jobs && claimed[k] == Row(rows[k], jobs[rows[k]])
      {
        claimed := claimed + [Row(rows[i], jobs[rows[i]])];
      }
      forall id | id in picked ensures Row(id, jobs[id]) in claimed {
        var k :| 0 <= k < |rows| && rows[k] == id;
        assert claimed[k] == Row(id, jobs[id]);
      }
    }

    /** Makes the running jobs whose lease is lost wait again, those with the oldest lease first; all of them,
        unless the limit (500 by default) binds. */
    method ReclaimExpired(limit: int) returns (n: nat, ghost picked: set<JobId>)
      modifies this`jobs
      ensures Enabled(old(View()), Reclaim(limit, picked)) && n == |picked|
      ensures View() == Step(old(View()), Reclaim(limit, picked))
      ensures forall id :: id in old(jobs) ==>
                var j, key := old(jobs)[id], QueueKey(old(jobs)[id].project, old(jobs)[id].queue);
                var lost := && j.status == Running && j.startedAt != None && key in queues && queues[key].status == Active
                            && j.project in tenants && tenants[j.project] == Active
                            && now - j.startedAt.value > queues[key].visibility;
                && (id in picked ==> lost) && (n < (if limit <= 0 then 500 else limit) && lost ==> id in picked)
                && id in jobs
                && jobs[id] == if id in picked
                               then j.(status := Pending, workerId := "", startedAt := None, updatedAt := now) else j
      ensures n <= if limit <= 0 then 500 else limit
      ensures jobs.Keys == old(jobs).Keys && picked <= jobs.Keys
    {
      hide Step, Enabled, Expired, Ids, Ordered, Leq;
      ghost var s := View();
      ExpiredIsStored(s);
      var rows, taken := Select(jobs, Expired(View()), ByStart, LimitOr(limit, RECLAIM_LIMIT));
      picked := taken;
      var at := now;
      ReclaimNeeds(s, Reclaim(limit, taken));
      StepOfReclaim(s, Reclaim(limit, taken));
      ReclaimTakesLost(s, limit, taken);
      UpdateWhere(taken, j => SqlReclaimed(j, at));
      ReclaimWrites(s, limit, taken);
      n := |rows|;
    }

    method ExtendLease(project: int, worker: string) returns (n: nat)
      modifies this`jobs
      ensures var at := now;
              jobs == if worker == "" then old(jobs)
                      else UpdateRows(old(jobs), LeasesOf(old(jobs), project, worker), j => SqlExtended(j, at))
      ensures n == if worker == "" then 0 else |LeasesOf(old(jobs), project, worker)|
    {
      n := 0;
      if worker != "" {
        var at, held := now, LeasesOf(jobs, project, worker);
        UpdateWhere(held, j => SqlExtended(j, at));
        n := |held|;
      }
    }

    method CountByQueue(key: QueueKey) returns (n: nat)
      ensures n == |JobsOf(jobs, key)|
    {
      n := |JobsOf(jobs, key)|;
    }

    method CountActiveByQueue(key: QueueKey) returns (n: nat)
      ensures n == |ActiveJobsOf(jobs, key)|
      ensures n > 0 <==> exists id :: && id in jobs && jobs[id].project == key.project && jobs[id].queue == key.name
                                      && jobs[id].status in {Pending, Scheduled, Running}
    {
      ActiveMeans(jobs, key);
      n := |ActiveJobsOf(jobs, key)|;
    }

    method PurgeTerminalBefore(statuses: set<Status>, before: int, limit: int) returns (n: nat,
                               ghost picked: set<JobId>)
      modifies this`jobs
      ensures Batch(Purgeable(old(jobs), statuses, before), LimitOr(limit, DELETE_LIMIT), picked) && n == |picked|
      ensures jobs == Without(old(jobs), picked)
    {
      if statuses == {} {
        n, picked := 0, {};
        assert Purgeable(jobs, statuses, before) == {};
      } else {
        n, picked := DeleteSome(Purgeable(jobs, statuses, before), LimitOr(limit, DELETE_LIMIT));
      }
    }

    method DeleteByQueue(key: QueueKey, limit: int) returns (n: nat, ghost picked: set<JobId>)
      modifies this`jobs
      ensures Batch(JobsOf(old(jobs), key), LimitOr(limit, DELETE_LIMIT), picked) && n == |picked|
      ensures jobs == Without(old(jobs), picked)
    {
      n, picked := DeleteSome(JobsOf(jobs, key), LimitOr(limit, DELETE_LIMIT));
    }

    method DeleteByProject(project: int, limit: int) returns (n: nat, ghost picked: set<JobId>)
      modifies this`jobs
      ensures Batch(JobsOfProject(old(jobs), project), LimitOr(limit, DELETE_LIMIT), picked) && n == |picked|
      ensures jobs == Without(old(jobs), picked)
    {
      n, picked := DeleteSome(JobsOfProject(jobs, project), LimitOr(limit, DELETE_LIMIT));
    }

    /** Cancels the queue's pending, scheduled and running jobs now: none of its jobs is left that is not terminal. */
    method ForceCancelActiveByQueue(key: QueueKey) returns (n: nat)
      modifies this`jobs
      ensures var at := now;
              jobs == UpdateRows(old(jobs), ActiveJobsOf(old(jobs), key), j => SqlForceCancelled(j, at))
      ensures n == |ActiveJobsOf(old(jobs), key)|
      ensures jobs.Keys == old(jobs).Keys
      ensures forall id :: id in jobs ==>
                var j := old(jobs)[id];
                if j.project == key.project && j.queue == key.name && j.status in {Pending, Scheduled, Running} then
                  && jobs[id].status == Cancelled && jobs[id].terminalAt == Some(now) && jobs[id].workerId == ""
                  && jobs[id] == j.(status := Cancelled, terminalAt := Some(now), workerId := "", startedAt := None,
                                    updatedAt := now)
                else jobs[id] == j
      ensures forall id :: id in jobs && jobs[id].project == key.project && jobs[id].queue == key.name ==>
                jobs[id].status in {Completed, Cancelled, Failed, Dlq}
    {
      var at, active := now, ActiveJobsOf(jobs, key);
      UpdateWhere(active, j => SqlForceCancelled(j, at));
      n := |active|;
      forall id | id in jobs && jobs[id].project == key.project && jobs[id].queue == key.name
        ensures jobs[id].status in {Completed, Cancelled, Failed, Dlq}
      {
        SevenStatuses(old(jobs)[id].status);
      }
    }

    // ---- queues and workers ----

    method FindQueue(key: QueueKey) returns (q: Option<Queue>)
      ensures q == if key in queues then Some(queues[key]) else None
    {
      q := if key in queues then Some(queues[key]) else None;
    }

    /** INSERT under the next queue id, refused by the unique index on project and name. */
    method CreateQueue(key: QueueKey, q: Queue) returns (ok: bool)
      modifies this`queues, this`nextQueue
      ensures ok <==> key !in old(queues)
      ensures queues == if ok then old(queues)[key := q.(serial := old(nextQueue))] else old(queues)
      ensures nextQueue == if ok then old(nextQueue) + 1 else old(nextQueue)
    {
      ok := key !in queues;
      if ok {
        queues := queues[key := q.(serial := nextQueue)];
        nextQueue := nextQueue + 1;
      }
    }

    /** Writes the whole row over the row with its id, or inserts it if that row is gone. */
    method SaveQueue(key: QueueKey, q: Queue)
      modifies this`queues
      ensures queues == Saved(old(queues), key, q)
    {
      if key !in queues || queues[key].serial == q.serial {
        queues := queues[key := q];
      }
    }

    method DeleteQueue(key: QueueKey)
      modifies this`queues
      ensures queues == Without(old(queues), {key})
    {
      queues := Without(queues, {key});
    }

    method FindWorker(project: int, worker: string) returns (w: Option<Worker>)
      ensures w == if worker in workers && workers[worker].project == project then Some(workers[worker]) else None
    {
      w := if worker in workers && workers[worker].project == project then Some(workers[worker]) else None;
    }

    method SaveWorker(worker: string, w: Worker)
      modifies this`workers
      ensures workers == old(workers)[worker := w]
    {
      workers := workers[worker := w];
    }
  }
}
