/** The scheduler (internal/application/service/queue/router/service.go PublishDueScheduled): one snapshot of
    due jobs, each then promoted, published and saved again, with others at work in between. */
module Scheduling {
  import opened Wrappers
  import opened JobModel
  import opened QueueState
  import opened QueueSteps
  import opened ClaimSelection
  import opened StepEquations
  import opened JobHistory
  import opened CascadeSafety
  import opened Storage
  import opened Interleaving
  import opened JobHandlers
  import opened StatementMeaning

  /** The tokens of the scheduler's handlers, one for each row of its snapshot. */
  ghost predicate Unused(tokens: seq<nat>, s: State) {
    && (forall i :: 0 <= i < |tokens| ==> tokens[i] !in s.copies && tokens[i] !in s.visits)
    && (forall i, k :: 0 <= i < k < |tokens| ==> tokens[i] != tokens[k])
  }

  ghost predicate OtherSchedulers(env: nat -> seq<Event>, tokens: seq<nat>) {
    forall n, i :: 0 <= i < |tokens| ==> OtherHandlers(env(n), tokens[i])
  }

  /** The reads of the first `n` rows. */
  ghost function Reads(tokens: seq<nat>, jobs: map<JobId, Job>, rows: seq<JobId>, n: nat): (es: seq<Event>)
    requires n <= |rows| <= |tokens| && forall i :: 0 <= i < |rows| ==> rows[i] in jobs
    ensures |es| == n
    ensures forall i :: 0 <= i < n ==> es[i] == JobRead(tokens[i], KeyOf(jobs[rows[i]]), rows[i], Promoting)
  {
    seq(n, i requires 0 <= i < n => JobRead(tokens[i], KeyOf(jobs[rows[i]]), rows[i], Promoting))
  }

  /** The snapshot's rows from the `from`-th to before the `to`-th are held as they were read. */
  ghost predicate Held(copies: map<nat, Copy>, tokens: seq<nat>, jobs: map<JobId, Job>, rows: seq<JobId>, from: nat,
                       to: nat)
    requires to <= |rows| <= |tokens| && forall i :: 0 <= i < |rows| ==> rows[i] in jobs
  {
    forall i :: from <= i < to ==>
      tokens[i] in copies && copies[tokens[i]] == JobCopy(rows[i], jobs[rows[i]], Promoting)
  }

  /** A handler that saved its promotion found its job's queue, and one that gave it up did not. */
  ghost predicate ClosesRight(s0: State, moves: seq<Move>) {
    forall n :: 0 <= n < |moves| && moves[n].Own? ==>
      ClosesRightStep(Run(s0, Events(moves[..n])), moves[n].e)
  }

  ghost predicate ClosesRightStep(s: State, e: Event) {
    e.JobSave? || e.JobAbandon? ==>
      && e.token in s.copies
      && (s.copies[e.token].change.Promoting? ==> (e.JobSave? <==> KeyOf(s.copies[e.token].read) in s.queues))
  }

  lemma ClosesRightOwn(s0: State, moves: seq<Move>, e: Event)
    requires ClosesRight(s0, moves) && ClosesRightStep(Run(s0, Events(moves)), e)
    ensures ClosesRight(s0, moves + [Own(e)])
  {
    hide Run, ClosesRightStep;
    var more := moves + [Own(e)];
    assert more[..|moves|] == moves;
    assert forall n :: 0 <= n < |moves| ==> more[..n] == moves[..n];
  }

  lemma ClosesRightOthers(s0: State, moves: seq<Move>, more: seq<Move>)
    requires ClosesRight(s0, moves) && moves <= more && By(more, true) == By(moves, true)
    ensures ClosesRight(s0, more)
  {
    hide Run, ClosesRightStep, By;
    OthersOnly(moves, more);
  }

  /** What a handler does with a due job: nothing, if its queue is gone; else it promotes it, and unless that
      is refused publishes it, and saves it again if the broker has taken it. */
  predicate Closes(es: seq<Event>, token: nat, published: bool) {
    || es == [JobAbandon(token)] || es == [JobSave(token)]
    || es == [JobSave(token)] + [if published then JobSave(token) else JobAbandon(token)]
  }

  ghost function Joined(parts: seq<seq<Event>>): seq<Event> {
    if parts == [] then [] else Joined(parts[..|parts| - 1]) + parts[|parts| - 1]
  }

  lemma JoinedSnoc(parts: seq<seq<Event>>, last: seq<Event>)
    ensures Joined(parts + [last]) == Joined(parts) + last
  {
    assert (parts + [last])[..|parts|] == parts;
  }

  /** One snapshot of the (up to 100) earliest due jobs; then, with anything others do in between, each is
      promoted by saving the row as it was in the snapshot, unless its queue is gone by then, and published
      (`published` is the broker's answer for each row) and saved again. */
  method PublishDueScheduled(db: Database, tokens: seq<nat>, published: nat -> bool, env: nat -> seq<Event>)
      returns (ghost rows: seq<JobId>, ghost parts: seq<seq<Event>>, ghost moves: seq<Move>, pauses: nat)
    requires Orderly(db.View())
    requires |tokens| == DUE_LIMIT && Unused(tokens, db.View()) && OtherSchedulers(env, tokens)
    modifies db
    ensures Earliest(old(db.jobs), Due(old(db.View())), ByDue, DUE_LIMIT, Ids(rows))
    ensures |rows| == |Ids(rows)| <= 100 && Ordered(old(db.jobs), rows, ByDue)
    ensures forall id :: id in old(db.jobs) ==>
              var j, key := old(db.jobs)[id], QueueKey(old(db.jobs)[id].project, old(db.jobs)[id].queue);
              var due := && j.status == Scheduled && j.scheduleAt.Some? && j.scheduleAt.value <= old(db.now)
                         && key in old(db.queues) && old(db.queues)[key].status == Active
                         && j.project in old(db.tenants) && old(db.tenants)[j.project] == Active;
              (id in rows ==> due) && (|rows| < 100 && due ==> id in rows)
    ensures forall i, k :: 0 <= i < k < |rows| ==>
              && rows[i] in old(db.jobs) && rows[k] in old(db.jobs)
              && var a, b := old(db.jobs)[rows[i]].scheduleAt, old(db.jobs)[rows[k]].scheduleAt;
                 a.Some? && b.Some? && a.value <= b.value
    ensures Woven(old(db.View()), moves, db.View(), env, pauses) && ClosesRight(old(db.View()), moves)
    ensures By(moves, true) == Reads(tokens, old(db.jobs), rows, |rows|) + Joined(parts)
    ensures |parts| == |rows| && forall i :: 0 <= i < |rows| ==> Closes(parts[i], tokens[i], published(i))
    ensures Closed(db.copies, tokens, |rows|)
  {
    hide Step, Run, Due, Earliest, By, Woven, Orderly, Held, ClosesRight, OtherSchedulers, DueScheduled, Closes, Reads,
         Ordered, Job.IsClaimable, Joined;
    ghost var s0 := db.View();
    var due, picked := db.FindDueScheduled(DUE_LIMIT);
    rows := due;
    AtMostLimit(db.jobs, Due(db.View()), picked);
    DueSelects(db.View(), DUE_LIMIT, picked);
    InOrderOfSchedule(db.View(), due);
    SnapshotIsClaimable(db.View(), due);
    var jobs := db.jobs;
    moves := HoldAll(db, tokens, due, env);
    parts, moves, pauses := PromoteAll(db, tokens, jobs, due, published, env, s0, moves);
  }

  lemma InOrderOfSchedule(s: State, due: seq<JobId>)
    requires Ids(due) <= Due(s) && Ordered(s.jobs, due, ByDue)
    ensures forall i, k :: 0 <= i < k < |due| ==>
              && due[i] in s.jobs && due[k] in s.jobs
              && var a, b := s.jobs[due[i]].scheduleAt, s.jobs[due[k]].scheduleAt;
                 a.Some? && b.Some? && a.value <= b.value
  {
    forall i, k | 0 <= i < k < |due|
      ensures && due[i] in s.jobs && due[k] in s.jobs
              && var a, b := s.jobs[due[i]].scheduleAt, s.jobs[due[k]].scheduleAt;
                 a.Some? && b.Some? && a.value <= b.value
    {
      DueInSnapshot(s, due, i);
      DueInSnapshot(s, due, k);
      assert Leq(SortKeyOf(ByDue, s.jobs[due[i]]), SortKeyOf(ByDue, s.jobs[due[k]]));
    }
  }

  lemma SnapshotIsClaimable(s: State, due: seq<JobId>)
    requires Ids(due) <= Due(s)
    ensures forall i :: 0 <= i < |due| ==>
              due[i] in s.jobs && s.jobs[due[i]].IsClaimable(s.now) && s.jobs[due[i]].status.Scheduled?
  {
    hide Due, DueScheduled, Job.IsClaimable;
    forall i | 0 <= i < |due|
      ensures due[i] in s.jobs && s.jobs[due[i]].IsClaimable(s.now) && s.jobs[due[i]].status.Scheduled?
    {
      DueInSnapshot(s, due, i);
      DueIsClaimable(s, s.jobs[due[i]]);
    }
  }

  lemma DueIsClaimable(s: State, j: Job)
    requires DueScheduled(s, j)
    ensures j.IsClaimable(s.now) && j.status.Scheduled?
  {
  }

  /** The scheduler's loop over its snapshot. */
  method PromoteAll(db: Database, tokens: seq<nat>, jobs: map<JobId, Job>, rows: seq<JobId>, published: nat -> bool,
                    env: nat -> seq<Event>, ghost s0: State, ghost moves: seq<Move>)
      returns (ghost parts: seq<seq<Event>>, ghost more: seq<Move>, turn: nat)
    requires |rows| <= |tokens| && forall i :: 0 <= i < |rows| ==> rows[i] in jobs
    requires forall i :: 0 <= i < |rows| ==> jobs[rows[i]].IsClaimable(db.now) && jobs[rows[i]].status.Scheduled?
    requires Orderly(s0) && Woven(s0, moves, db.View(), env, 0) && ClosesRight(s0, moves)
    requires Held(db.copies, tokens, jobs, rows, 0, |rows|) && NoVisits(db.visits, tokens)
    requires OtherSchedulers(env, tokens) && forall i, k :: 0 <= i < k < |tokens| ==> tokens[i] != tokens[k]
    modifies db
    ensures Woven(s0, more, db.View(), env, turn) && ClosesRight(s0, more)
    ensures By(more, true) == By(moves, true) + Joined(parts)
    ensures |parts| == |rows| && forall i :: 0 <= i < |rows| ==> Closes(parts[i], tokens[i], published(i))
    ensures Closed(db.copies, tokens, |rows|)
  {
    hide Step, Run, By, Woven, Orderly, Held, ClosesRight, OtherSchedulers, Closes, Job.IsClaimable, NoVisits, Joined,
         SameHandler;
    parts, more, turn := [], moves, 0;
    NothingJoined();
    ghost var at := db.now;
    for i := 0 to |rows|
      invariant Woven(s0, more, db.View(), env, turn) && ClosesRight(s0, more)
      invariant Held(db.copies, tokens, jobs, rows, i, |rows|) && NoVisits(db.visits, tokens)
      invariant Closed(db.copies, tokens, i)
      invariant By(more, true) == By(moves, true) + Joined(parts)
      invariant |parts| == i && forall k :: 0 <= k < i ==> Closes(parts[k], tokens[k], published(k))
      invariant db.now >= at
    {
      ghost var s := db.View();
      more := SchedulerPause(db, tokens, jobs, rows, i, env, turn, env(turn), s0, more);
      ClosedStays(s, db.View(), tokens, i);
      StillClaimable(jobs[rows[i]], at, db.now);
      ghost var last;
      last, more, turn := OneDue(db, tokens, jobs, rows, i, published(i), env, turn + 1, s0, more);
      JoinedSnoc(parts, last);
      parts := parts + [last];
    }
  }

  lemma NothingJoined()
    ensures Joined([]) == []
  {
  }

  /** The handlers of the first `n` rows are done. */
  ghost predicate Closed(copies: map<nat, Copy>, tokens: seq<nat>, n: nat) {
    forall i :: 0 <= i < n && i < |tokens| ==> tokens[i] !in copies
  }

  lemma ClosedStays(s: State, t: State, tokens: seq<nat>, n: nat)
    requires Closed(s.copies, tokens, n) && forall i :: 0 <= i < |tokens| ==> SameHandler(s, t, tokens[i])
    ensures Closed(t.copies, tokens, n)
  {
  }

  ghost predicate NoVisits(visits: map<nat, QueueKey>, tokens: seq<nat>) {
    forall i :: 0 <= i < |tokens| ==> tokens[i] !in visits
  }

  lemma AtMostLimit(jobs: map<JobId, Job>, eligible: set<JobId>, picked: set<JobId>)
    requires Earliest(jobs, eligible, ByDue, LimitOr(DUE_LIMIT, DUE_LIMIT), picked)
    ensures |picked| <= DUE_LIMIT && Earliest(jobs, eligible, ByDue, DUE_LIMIT, picked)
  {
  }

  lemma DueInSnapshot(s: State, due: seq<JobId>, i: nat)
    requires Ids(due) <= Due(s) && i < |due|
    ensures due[i] in s.jobs && DueScheduled(s, s.jobs[due[i]])
  {
    assert due[i] in Ids(due);
  }

  method HoldAll(db: Database, tokens: seq<nat>, due: seq<JobId>, ghost env: nat -> seq<Event>)
      returns (ghost moves: seq<Move>)
    requires |due| == |Ids(due)| <= |tokens| && Ids(due) <= Due(db.View()) && Unused(tokens, db.View())
    modifies db`copies, db`visits
    ensures forall i :: 0 <= i < |due| ==> due[i] in db.jobs
    ensures Woven(old(db.View()), moves, db.View(), env, 0) && ClosesRight(old(db.View()), moves)
    ensures By(moves, true) == Reads(tokens, db.jobs, due, |due|)
    ensures Held(db.copies, tokens, db.jobs, due, 0, |due|) && NoVisits(db.visits, tokens)
  {
    hide Step, Run, Due, By, Woven, ClosesRight, ClosesRightStep, DueScheduled;
    ghost var s0 := db.View();
    moves := [];
    NoMoves(s0, env);
    forall i | 0 <= i < |due| ensures due[i] in s0.jobs { DueInSnapshot(s0, due, i); }
    ClosesNothing(s0);
    for i := 0 to |due|
      invariant db.View() == s0.(copies := db.copies)
      invariant Woven(s0, moves, db.View(), env, 0) && ClosesRight(s0, moves)
      invariant By(moves, true) == Reads(tokens, s0.jobs, due, i)
      invariant Held(db.copies, tokens, s0.jobs, due, 0, i)
      invariant forall k :: i <= k < |tokens| ==> tokens[k] !in db.copies
    {
      DueInSnapshot(s0, due, i);
      DueWhateverIsHeld(s0, db.copies, due[i]);
      ghost var read := JobRead(tokens[i], KeyOf(s0.jobs[due[i]]), due[i], Promoting);
      ReadsClose(s0, moves, read);
      moves := Hold(db, tokens[i], KeyOf(db.jobs[due[i]]), due[i], Promoting, env, 0, s0, moves);
      assert db.visits == s0.visits;
      assert Reads(tokens, s0.jobs, due, i + 1) == Reads(tokens, s0.jobs, due, i) + [read];
    }
  }

  lemma ClosesNothing(s: State)
    ensures ClosesRight(s, [])
  {
  }

  lemma ReadsClose(s0: State, moves: seq<Move>, e: Event)
    requires ClosesRight(s0, moves) && e.JobRead?
    ensures ClosesRight(s0, moves + [Own(e)])
  {
    hide Run, ClosesRight;
    ClosesRightOwn(s0, moves, e);
  }

  lemma DueWhateverIsHeld(s: State, copies: map<nat, Copy>, id: JobId)
    requires id in s.jobs && DueScheduled(s, s.jobs[id])
    ensures GoesAhead(s.(copies := copies), KeyOf(s.jobs[id]), id, Promoting)
  {
  }

  /** Others at work while the scheduler holds the rest of its snapshot. */
  method SchedulerPause(db: Database, ghost tokens: seq<nat>, ghost jobs: map<JobId, Job>, ghost rows: seq<JobId>,
                        ghost from: nat, env: nat -> seq<Event>, ghost n: nat, es: seq<Event>, ghost s0: State,
                        ghost moves: seq<Move>)
      returns (ghost more: seq<Move>)
    requires |rows| <= |tokens| && forall i :: 0 <= i < |rows| ==> rows[i] in jobs
    requires es == env(n) && Woven(s0, moves, db.View(), env, n) && OtherSchedulers(env, tokens)
    requires ClosesRight(s0, moves) && Held(db.copies, tokens, jobs, rows, from, |rows|) && NoVisits(db.visits, tokens)
    modifies db
    ensures Woven(s0, more, db.View(), env, n + 1) && By(more, true) == By(moves, true) && ClosesRight(s0, more)
    ensures Held(db.copies, tokens, jobs, rows, from, |rows|) && NoVisits(db.visits, tokens)
    ensures forall i :: 0 <= i < |tokens| ==> SameHandler(old(db.View()), db.View(), tokens[i])
    ensures db.now >= old(db.now)
  {
    hide Run, Step, By, Woven, ClosesRight;
    ghost var s := db.View();
    forall i | 0 <= i < |tokens| ensures SameHandler(s, Run(s, es), tokens[i]) {
      assert OtherHandlers(env(n), tokens[i]);
      HandlerStays(s, es, tokens[i]);
    }
    more := Yield(db, env, n, es, s0, moves);
    ClosesRightOthers(s0, moves, more);
  }

  /** One round of the scheduler's loop. */
  method OneDue(db: Database, tokens: seq<nat>, jobs: map<JobId, Job>, rows: seq<JobId>, i: nat, published: bool,
                env: nat -> seq<Event>, n: nat, ghost s0: State, ghost moves: seq<Move>)
      returns (ghost part: seq<Event>, ghost more: seq<Move>, turn: nat)
    requires i < |rows| <= |tokens| && (forall k :: 0 <= k < |rows| ==> rows[k] in jobs)
    requires Orderly(s0) && Woven(s0, moves, db.View(), env, n) && ClosesRight(s0, moves)
    requires Held(db.copies, tokens, jobs, rows, i, |rows|) && NoVisits(db.visits, tokens)
    requires OtherSchedulers(env, tokens) && forall i, k :: 0 <= i < k < |tokens| ==> tokens[i] != tokens[k]
    requires jobs[rows[i]].IsClaimable(db.now) && jobs[rows[i]].status.Scheduled? && Closed(db.copies, tokens, i)
    modifies db
    ensures Woven(s0, more, db.View(), env, turn) && ClosesRight(s0, more) && db.now >= old(db.now)
    ensures Held(db.copies, tokens, jobs, rows, i + 1, |rows|) && NoVisits(db.visits, tokens)
    ensures Closed(db.copies, tokens, i + 1)
    ensures By(more, true) == By(moves, true) + part && Closes(part, tokens[i], published)
  {
    hide Step, Run, By, Woven, Orderly, ClosesRight, OtherSchedulers, Job.IsClaimable, Held, NoVisits, Closed,
         SameHandler;
    turn := n;
    var q := db.FindQueue(KeyOf(jobs[rows[i]]));
    if q.None? {
      part := [JobAbandon(tokens[i])];
      more := Skip(db, tokens, jobs, rows, i, env, n, s0, moves);
      return;
    }
    var j := new JobEntity(rows[i], jobs[rows[i]]);
    var ok;
    ok, more := Promote(db, tokens, jobs, rows, i, j, env, n, s0, moves);
    part := [JobSave(tokens[i])];
    if ok {
      ghost var at := db.now;
      ghost var s := db.View();
      more := SchedulerPause(db, tokens, jobs, rows, i + 1, env, n, env(n), s0, more);
      ClosedStays(s, db.View(), tokens, i);
      CopyStays(s, db.View(), tokens[i]);
      turn := n + 1;
      StillClaimable(j.Row(), at, db.now);
      more := PublishPromoted(db, tokens, jobs, rows, i, j, published, env, turn, s0, more);
      part := part + [if published then JobSave(tokens[i]) else JobAbandon(tokens[i])];
    }
  }

  lemma CopyStays(s: State, t: State, token: nat)
    requires SameHandler(s, t, token)
    ensures token in s.copies ==> token in t.copies && t.copies[token] == s.copies[token]
  {
  }

  /** The queue is gone. */
  method Skip(db: Database, tokens: seq<nat>, ghost jobs: map<JobId, Job>, ghost rows: seq<JobId>, i: nat,
              ghost env: nat -> seq<Event>, ghost n: nat, ghost s0: State, ghost moves: seq<Move>)
      returns (ghost more: seq<Move>)
    requires i < |rows| <= |tokens| && (forall k :: 0 <= k < |rows| ==> rows[k] in jobs)
    requires Woven(s0, moves, db.View(), env, n) && ClosesRight(s0, moves)
    requires Held(db.copies, tokens, jobs, rows, i, |rows|) && NoVisits(db.visits, tokens)
    requires forall i, k :: 0 <= i < k < |tokens| ==> tokens[i] != tokens[k]
    requires KeyOf(jobs[rows[i]]) !in db.queues && Closed(db.copies, tokens, i)
    modifies db`copies
    ensures Woven(s0, more, db.View(), env, n) && ClosesRight(s0, more)
    ensures Held(db.copies, tokens, jobs, rows, i + 1, |rows|) && Closed(db.copies, tokens, i + 1)
    ensures By(more, true) == By(moves, true) + [JobAbandon(tokens[i])]
  {
    hide Step, Run, By, Woven, ClosesRight;
    WovenIsRun(s0, moves, db.View(), env, n);
    ClosesRightOwn(s0, moves, JobAbandon(tokens[i]));
    more := GiveUp(db, tokens[i], env, n, s0, moves);
  }

  /** The scheduler's first save of a due job. */
  method Promote(db: Database, tokens: seq<nat>, ghost jobs: map<JobId, Job>, ghost rows: seq<JobId>, i: nat,
                 j: JobEntity, ghost env: nat -> seq<Event>, ghost n: nat, ghost s0: State, ghost moves: seq<Move>)
      returns (ok: bool, ghost more: seq<Move>)
    requires i < |rows| <= |tokens| && (forall k :: 0 <= k < |rows| ==> rows[k] in jobs)
    requires Orderly(s0) && Woven(s0, moves, db.View(), env, n) && ClosesRight(s0, moves)
    requires Held(db.copies, tokens, jobs, rows, i, |rows|)
    requires forall i, k :: 0 <= i < k < |tokens| ==> tokens[i] != tokens[k]
    requires j.id == rows[i] && j.Row() == jobs[rows[i]] && KeyOf(j.Row()) in db.queues && j.Row().IsClaimable(db.now)
    requires Closed(db.copies, tokens, i)
    modifies j, db`jobs, db`copies
    ensures Woven(s0, more, db.View(), env, n) && ClosesRight(s0, more)
    ensures By(more, true) == By(moves, true) + [JobSave(tokens[i])]
    ensures Held(db.copies, tokens, jobs, rows, i + 1, |rows|)
    ensures ok ==> tokens[i] in db.copies && db.copies[tokens[i]] == JobCopy(j.id, j.Row(), Republishing)
    ensures ok ==> j.Row().IsClaimable(db.now)
    ensures Closed(db.copies, tokens, if ok then i else i + 1)
  {
    hide Step, Run, By, Woven, Orderly, Enabled, ClosesRight, Storable, CopiesSaved, JobsSaved;
    ghost var s := db.View();
    j.MarkPendingForSchedule(db.now);
    WovenIsRun(s0, moves, s, env, n);
    ClosesRightOwn(s0, moves, JobSave(tokens[i]));
    AfterSave(s, tokens[i]);
    CopiesAfterSave(s, tokens[i]);
    ok, more := Release(db, tokens[i], j, env, n, s0, moves);
  }

  /** The scheduler's second save of a due job. */
  method PublishPromoted(db: Database, tokens: seq<nat>, ghost jobs: map<JobId, Job>, ghost rows: seq<JobId>, i: nat,
                         j: JobEntity, published: bool, ghost env: nat -> seq<Event>, ghost n: nat, ghost s0: State,
                         ghost moves: seq<Move>)
      returns (ghost more: seq<Move>)
    requires i < |rows| <= |tokens| && (forall k :: 0 <= k < |rows| ==> rows[k] in jobs)
    requires Orderly(s0) && Woven(s0, moves, db.View(), env, n) && ClosesRight(s0, moves)
    requires Held(db.copies, tokens, jobs, rows, i + 1, |rows|) && NoVisits(db.visits, tokens)
    requires forall i, k :: 0 <= i < k < |tokens| ==> tokens[i] != tokens[k]
    requires tokens[i] in db.copies && db.copies[tokens[i]] == JobCopy(j.id, j.Row(), Republishing)
    requires j.Row().IsClaimable(db.now) && Closed(db.copies, tokens, i)
    modifies db`jobs, db`copies
    ensures Closed(db.copies, tokens, i + 1)
    ensures Woven(s0, more, db.View(), env, n) && ClosesRight(s0, more)
    ensures By(more, true) == By(moves, true) + [if published then JobSave(tokens[i]) else JobAbandon(tokens[i])]
    ensures Held(db.copies, tokens, jobs, rows, i + 1, |rows|)
  {
    hide Step, Run, By, Woven, Orderly, Enabled, ClosesRight, Storable, CopiesSaved, JobsSaved;
    ghost var s := db.View();
    WovenIsRun(s0, moves, s, env, n);
    if published {
      ClosesRightOwn(s0, moves, JobSave(tokens[i]));
      CopiesAfterSave(s, tokens[i]);
      var stored;
      stored, more := Release(db, tokens[i], j, env, n, s0, moves);
    } else {
      ClosesRightOwn(s0, moves, JobAbandon(tokens[i]));
      more := GiveUp(db, tokens[i], env, n, s0, moves);
    }
  }
}
