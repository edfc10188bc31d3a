/** Which jobs a claim takes, and that promoting scheduled jobs cannot change it
    (internal/infrastructure/repository/queue/job/repository.go ClaimPending,
    internal/application/service/queue/router/service.go PublishDueScheduled). */
module ClaimSelection {
  import opened Wrappers
  import opened JobModel
  import opened QueueState
  import opened QueueSteps
  import opened StepEquations
  import opened JobHistory

  /** No row of `rest` comes before one of `taken`. */
  ghost predicate Precede(jobs: map<JobId, Job>, taken: set<JobId>, rest: set<JobId>, o: Order)
    requires taken <= jobs.Keys && rest <= jobs.Keys
  {
    forall x, y :: x in taken && y in rest ==> Leq(SortKeyOf(o, jobs[x]), SortKeyOf(o, jobs[y]))
  }

  /** The id of an earliest row among `rest`. */
  method FirstOf(jobs: map<JobId, Job>, rest: set<JobId>, o: Order) returns (first: JobId)
    requires rest != {} && rest <= jobs.Keys
    ensures first in rest && Precede(jobs, {first}, rest, o)
  {
    first :| first in rest;
    var unseen := rest - {first};
    while unseen != {}
      invariant unseen <= rest && first in rest
      invariant forall y :: y in rest - unseen ==> Leq(SortKeyOf(o, jobs[first]), SortKeyOf(o, jobs[y]))
      decreases |unseen|
    {
      var y :| y in unseen;
      if !Leq(SortKeyOf(o, jobs[first]), SortKeyOf(o, jobs[y])) {
        first := y;
      }
      unseen := unseen - {y};
    }
  }

  function Ids(xs: seq<JobId>): (ids: set<JobId>)
    ensures forall x :: x in ids <==> x in xs
  {
    set x | x in xs
  }

  /** The rows are listed in the order. */
  ghost predicate Ordered(jobs: map<JobId, Job>, rows: seq<JobId>, o: Order) {
    && (forall i :: 0 <= i < |rows| ==> rows[i] in jobs)
    && (forall i, k :: 0 <= i < k < |rows| ==> Leq(SortKeyOf(o, jobs[rows[i]]), SortKeyOf(o, jobs[rows[k]])))
  }

  lemma TakeFirst(jobs: map<JobId, Job>, rows: seq<JobId>, taken: set<JobId>, rest: set<JobId>, first: JobId, o: Order)
    requires taken <= jobs.Keys && rest <= jobs.Keys && taken == Ids(rows)
    requires Ordered(jobs, rows, o) && Precede(jobs, taken, rest, o)
    requires first in rest && Precede(jobs, {first}, rest, o)
    ensures Ids(rows + [first]) == taken + {first}
    ensures Ordered(jobs, rows + [first], o) && Precede(jobs, taken + {first}, rest - {first}, o)
  {
    hide SortKeyOf, Leq;
  }

  /** ORDER BY `o` LIMIT `limit`: takes the earliest row again and again. */
  method Select(jobs: map<JobId, Job>, eligible: set<JobId>, o: Order, limit: nat)
      returns (rows: seq<JobId>, taken: set<JobId>)
    requires eligible <= jobs.Keys
    ensures Earliest(jobs, eligible, o, limit, taken)
    ensures taken == Ids(rows) && |rows| == |taken| && Ordered(jobs, rows, o)
  {
    hide SortKeyOf, Leq, Ids, Ordered, Precede, Earliest;
    rows, taken := [], {};
    var rest := eligible;
    NothingTaken(jobs, eligible, o);
    while |taken| < limit && rest != {}
      invariant taken <= eligible && rest <= eligible && eligible - taken == rest
      invariant taken == Ids(rows) && |rows| == |taken| <= limit
      invariant Ordered(jobs, rows, o) && Precede(jobs, taken, rest, o)
      decreases |rest|
    {
      var first := FirstOf(jobs, rest, o);
      TakeFirst(jobs, rows, taken, rest, first, o);
      rows, taken, rest := rows + [first], taken + {first}, rest - {first};
    }
    EarliestTaken(jobs, eligible, taken, rest, o, limit);
  }

  lemma NothingTaken(jobs: map<JobId, Job>, eligible: set<JobId>, o: Order)
    requires eligible <= jobs.Keys
    ensures Ids([]) == {} && Ordered(jobs, [], o) && Precede(jobs, {}, eligible, o)
  {
  }

  lemma EarliestTaken(jobs: map<JobId, Job>, eligible: set<JobId>, taken: set<JobId>, rest: set<JobId>, o: Order,
                      limit: nat)
    requires eligible <= jobs.Keys && taken <= eligible && rest == eligible - taken
    requires Precede(jobs, taken, rest, o)
    requires |taken| == limit || (|taken| < limit && rest == {})
    ensures Earliest(jobs, eligible, o, limit, taken)
  {
    hide SortKeyOf, Leq;
    assert eligible == taken + rest;
  }

  // ---- the claim filter ----

  /** The claim statement's filter and the entity's own test agree at every instant exactly on rows
      that are not scheduled without a time, and so on every stored row. */
  lemma FilterMatchesIsClaimable(j: Job)
    ensures (forall now :: SqlClaimable(j, now) <==> j.IsClaimable(now)) <==> !(j.status.Scheduled? && j.scheduleAt.None?)
    ensures j.WellShaped() ==> !(j.status.Scheduled? && j.scheduleAt.None?)
  {
    assert SqlClaimable(j, 0) <==>
      (j.status.Pending? || j.status.Scheduled?) && (j.scheduleAt.None? || j.scheduleAt.value <= 0);
    assert j.status.Scheduled? && j.scheduleAt.None? ==> !j.IsClaimable(0);
  }

  /** A legal claim takes exactly min(limit, claimable) jobs, each of them claimable by the entity's
      own test, and none later in claim order than a claimable job it leaves. */
  lemma ClaimTakesEarliest(s0: State, es: seq<Event>, key: QueueKey, worker: string, limit: int, picked: set<JobId>)
    requires Initial(s0) && Enabled(Run(s0, es), Claim(key, worker, limit, picked))
    ensures
      var s := Run(s0, es);
      var claimable := set id | id in s.jobs && KeyOf(s.jobs[id]) == key && s.jobs[id].IsClaimable(s.now);
      && |picked| == Min(if limit <= 0 then 1 else limit, |claimable|)
      && picked <= claimable
      && (forall x, y :: x in picked && y in claimable && y !in picked ==>
            var a, b := s.jobs[x], s.jobs[y];
            && (a.scheduleAt.Some? ==> b.scheduleAt.Some? && a.scheduleAt.value <= b.scheduleAt.value)
            && (a.scheduleAt == b.scheduleAt ==> a.createdAt <= b.createdAt))
  {
    var s := Run(s0, es);
    var claimable := set id | id in s.jobs && KeyOf(s.jobs[id]) == key && s.jobs[id].IsClaimable(s.now);
    forall id | id in s.jobs ensures SqlClaimable(s.jobs[id], s.now) <==> s.jobs[id].IsClaimable(s.now) {
      HistoryInvariant(s0, es, id);
    }
    assert claimable == Claimable(s, key);
    forall x, y | x in picked && y in claimable && y !in picked
      ensures Leq(SortKeyOf(BySchedule, s.jobs[x]), SortKeyOf(BySchedule, s.jobs[y]))
    {
      assert y in Claimable(s, key) - picked;
    }
  }

  // ---- promotion ----

  /** The claim-relevant columns agree, and claiming either row writes the same row. */
  ghost predicate ClaimAlike(i: Job, j: Job) {
    && KeyOf(i) == KeyOf(j)
    && i.scheduleAt == j.scheduleAt && i.createdAt == j.createdAt
    && (i.status.Pending? || i.status.Scheduled? <==> j.status.Pending? || j.status.Scheduled?)
    && forall worker, now :: SqlClaimed(i, worker, now) == SqlClaimed(j, worker, now)
  }

  ghost predicate TablesAlike(s: State, t: State) {
    s.jobs.Keys == t.jobs.Keys && forall id :: id in s.jobs ==> ClaimAlike(s.jobs[id], t.jobs[id])
  }

  ghost predicate WellShapedRows(s: State) {
    forall id :: id in s.jobs ==> s.jobs[id].WellShaped()
  }

  /** Time passes, the scheduler reads a due job, or it saves one, promoted or published, that is still as it
      was read or saved. */
  ghost predicate Promotes(s: State, e: Event) {
    || e.Tick? || (e.JobRead? && e.change.Promoting?) || e.JobAbandon?
    || (&& e.JobSave? && e.token in s.copies
        && (s.copies[e.token].change.Promoting? || s.copies[e.token].change.Republishing?)
        && Lookup(s, s.copies[e.token].id) == Some(s.copies[e.token].read))
  }

  ghost predicate AllPromote(s: State, es: seq<Event>) {
    es != [] ==> AllPromote(s, es[..|es| - 1]) && Promotes(Run(s, es[..|es| - 1]), es[|es| - 1])
  }

  lemma PromotionStep(s: State, t: State, e: Event)
    requires TablesAlike(s, t) && WellShapedRows(t) && Promotes(t, e)
    ensures TablesAlike(s, Step(t, e)) && WellShapedRows(Step(t, e))
  {
    hide Step, Enabled;
    if e.Tick? {
      StepOfSweep(t, e);
    } else if e.JobSave? && Enabled(t, e) {
      PromotionSaves(t, e);
      if t.copies[e.token].change.Promoting? { PromotedAlike(s, t, t.copies[e.token].id, Step(t, e).jobs); }
    } else {
      PromotionReads(t, e);
    }
  }

  lemma PromotedAlike(s: State, t: State, id: JobId, jobs: map<JobId, Job>)
    requires TablesAlike(s, t) && WellShapedRows(t) && id in t.jobs && t.jobs[id].status.Scheduled?
    requires jobs == t.jobs[id := AsPromoted(t.jobs[id], t.now)]
    ensures forall i :: i in jobs ==> i in s.jobs && ClaimAlike(s.jobs[i], jobs[i]) && jobs[i].WellShaped()
  {
    assert ClaimAlike(s.jobs[id], t.jobs[id]);
  }

  lemma PromotionSaves(s: State, e: Event)
    requires e.JobSave? && Enabled(s, e) && Promotes(s, e)
    ensures
      var id := s.copies[e.token].id;
      && (s.copies[e.token].change.Republishing? ==> Step(s, e).jobs == s.jobs)
      && (s.copies[e.token].change.Promoting? ==>
            && id in s.jobs && s.jobs[id].status.Scheduled?
            && Step(s, e).jobs == s.jobs[id := AsPromoted(s.jobs[id], s.now)])
  {
    hide Step, Enabled, CopiesSaved;
    StepOfSave(s, e);
  }

  lemma PromotionReads(s: State, e: Event)
    requires e.JobRead? || e.JobAbandon? || (e.JobSave? && !Enabled(s, e))
    ensures Step(s, e).jobs == s.jobs
  {
    hide Step, GoesAhead, Without, JobsSaved, CopiesSaved, Enabled;
    if e.JobSave? { StepOfSave(s, e); } else { JobEventFrame(s, e); }
  }

  /** Promotions and the passing of time leave every row's claim-relevant columns alone. */
  lemma {:induction false} PromotionsKeepRows(s: State, es: seq<Event>)
    requires WellShapedRows(s) && AllPromote(s, es)
    ensures TablesAlike(s, Run(s, es)) && WellShapedRows(Run(s, es))
    decreases |es|
  {
    hide Step, Promotes;
    if es != [] {
      PromotionsKeepRows(s, es[..|es| - 1]);
      PromotionStep(s, Run(s, es[..|es| - 1]), es[|es| - 1]);
    }
  }

  /** However often the scheduler has promoted due jobs, losing no update, a claim may select the same rows, and leaves
      the rows it selects the same. */
  lemma {:induction false} PromotionInvisibleToClaims(s: State, es: seq<Event>, key: QueueKey, worker: string,
                                                      limit: int, picked: set<JobId>)
    requires WellShapedRows(s) && AllPromote(s, es)
    ensures
      var promoted, waited := Run(s, es), s.(now := Run(s, es).now);
      var claim := Claim(key, worker, limit, picked);
      && (Enabled(promoted, claim) <==> Enabled(waited, claim))
      && (Enabled(waited, claim) ==>
            forall id :: id in picked ==>
              && id in Step(promoted, claim).jobs && id in Step(waited, claim).jobs
              && Step(promoted, claim).jobs[id] == Step(waited, claim).jobs[id])
  {
    PromotionsKeepRows(s, es);
    var promoted, waited := Run(s, es), s.(now := Run(s, es).now);
    SameClaims(waited, promoted, key, worker, limit, picked);
  }

  lemma SameClaims(s: State, t: State, key: QueueKey, worker: string, limit: int, picked: set<JobId>)
    requires TablesAlike(s, t) && s.now == t.now
    ensures
      var claim := Claim(key, worker, limit, picked);
      && (Enabled(t, claim) <==> Enabled(s, claim))
      && (Enabled(s, claim) ==>
            forall id :: id in picked ==>
              && id in Step(t, claim).jobs && id in Step(s, claim).jobs
              && Step(t, claim).jobs[id] == Step(s, claim).jobs[id])
  {
    hide Step, Enabled, SqlClaimed, Earliest;
    StepOfClaim(s, Claim(key, worker, limit, picked));
    StepOfClaim(t, Claim(key, worker, limit, picked));
    assert Claimable(s, key) == Claimable(t, key);
    forall id | id in s.jobs ensures SortKeyOf(BySchedule, s.jobs[id]) == SortKeyOf(BySchedule, t.jobs[id]) {
      assert ClaimAlike(s.jobs[id], t.jobs[id]);
    }
    SameOrder(s.jobs, t.jobs, Claimable(s, key), limit, picked);
  }

  lemma SameOrder(jobs: map<JobId, Job>, others: map<JobId, Job>, eligible: set<JobId>, limit: int, picked: set<JobId>)
    requires jobs.Keys == others.Keys && eligible <= jobs.Keys
    requires forall id :: id in jobs ==> SortKeyOf(BySchedule, jobs[id]) == SortKeyOf(BySchedule, others[id])
    ensures Earliest(jobs, eligible, BySchedule, LimitOr(limit, CLAIM_LIMIT), picked)
       <==> Earliest(others, eligible, BySchedule, LimitOr(limit, CLAIM_LIMIT), picked)
  {
    hide SortKeyOf, Leq;
  }
}
