/** Fixed-window rate limiting (internal/domain/messaging/backpressure/ratelimit.go).  Times are
    nanoseconds on the monotonic clock. */
module RateLimiter {

  const DEFAULT_WINDOW: int := 1_000_000_000

  /** A limiter's fixed settings, and the window it is counting in. */
  datatype Rate = Rate(limit: int, window: int)
  datatype Window = Window(count: int, start: int)

  predicate Expired(rate: Rate, w: Window, now: int) {
    now - w.start >= rate.window
  }

  predicate Admits(rate: Rate, w: Window, now: int) {
    rate.limit <= 0 || Expired(rate, w, now) || w.count < rate.limit
  }

  function Next(rate: Rate, w: Window, now: int): Window {
    if rate.limit <= 0 || !Admits(rate, w, now) then w
    else if Expired(rate, w, now) then Window(1, now)
    else w.(count := w.count + 1)
  }

  class FixedWindowLimiter {
    const limit: int
    const window: int
    var count: int
    var start: int

    ghost function Settings(): Rate {
      Rate(limit, window)
    }

    ghost function View(): Window
      reads this
    {
      Window(count, start)
    }

    constructor (limit: int, now: int)
      ensures Settings() == Rate(if limit < 0 then 0 else limit, 1_000_000_000)
      ensures View() == Window(0, now)
    {
      this.limit := if limit < 0 then 0 else limit;
      window := DEFAULT_WINDOW;
      count := 0;
      start := now;
    }

    method Allow(now: int) returns (ok: bool)
      modifies this
      ensures ok == Admits(Settings(), old(View()), now)
      ensures View() == Next(Settings(), old(View()), now)
    {
      if limit <= 0 {
        return true;
      }
      if now - start >= window {
        start := now;
        count := 1;
        return true;
      }
      if count >= limit {
        return false;
      }
      count := count + 1;
      return true;
    }
  }

  /** Without a limit every call is admitted and nothing is counted.  With one, a call at the end of the window or
      later is admitted and opens the next window, with itself as its first; a call before it is admitted, and
      counted, exactly if the window has counted fewer than the limit. */
  lemma DecisionMeans(rate: Rate, w: Window, now: int)
    ensures rate.limit <= 0 ==> Admits(rate, w, now) && Next(rate, w, now) == w
    ensures rate.limit > 0 && now >= w.start + rate.window ==>
              Admits(rate, w, now) && Next(rate, w, now) == Window(1, now)
    ensures rate.limit > 0 && now < w.start + rate.window ==>
              && (Admits(rate, w, now) <==> w.count < rate.limit)
              && Next(rate, w, now) == Window(if w.count < rate.limit then w.count + 1 else w.count, w.start)
  {
  }

  // ---- one limiter over a run of calls ----

  /** Call times never run backwards and never precede the limiter's creation. */
  ghost predicate Chronological(created: int, times: seq<int>) {
    && (forall i :: 0 <= i < |times| ==> created <= times[i])
    && (forall i, j :: 0 <= i < j < |times| ==> times[i] <= times[j])
  }

  ghost function After(rate: Rate, created: int, times: seq<int>): Window {
    if times == [] then Window(0, created)
    else
      var last := |times| - 1;
      Next(rate, After(rate, created, times[..last]), times[last])
  }

  ghost predicate AdmittedAt(rate: Rate, created: int, times: seq<int>, i: nat)
    requires i < |times|
  {
    Admits(rate, After(rate, created, times[..i]), times[i])
  }

  /** How many calls of the run were admitted at a time in [lo, hi). */
  ghost function Admissions(rate: Rate, created: int, times: seq<int>, lo: int, hi: int): nat {
    if times == [] then 0
    else
      var last := |times| - 1;
      Admissions(rate, created, times[..last], lo, hi)
      + if AdmittedAt(rate, created, times, last) && lo <= times[last] < hi then 1 else 0
  }

  ghost predicate Proper(rate: Rate) {
    rate.limit > 0 && rate.window > 0
  }

  lemma ChronologicalPrefix(created: int, times: seq<int>)
    requires Chronological(created, times) && times != []
    ensures Chronological(created, times[..|times| - 1])
  {
  }

  lemma {:induction false} WindowShape(rate: Rate, created: int, times: seq<int>)
    requires Proper(rate) && Chronological(created, times)
    ensures
      var w := After(rate, created, times);
      && 0 <= w.count <= rate.limit && created <= w.start
      && (times == [] ==> w.start == created)
      && (times != [] ==> w.start <= times[|times| - 1] < w.start + rate.window)
  {
    if times != [] {
      ChronologicalPrefix(created, times);
      WindowShape(rate, created, times[..|times| - 1]);
    }
  }

  /** The bound one window start puts on the admissions in [a, a + window). */
  ghost function Ceiling(rate: Rate, w: Window, a: int): int {
    if w.start <= a then w.count
    else if w.start < a + rate.window then rate.limit + w.count
    else 2 * rate.limit
  }

  lemma {:induction false} CeilingHolds(rate: Rate, created: int, times: seq<int>, a: int)
    requires Proper(rate) && Chronological(created, times)
    ensures
      var w := After(rate, created, times);
      var n := Admissions(rate, created, times, a, a + rate.window);
      n <= Ceiling(rate, w, a) && (n > 0 ==> a < w.start + rate.window)
  {
    WindowShape(rate, created, times);
    if times != [] {
      var init := times[..|times| - 1];
      ChronologicalPrefix(created, times);
      WindowShape(rate, created, init);
      CeilingHolds(rate, created, init, a);
    }
  }

  /** No stretch of one window's length sees more than twice the limit. */
  lemma WindowBound(rate: Rate, created: int, times: seq<int>, a: int)
    requires Proper(rate) && Chronological(created, times)
    ensures Admissions(rate, created, times, a, a + rate.window) <= 2 * rate.limit
  {
    CeilingHolds(rate, created, times, a);
    WindowShape(rate, created, times);
  }

  /** `m` calls at the end of the first window, then `n` at its expiry. */
  ghost function Burst(rate: Rate, created: int, m: nat, n: nat): (times: seq<int>)
    ensures |times| == m + n
  {
    var end := created + rate.window;
    seq(m + n, i => if i < m then end - 1 else end)
  }

  lemma {:induction false} BurstIsAdmitted(rate: Rate, created: int, m: nat, n: nat)
    requires Proper(rate) && m <= rate.limit && n <= rate.limit && (n > 0 ==> m == rate.limit)
    ensures
      var times, end := Burst(rate, created, m, n), created + rate.window;
      && After(rate, created, times) == (if n == 0 then Window(m, created) else Window(n, end))
      && Admissions(rate, created, times, end - 1, end - 1 + rate.window)
         == m + if rate.window > 1 then n else 0
  {
    var times := Burst(rate, created, m, n);
    if n > 0 {
      assert times[..m + n - 1] == Burst(rate, created, m, n - 1);
      BurstIsAdmitted(rate, created, m, n - 1);
    } else if m > 0 {
      assert times[..m - 1] == Burst(rate, created, m - 1, 0);
      BurstIsAdmitted(rate, created, m - 1, 0);
    }
  }

  /** The bound of twice the limit is reached: a full window's end and the next one's start. */
  lemma WindowBoundIsReached(rate: Rate, created: int) returns (times: seq<int>, a: int)
    requires Proper(rate) && rate.window > 1
    ensures Chronological(created, times)
    ensures Admissions(rate, created, times, a, a + rate.window) == 2 * rate.limit
  {
    times, a := Burst(rate, created, rate.limit, rate.limit), created + rate.window - 1;
    BurstIsAdmitted(rate, created, rate.limit, rate.limit);
  }

  /** How many times the window was restarted. */
  ghost function Restarts(rate: Rate, created: int, times: seq<int>): nat {
    if times == [] then 0
    else
      var init, now := times[..|times| - 1], times[|times| - 1];
      Restarts(rate, created, init) + if Expired(rate, After(rate, created, init), now) then 1 else 0
  }

  lemma {:induction false} RestartsAreSpaced(rate: Rate, created: int, times: seq<int>)
    requires Proper(rate) && Chronological(created, times)
    ensures created + Restarts(rate, created, times) * rate.window <= After(rate, created, times).start
  {
    if times != [] {
      ChronologicalPrefix(created, times);
      RestartsAreSpaced(rate, created, times[..|times| - 1]);
      assert (Restarts(rate, created, times[..|times| - 1]) + 1) * rate.window
          == Restarts(rate, created, times[..|times| - 1]) * rate.window + rate.window;
    }
  }

  lemma {:induction false} EachWindowFills(rate: Rate, created: int, times: seq<int>, lo: int, hi: int)
    requires Proper(rate) && Chronological(created, times)
    ensures Admissions(rate, created, times, lo, hi)
            <= rate.limit * Restarts(rate, created, times) + After(rate, created, times).count
  {
    if times != [] {
      var init := times[..|times| - 1];
      ChronologicalPrefix(created, times);
      EachWindowFills(rate, created, init, lo, hi);
      WindowShape(rate, created, init);
      assert rate.limit * (Restarts(rate, created, init) + 1)
          == rate.limit * Restarts(rate, created, init) + rate.limit;
    }
  }

  lemma QuotientBound(k: int, m: int, x: int)
    requires m > 0 && k * m <= x
    ensures k <= x / m
  {
    var q, r := x / m, x % m;
    assert x == m * q + r;
    assert k > q ==> k * m >= (q + 1) * m == m * q + m;
  }

  /** From its creation up to time `now` a limiter admits at most the limit once for every window
      begun. */
  lemma RunBound(rate: Rate, created: int, times: seq<int>, now: int, lo: int, hi: int)
    requires Proper(rate) && Chronological(created, times) && created <= now
    requires times != [] ==> times[|times| - 1] <= now
    ensures Admissions(rate, created, times, lo, hi)
            <= rate.limit * ((now - created) / rate.window + 1)
  {
    EachWindowFills(rate, created, times, lo, hi);
    RestartsAreSpaced(rate, created, times);
    WindowShape(rate, created, times);
    QuotientBound(Restarts(rate, created, times), rate.window, now - created);
    Scaled(rate.limit, Restarts(rate, created, times), (now - created) / rate.window);
  }

  lemma Scaled(m: int, a: int, b: int)
    requires m > 0 && a <= b
    ensures m * a + m <= m * (b + 1)
  {
  }

  /** The window counts exactly the admissions since it started, and none fall beyond its end. */
  lemma {:induction false} CountIsExact(rate: Rate, created: int, times: seq<int>, lo: int, hi: int)
    requires Proper(rate) && Chronological(created, times)
    ensures
      var w := After(rate, created, times);
      && (lo == w.start && hi >= w.start + rate.window
          ==> Admissions(rate, created, times, lo, hi) == w.count)
      && (lo >= w.start + rate.window ==> Admissions(rate, created, times, lo, hi) == 0)
  {
    if times != [] {
      var init := times[..|times| - 1];
      ChronologicalPrefix(created, times);
      WindowShape(rate, created, init);
      WindowShape(rate, created, times);
      CountIsExact(rate, created, init, lo, hi);
    }
  }

  /** A call is refused exactly when a window no longer than `rate.window`, still open at the call,
      has already seen the limit. */
  lemma RefusedIff(rate: Rate, created: int, times: seq<int>, i: nat)
    requires Proper(rate) && Chronological(created, times) && i < |times|
    ensures
      var start := After(rate, created, times[..i]).start;
      !AdmittedAt(rate, created, times, i) <==>
      && times[i] < start + rate.window
      && Admissions(rate, created, times[..i], start, start + rate.window) == rate.limit
  {
    var start := After(rate, created, times[..i]).start;
    WindowShape(rate, created, times[..i]);
    CountIsExact(rate, created, times[..i], start, start + rate.window);
  }

  lemma {:induction false} AdmissionsWithin(rate: Rate, created: int, times: seq<int>,
                                            lo: int, hi: int, lo': int, hi': int)
    requires lo' <= lo && forall i :: 0 <= i < |times| ==> times[i] < hi ==> times[i] < hi'
    ensures Admissions(rate, created, times, lo, hi) <= Admissions(rate, created, times, lo', hi')
  {
    if times != [] {
      AdmissionsWithin(rate, created, times[..|times| - 1], lo, hi, lo', hi');
    }
  }

  /** A caller with fewer admissions than the limit in the last window's length is never refused. */
  lemma UnderTheLimitIsAdmitted(rate: Rate, created: int, times: seq<int>, i: nat)
    requires Proper(rate) && Chronological(created, times) && i < |times|
    requires Admissions(rate, created, times[..i], times[i] - rate.window + 1, times[i] + 1) < rate.limit
    ensures AdmittedAt(rate, created, times, i)
  {
    var start := After(rate, created, times[..i]).start;
    RefusedIff(rate, created, times, i);
    if times[i] < start + rate.window {
      AdmissionsWithin(rate, created, times[..i], start, start + rate.window,
                       times[i] - rate.window + 1, times[i] + 1);
    }
  }

  // ---- one limiter per project ----

  datatype Limiter = Limiter(rate: Rate, window: Window)

  /** One call, with the clock as read when a limiter is made and when it decides. */
  datatype Call = Call(project: int, limit: int, made: int, now: int)

  type Limiters = map<int, Limiter>

  /** The limiter that serves the call: a missing one, or one with another limit, is replaced. */
  function Serving(limiters: Limiters, call: Call): Limiter {
    if call.project in limiters && limiters[call.project].rate.limit == call.limit
    then limiters[call.project]
    else Limiter(Rate(call.limit, DEFAULT_WINDOW), Window(0, call.made))
  }

  predicate Allowed(limiters: Limiters, call: Call) {
    call.limit <= 0 || Admits(Serving(limiters, call).rate, Serving(limiters, call).window, call.now)
  }

  function Serve(limiters: Limiters, call: Call): Limiters {
    if call.limit <= 0 then limiters
    else
      var l := Serving(limiters, call);
      limiters[call.project := l.(window := Next(l.rate, l.window, call.now))]
  }

  /** A call without a limit is admitted and leaves no trace.  A project's first call, and its first with another
      limit, is admitted by a new limiter, which counts it; any other is decided by the limiter there is.  No call
      touches another project's limiter. */
  lemma ServeMeans(limiters: Limiters, call: Call)
    ensures call.limit <= 0 ==> Allowed(limiters, call) && Serve(limiters, call) == limiters
    ensures call.limit > 0 ==>
              var after := Serve(limiters, call);
              var known := call.project in limiters && limiters[call.project].rate.limit == call.limit;
              && after.Keys == limiters.Keys + {call.project}
              && (forall p :: p in limiters && p != call.project ==> after[p] == limiters[p])
              && (!known ==>
                    && Allowed(limiters, call) && after[call.project].rate == Rate(call.limit, 1_000_000_000)
                    && after[call.project].window
                       == Window(1, if call.now - call.made >= 1_000_000_000 then call.now else call.made))
              && (known ==>
                    var w, r := limiters[call.project].window, limiters[call.project].rate;
                    && (Allowed(limiters, call) <==> call.now - w.start >= r.window || w.count < r.limit)
                    && after[call.project].rate == r
                    && after[call.project].window ==
                       if call.now - w.start >= r.window then Window(1, call.now)
                       else if w.count < r.limit then Window(w.count + 1, w.start) else w)
  {
  }

  class ProjectLimiter {
    var limiters: map<int, FixedWindowLimiter>

    /** No two projects share a limiter. */
    ghost predicate Valid()
      reads this
    {
      forall p, q :: p in limiters && q in limiters && p != q ==> limiters[p] != limiters[q]
    }

    ghost function View(): Limiters
      reads this, limiters.Values
    {
      map p | p in limiters :: Limiter(limiters[p].Settings(), limiters[p].View())
    }

    constructor ()
      ensures Valid() && View() == map[] && limiters == map[]
    {
      limiters := map[];
    }

    method Allow(project: int, limit: int, made: int, now: int) returns (ok: bool)
      requires Valid()
      modifies this, limiters.Values
      ensures Valid() && fresh(limiters.Values - old(limiters.Values))
      ensures ok == Allowed(old(View()), Call(project, limit, made, now))
      ensures View() == Serve(old(View()), Call(project, limit, made, now))
    {
      if limit <= 0 {
        return true;
      }
      if project !in limiters || limiters[project].limit != limit {
        var limiter := new FixedWindowLimiter(limit, made);
        limiters := limiters[project := limiter];
      }
      label Ready:
      assert View() == old(View())[project := Serving(old(View()), Call(project, limit, made, now))];
      ok := limiters[project].Allow(now);
      assert forall p :: p in limiters && p != project ==>
               limiters[p].View() == old@Ready(limiters[p].View());
    }
  }

  ghost function ServeAll(calls: seq<Call>): Limiters {
    if calls == [] then map[]
    else Serve(ServeAll(calls[..|calls| - 1]), calls[|calls| - 1])
  }

  /** The calls for one project, in order. */
  ghost function CallsOf(calls: seq<Call>, project: int): (own: seq<Call>)
    ensures forall i :: 0 <= i < |own| ==> own[i].project == project && own[i] in calls
  {
    if calls == [] then []
    else
      var last := |calls| - 1;
      CallsOf(calls[..last], project) + if calls[last].project == project then [calls[last]] else []
  }

  /** The answers a project's own calls get in a run of everybody's. */
  ghost function Answers(calls: seq<Call>, project: int): seq<bool> {
    if calls == [] then []
    else
      var last := |calls| - 1;
      Answers(calls[..last], project)
      + if calls[last].project == project then [Allowed(ServeAll(calls[..last]), calls[last])] else []
  }

  ghost function LimiterOf(limiters: Limiters, project: int): set<Limiter> {
    if project in limiters then {limiters[project]} else {}
  }

  /** Other projects' calls change neither a project's limiter nor any answer it gets. */
  lemma {:induction false} ProjectsAreIsolated(calls: seq<Call>, project: int)
    ensures LimiterOf(ServeAll(calls), project) == LimiterOf(ServeAll(CallsOf(calls, project)), project)
    ensures Answers(calls, project) == Answers(CallsOf(calls, project), project)
  {
    if calls != [] {
      var init, last := calls[..|calls| - 1], calls[|calls| - 1];
      ProjectsAreIsolated(init, project);
      var own := CallsOf(init, project);
      if last.project == project {
        assert (own + [last])[..|own|] == own;
        SameLimiter(ServeAll(init), ServeAll(own), last);
      } else {
        assert CallsOf(calls, project) == own;
      }
    }
  }

  lemma SameLimiter(l: Limiters, m: Limiters, call: Call)
    requires LimiterOf(l, call.project) == LimiterOf(m, call.project)
    ensures Allowed(l, call) == Allowed(m, call)
    ensures LimiterOf(Serve(l, call), call.project) == LimiterOf(Serve(m, call), call.project)
  {
    var p := call.project;
    assert p in l ==> l[p] in LimiterOf(m, p);
    assert p in m ==> m[p] in LimiterOf(l, p);
  }

  ghost function Times(calls: seq<Call>): (times: seq<int>)
    ensures |times| == |calls|
  {
    seq(|calls|, i requires 0 <= i < |calls| => calls[i].now)
  }

  /** With one positive limit throughout, a project's calls run one limiter made at the first. */
  lemma {:induction false} OneLimiter(calls: seq<Call>, project: int, limit: int)
    requires calls != [] && limit > 0
    requires forall i :: 0 <= i < |calls| ==> calls[i].project == project && calls[i].limit == limit
    ensures
      var rate := Rate(limit, DEFAULT_WINDOW);
      && project in ServeAll(calls)
      && ServeAll(calls)[project] == Limiter(rate, After(rate, calls[0].made, Times(calls)))
      && |Answers(calls, project)| == |calls|
      && forall i :: 0 <= i < |calls| ==>
           Answers(calls, project)[i] == AdmittedAt(rate, calls[0].made, Times(calls), i)
  {
    var rate, made := Rate(limit, DEFAULT_WINDOW), calls[0].made;
    var init := calls[..|calls| - 1];
    assert Times(calls)[..|init|] == Times(init);
    if init != [] {
      OneLimiter(init, project, limit);
      forall i | 0 <= i < |init|
        ensures AdmittedAt(rate, made, Times(calls), i) == AdmittedAt(rate, made, Times(init), i)
      {
        assert Times(calls)[..i] == Times(init)[..i];
      }
    } else {
      assert ServeAll(init) == map[] && Answers(init, project) == [];
    }
  }

  /** How many answers were yes to calls made at a time in [lo, hi). */
  ghost function Yes(answers: seq<bool>, times: seq<int>, lo: int, hi: int): nat
    requires |answers| == |times|
  {
    if answers == [] then 0
    else
      var last := |answers| - 1;
      Yes(answers[..last], times[..last], lo, hi) + if answers[last] && lo <= times[last] < hi then 1 else 0
  }

  lemma {:induction false} YesIsAdmissions(rate: Rate, created: int, answers: seq<bool>, times: seq<int>,
                                           lo: int, hi: int)
    requires |answers| == |times|
    requires forall i :: 0 <= i < |times| ==> answers[i] == AdmittedAt(rate, created, times, i)
    ensures Yes(answers, times, lo, hi) == Admissions(rate, created, times, lo, hi)
  {
    if times != [] {
      var last := |times| - 1;
      forall i | 0 <= i < last
        ensures AdmittedAt(rate, created, times[..last], i) == AdmittedAt(rate, created, times, i)
      {
        assert times[..last][..i] == times[..i];
      }
      YesIsAdmissions(rate, created, answers[..last], times[..last], lo, hi);
    }
  }

  /** Calls are decided one after another by a clock that never runs backwards. */
  ghost predicate InOrder(calls: seq<Call>) {
    && (forall i :: 0 <= i < |calls| ==> calls[i].made <= calls[i].now)
    && (forall i, j :: 0 <= i < j < |calls| ==> calls[i].now <= calls[j].made)
  }

  /** Whatever the other projects do, a project whose limit stays the same is never admitted more
      than twice its limit in one second. */
  lemma ProjectBound(calls: seq<Call>, project: int, limit: int, a: int)
    requires limit > 0 && InOrder(calls)
    requires forall i :: 0 <= i < |calls| && calls[i].project == project ==> calls[i].limit == limit
    ensures |Answers(calls, project)| == |CallsOf(calls, project)|
    ensures Yes(Answers(calls, project), Times(CallsOf(calls, project)), a, a + DEFAULT_WINDOW) <= 2 * limit
  {
    var own := CallsOf(calls, project);
    ProjectsAreIsolated(calls, project);
    if own != [] {
      var rate := Rate(limit, DEFAULT_WINDOW);
      OneLimiter(own, project, limit);
      OwnCallsInOrder(calls, project);
      InOrderIsChronological(own);
      YesIsAdmissions(rate, own[0].made, Answers(own, project), Times(own), a, a + DEFAULT_WINDOW);
      WindowBound(rate, own[0].made, Times(own), a);
    }
  }

  lemma {:induction false} OwnCallsInOrder(calls: seq<Call>, project: int)
    requires InOrder(calls)
    ensures InOrder(CallsOf(calls, project))
  {
    if calls != [] {
      var init, last := calls[..|calls| - 1], calls[|calls| - 1];
      OwnCallsInOrder(init, project);
      var own := CallsOf(init, project);
      forall i | 0 <= i < |own| ensures own[i].now <= last.made {
        assert own[i] in init;
      }
    }
  }

  lemma InOrderIsChronological(calls: seq<Call>)
    requires InOrder(calls) && calls != []
    ensures Chronological(calls[0].made, Times(calls))
  {
    forall i | 0 <= i < |calls| ensures calls[0].made <= Times(calls)[i] {
      assert i > 0 ==> calls[0].now <= calls[i].made;
    }
    forall i, j | 0 <= i < j < |calls| ensures Times(calls)[i] <= Times(calls)[j] {
      assert calls[i].now <= calls[j].made;
    }
  }
}
