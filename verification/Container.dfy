/** The dependency container (internal/bootstrap/container/container.go).

    A factory is the list of types it resolves, in order, and whether what it makes is a lifecycle
    service; it fails only when a dependency does. */
module Container {
  import opened Wrappers

  type Type = string

  datatype Factory = Factory(deps: seq<Type>, lifecycle: bool)
  type Factories = map<Type, Factory>

  datatype Result = Ok | Circular(on: Type) | Missing(of: Type)

  // ---- the dependency graph ----

  /** `path` follows dependencies; it goes on only from types that still have to be built. */
  ghost predicate Chain(factories: Factories, built: set<Type>, path: seq<Type>) {
    path != []
    && forall i :: 0 <= i < |path| - 1 ==>
         path[i] !in built && path[i] in factories && path[i + 1] in factories[path[i]].deps
  }

  /** The path ends where nothing can be built: at a type without a factory, or back at a type it has
      already passed. */
  ghost predicate DeadEnd(factories: Factories, built: set<Type>, path: seq<Type>)
    requires path != []
  {
    var last := path[|path| - 1];
    last !in built && (last !in factories || last in path[..|path| - 1])
  }

  /** A missing factory or a cycle can be reached from `start`. */
  ghost predicate Broken(factories: Factories, built: set<Type>, start: Type) {
    exists path :: Chain(factories, built, path) && path[0] == start && DeadEnd(factories, built, path)
  }

  ghost function Elements(s: seq<Type>): (e: set<Type>) {
    set x | x in s
  }

  ghost predicate Distinct(s: seq<Type>) {
    forall i, j :: 0 <= i < j < |s| ==> s[i] != s[j]
  }

  /** Every type of `added` has a factory all of whose dependencies were built before it. */
  ghost predicate BuiltInOrder(factories: Factories, built: set<Type>, added: seq<Type>) {
    forall i :: 0 <= i < |added| ==>
      && added[i] !in built && added[i] in factories
      && forall d :: d in factories[added[i]].deps ==> d in built || d in added[..i]
  }

  /** What an ordered build reaches holds neither a cycle nor a missing factory. */
  lemma OrderedBuildIsSound(factories: Factories, built: set<Type>, added: seq<Type>, start: Type)
    requires BuiltInOrder(factories, built, added) && Distinct(added)
    requires start in built || start in added
    ensures !Broken(factories, built, start)
  {
    forall path | Chain(factories, built, path) && path[0] == start
      ensures !DeadEnd(factories, built, path)
    {
      var n := |path| - 1;
      if path[n] !in built {
        ChainDescends(factories, built, added, path, 0, n);
        if path[n] in path[..n] {
          var i :| 0 <= i < n && path[i] == path[n];
          ChainDescends(factories, built, added, path, 0, i);
          ChainDescends(factories, built, added, path, i, n);
          assert false;
        }
      }
    }
  }

  /** Along a chain the build positions strictly fall. */
  lemma {:induction false} ChainDescends(factories: Factories, built: set<Type>, added: seq<Type>,
                                         path: seq<Type>, i: nat, n: nat)
    requires BuiltInOrder(factories, built, added) && Distinct(added)
    requires Chain(factories, built, path) && i <= n < |path|
    requires (path[i] in added || path[i] in built) && path[n] !in built
    ensures path[i] in added && path[n] in added
    ensures i < n ==> forall k, m :: 0 <= k < |added| && 0 <= m < |added| && added[k] == path[i] && added[m] == path[n]
                                     ==> m < k
    decreases n - i
  {
    if i < n {
      var k :| 0 <= k < |added| && added[k] == path[i];
      assert path[i + 1] in built || path[i + 1] in added[..k];
      ChainDescends(factories, built, added, path, i + 1, n);
      assert path[i + 1] in added[..k];
    }
  }

  // ---- dependencies between built services ----

  /** The order services were built in, what each was wired to, and the instances handed in. */
  datatype Build = Build(order: seq<Type>, wiring: map<Type, seq<Type>>, given: set<Type>)

  /** A service is wired to handed-in instances and to services built strictly before it. */
  ghost predicate WellBuilt(b: Build) {
    && Distinct(b.order)
    && (forall t :: t in b.order <==> t in b.wiring)
    && (forall i, d :: 0 <= i < |b.order| && d in b.wiring[b.order[i]] ==> d in b.given || d in b.order)
    && (forall i, k :: 0 <= i <= k < |b.order| ==> b.order[k] !in b.wiring[b.order[i]])
  }

  ghost predicate DependsVia(b: Build, path: seq<Type>) {
    && |path| > 1
    && (forall i :: 0 <= i < |path| ==> path[i] in b.wiring)
    && (forall i :: 0 <= i < |path| - 1 ==> path[i + 1] in b.wiring[path[i]])
  }

  /** A service is built after every service it depends on, directly or not. */
  lemma {:induction false} DependenciesFirst(b: Build, path: seq<Type>, i: nat, j: nat)
    requires WellBuilt(b) && DependsVia(b, path)
    requires i < |b.order| && j < |b.order| && b.order[i] == path[0] && b.order[j] == path[|path| - 1]
    ensures j < i
    decreases |path|
  {
    var k :| 0 <= k < |b.order| && b.order[k] == path[1];
    assert path[1] in b.wiring[b.order[i]];
    if |path| > 2 {
      DependenciesFirst(b, path[1..], k, j);
    }
  }

  ghost function Reversed(s: seq<Type>): (r: seq<Type>)
    ensures |r| == |s|
    ensures forall i :: 0 <= i < |s| ==> r[i] == s[|s| - 1 - i]
  {
    if s == [] then [] else Reversed(s[1..]) + [s[0]]
  }

  /** The lifecycle services among the built ones, in build order. */
  ghost function Hooked(order: seq<Type>, lifecycle: set<Type>): seq<Type>
  {
    if order == [] then []
    else
      var last := |order| - 1;
      Hooked(order[..last], lifecycle) + if order[last] in lifecycle then [order[last]] else []
  }

  lemma {:induction false} HookedMembers(order: seq<Type>, lifecycle: set<Type>, t: Type)
    ensures t in Hooked(order, lifecycle) <==> t in order && t in lifecycle
  {
    if order != [] {
      HookedMembers(order[..|order| - 1], lifecycle, t);
    }
  }

  /** Positions among the lifecycle services follow build positions. */
  lemma {:induction false} HookedKeepsOrder(order: seq<Type>, lifecycle: set<Type>, p: nat, q: nat)
    requires p < q < |Hooked(order, lifecycle)|
    ensures exists i, j :: 0 <= i < j < |order|
                           && order[i] == Hooked(order, lifecycle)[p] && order[j] == Hooked(order, lifecycle)[q]
  {
    var last := |order| - 1;
    var rest := Hooked(order[..last], lifecycle);
    if q < |rest| {
      HookedKeepsOrder(order[..last], lifecycle, p, q);
      var i, j :| 0 <= i < j < last && order[..last][i] == rest[p] && order[..last][j] == rest[q];
      assert order[i] == rest[p] && order[j] == rest[q];
    } else {
      HookedMembers(order[..last], lifecycle, rest[p]);
      var i :| 0 <= i < last && order[..last][i] == rest[p];
      assert order[i] == rest[p] && order[last] == Hooked(order, lifecycle)[q];
    }
  }

  /** Shutting down in reverse, a service always goes before the services it depends on. */
  lemma ShutdownOrder(b: Build, lifecycle: set<Type>, path: seq<Type>, p: nat, q: nat)
    requires WellBuilt(b) && DependsVia(b, path)
    requires
      var visits := Reversed(Hooked(b.order, lifecycle));
      p < |visits| && q < |visits| && visits[p] == path[0] && visits[q] == path[|path| - 1]
    ensures p < q
  {
    var hooked := Hooked(b.order, lifecycle);
    var p', q' := |hooked| - 1 - p, |hooked| - 1 - q;
    if p' <= q' {
      if p' < q' {
        HookedKeepsOrder(b.order, lifecycle, p', q');
        var i, j :| 0 <= i < j < |b.order| && b.order[i] == hooked[p'] && b.order[j] == hooked[q'];
        DependenciesFirst(b, path, i, j);
      } else {
        HookedMembers(b.order, lifecycle, hooked[p']);
        var i :| 0 <= i < |b.order| && b.order[i] == hooked[p'];
        DependenciesFirst(b, path, i, i);
      }
      assert false;
    }
  }

  /** The last visited service whose Shutdown fails. */
  ghost function LastFailing(visited: seq<Type>, fails: set<Type>): (last: Option<Type>)
    ensures last.None? <==> forall t :: t in visited ==> t !in fails
    ensures last.Some? ==> last.value in visited && last.value in fails
  {
    if visited == [] then None
    else if visited[|visited| - 1] in fails then Some(visited[|visited| - 1])
    else LastFailing(visited[..|visited| - 1], fails)
  }

  // ---- how a resolution changes what is built ----

  ghost function Built(b: Build): set<Type> {
    Elements(b.order) + b.given
  }

  /** Going from `b` to `c` built `added`, each type after its dependencies, and changed nothing else. */
  ghost predicate Grown(factories: Factories, b: Build, c: Build, added: seq<Type>) {
    && c.order == b.order + added && c.given == b.given
    && (forall t :: t in b.wiring ==> t in c.wiring && c.wiring[t] == b.wiring[t])
    && (forall t :: t in added ==> t in factories && t in c.wiring && c.wiring[t] == factories[t].deps)
    && BuiltInOrder(factories, Built(b), added)
  }

  lemma BuiltGrows(factories: Factories, b: Build, c: Build, added: seq<Type>)
    requires Grown(factories, b, c, added)
    ensures Built(c) == Built(b) + Elements(added)
    ensures Distinct(c.order) ==> Distinct(added)
  {
    assert forall i :: 0 <= i < |added| ==> added[i] == c.order[|b.order| + i];
  }

  lemma GrownByNone(factories: Factories, b: Build)
    ensures Grown(factories, b, b, [])
  {
  }

  lemma GrownTwice(factories: Factories, b: Build, c: Build, d: Build, added: seq<Type>, more: seq<Type>)
    requires Grown(factories, b, c, added) && Grown(factories, c, d, more)
    ensures Grown(factories, b, d, added + more)
  {
    var all := added + more;
    assert b.order + all == (b.order + added) + more;
    forall i | 0 <= i < |all|
      ensures all[i] !in Built(b) && all[i] in factories
      ensures forall x :: x in factories[all[i]].deps ==> x in Built(b) || x in all[..i]
    {
      if i < |added| {
        assert all[..i] == added[..i];
      } else {
        assert all[..i] == added + more[..i - |added|];
      }
    }
  }

  ghost function Add(factories: Factories, b: Build, t: Type): Build
    requires t in factories
  {
    Build(b.order + [t], b.wiring[t := factories[t].deps], b.given)
  }

  /** Wiring `t` to dependencies that are all there. */
  lemma GrownByOne(factories: Factories, b: Build, t: Type)
    requires WellBuilt(b) && t in factories && t !in Built(b)
    requires forall d :: d in factories[t].deps ==> d in Built(b)
    ensures
      var c := Add(factories, b, t);
      WellBuilt(c) && Grown(factories, b, c, [t]) && Built(c) == Built(b) + {t}
  {
    var c := Add(factories, b, t);
    forall i, k | 0 <= i <= k < |c.order| ensures c.order[k] !in c.wiring[c.order[i]] {
      if i < |b.order| && k == |b.order| {
        assert t in b.wiring[b.order[i]] ==> t in Built(b);
      }
    }
  }

  lemma HookedSnoc(order: seq<Type>, lifecycle: set<Type>, t: Type)
    requires t !in order && lifecycle <= Elements(order)
    ensures Hooked(order + [t], lifecycle) == Hooked(order, lifecycle)
    ensures Hooked(order + [t], lifecycle + {t}) == Hooked(order, lifecycle) + [t]
  {
    assert (order + [t])[..|order|] == order;
    HookedWithout(order, lifecycle, t);
  }

  lemma {:induction false} HookedWithout(order: seq<Type>, lifecycle: set<Type>, t: Type)
    requires t !in order
    ensures Hooked(order, lifecycle + {t}) == Hooked(order, lifecycle)
  {
    if order != [] {
      HookedWithout(order[..|order| - 1], lifecycle, t);
    }
  }

  ghost predicate Sound(b: Build, lifecycle: set<Type>, services: set<Type>, hooked: seq<Type>) {
    && WellBuilt(b)
    && services == Built(b)
    && hooked == Hooked(b.order, lifecycle)
    && lifecycle <= Elements(b.order)
  }

  lemma StoreKeeps(factories: Factories, b: Build, lifecycle: set<Type>, services: set<Type>,
                   hooked: seq<Type>, t: Type)
    requires Sound(b, lifecycle, services, hooked) && t in factories && t !in services
    requires forall d :: d in factories[t].deps ==> d in services
    ensures
      var c := Add(factories, b, t);
      && Grown(factories, b, c, [t])
      && Sound(c, lifecycle, services + {t}, hooked)
      && Sound(c, lifecycle + {t}, services + {t}, hooked + [t])
  {
    GrownByOne(factories, b, t);
    HookedSnoc(b.order, lifecycle, t);
  }

  // ---- requests under way ----

  /** The types being initialized are the path `stack` that leads to the current request. */
  ghost predicate Resolving(factories: Factories, built: set<Type>, initializing: set<Type>, stack: seq<Type>) {
    && initializing == Elements(stack)
    && (stack != [] ==> Chain(factories, built, stack))
    && forall t :: t in stack ==> t !in built && t in factories
  }

  /** `t` is asked for by the request on top of `stack`. */
  ghost predicate Asked(factories: Factories, stack: seq<Type>, t: Type) {
    stack != [] ==> stack[|stack| - 1] in factories && t in factories[stack[|stack| - 1]].deps
  }

  /** `path` continues `stack` through `t` to the dead end that `result` reports. */
  ghost predicate Explains(factories: Factories, built: set<Type>, result: Result, stack: seq<Type>, t: Type,
                           path: seq<Type>)
  {
    && |stack| < |path| && path[..|stack|] == stack && path[|stack|] == t
    && Chain(factories, built, path) && DeadEnd(factories, built, path)
    && match result
       case Ok => false
       case Circular(on) => on == path[|path| - 1] && on in factories
       case Missing(of) => of == path[|path| - 1] && of !in factories
  }

  lemma Push(factories: Factories, built: set<Type>, initializing: set<Type>, stack: seq<Type>, t: Type)
    requires Resolving(factories, built, initializing, stack) && Asked(factories, stack, t)
    requires t !in built && t in factories && t !in initializing
    ensures Resolving(factories, built, initializing + {t}, stack + [t]) && initializing == Elements(stack)
    ensures forall d :: d in factories[t].deps ==> Asked(factories, stack + [t], d)
  {
  }

  lemma Pop(factories: Factories, built: set<Type>, initializing: set<Type>, stack: seq<Type>, t: Type)
    requires Resolving(factories, built, initializing + {t}, stack + [t]) && t !in initializing
    requires initializing == Elements(stack)
    ensures t !in built
    ensures Resolving(factories, built, initializing, stack)
    ensures Resolving(factories, built + {t}, initializing, stack)
  {
    var s := stack + [t];
    assert forall i :: 0 <= i < |stack| ==> stack[i] == s[i];
  }

  lemma Refused(factories: Factories, built: set<Type>, initializing: set<Type>, stack: seq<Type>, t: Type)
    requires Resolving(factories, built, initializing, stack) && Asked(factories, stack, t)
    requires t !in built
    ensures t in initializing ==> Explains(factories, built, Circular(t), stack, t, stack + [t])
    ensures t !in factories ==> Explains(factories, built, Missing(t), stack, t, stack + [t])
  {
    var path := stack + [t];
    assert path[..|stack|] == stack;
    assert Chain(factories, built, path);
  }

  /** A dead end below `t` is one from `t` on, seen with the services there were before. */
  lemma Deeper(factories: Factories, built: set<Type>, fewer: set<Type>, result: Result, stack: seq<Type>,
               t: Type, d: Type, path: seq<Type>)
    requires fewer <= built && Explains(factories, built, result, stack + [t], d, path)
    ensures Explains(factories, fewer, result, stack, t, path)
  {
    assert path[..|stack|] == path[..|stack| + 1][..|stack|];
    assert path[|stack|] == path[..|stack| + 1][|stack|];
  }

  // ---- the order of the visit ----

  /** What a depth-first visit from `t` reports and builds: dependencies in the order the factory asks for them, up to
      the first failure, and then `t` itself; `busy` are the types being visited. */
  ghost function Visit(factories: Factories, built: set<Type>, busy: set<Type>, t: Type): (Result, seq<Type>)
    decreases factories.Keys - busy, 0
  {
    if t in built then (Ok, [])
    else if t in busy then (Circular(t), [])
    else if t !in factories then (Missing(t), [])
    else
      var deps := VisitAll(factories, built, busy + {t}, factories[t].deps);
      if deps.0.Ok? then (Ok, deps.1 + [t]) else deps
  }

  ghost function VisitAll(factories: Factories, built: set<Type>, busy: set<Type>, deps: seq<Type>): (Result, seq<Type>)
    decreases factories.Keys - busy, 1 + |deps|
  {
    if deps == [] then (Ok, [])
    else
      var first := Visit(factories, built, busy, deps[0]);
      if !first.0.Ok? then first
      else
        var rest := VisitAll(factories, built + Elements(first.1), busy, deps[1..]);
        (rest.0, first.1 + rest.1)
  }

  /** The visit of the dependencies from the `i`-th on, `added` having been built for those before. */
  ghost predicate VisitedUpTo(factories: Factories, built: set<Type>, busy: set<Type>, deps: seq<Type>, i: nat,
                              added: seq<Type>)
    requires i <= |deps|
  {
    var rest := VisitAll(factories, built + Elements(added), busy, deps[i..]);
    VisitAll(factories, built, busy, deps) == (rest.0, added + rest.1)
  }

  lemma VisitStarts(factories: Factories, built: set<Type>, busy: set<Type>, deps: seq<Type>)
    ensures VisitedUpTo(factories, built, busy, deps, 0, [])
  {
    hide VisitAll;
    assert built + Elements([]) == built && deps[0..] == deps;
    var rest := VisitAll(factories, built, busy, deps);
    assert [] + rest.1 == rest.1;
  }

  lemma VisitGoesOn(factories: Factories, built: set<Type>, busy: set<Type>, deps: seq<Type>, i: nat, added: seq<Type>,
                    result: Result, more: seq<Type>)
    requires i < |deps| && VisitedUpTo(factories, built, busy, deps, i, added)
    requires (result, more) == Visit(factories, built + Elements(added), busy, deps[i])
    ensures result.Ok? ==> VisitedUpTo(factories, built, busy, deps, i + 1, added + more)
    ensures !result.Ok? ==> VisitAll(factories, built, busy, deps) == (result, added + more)
  {
    hide Visit;
    assert deps[i..][0] == deps[i] && deps[i..][1..] == deps[i + 1..];
    assert built + Elements(added) + Elements(more) == built + Elements(added + more) by {
      assert forall x :: x in Elements(added + more) <==> x in Elements(added) || x in Elements(more);
    }
    if result.Ok? {
      var rest := VisitAll(factories, built + Elements(added + more), busy, deps[i + 1..]);
      assert added + (more + rest.1) == added + more + rest.1;
    }
  }

  lemma VisitEnds(factories: Factories, built: set<Type>, busy: set<Type>, deps: seq<Type>, added: seq<Type>)
    requires VisitedUpTo(factories, built, busy, deps, |deps|, added)
    ensures VisitAll(factories, built, busy, deps) == (Ok, added)
  {
    assert added + [] == added;
  }

  /** The visit of one type, in terms of the visit of its dependencies. */
  lemma VisitOne(factories: Factories, built: set<Type>, busy: set<Type>, t: Type)
    ensures t in built ==> Visit(factories, built, busy, t) == (Ok, [])
    ensures t !in built && t in busy ==> Visit(factories, built, busy, t) == (Circular(t), [])
    ensures t !in built && t !in busy && t !in factories ==> Visit(factories, built, busy, t) == (Missing(t), [])
    ensures t !in built && t !in busy && t in factories ==>
              var deps := VisitAll(factories, built, busy + {t}, factories[t].deps);
              Visit(factories, built, busy, t) == if deps.0.Ok? then (Ok, deps.1 + [t]) else deps
  {
    hide VisitAll;
  }

  // ---- the container ----

  class Container {
    var services: set<Type>
    var factories: Factories
    var initializing: set<Type>
    var lifecycleServices: seq<Type>
    ghost var build: Build
    ghost var lifecycle: set<Type>

    ghost predicate Consistent()
      reads this
    {
      Sound(build, lifecycle, services, lifecycleServices)
    }

    constructor ()
      ensures Consistent() && initializing == {}
      ensures services == {} && factories == map[] && lifecycleServices == []
    {
      services, factories, initializing, lifecycleServices := {}, map[], {}, [];
      build, lifecycle := Build([], map[], {}), {};
    }

    method Register(t: Type, factory: Factory)
      requires Consistent() && initializing == {}
      modifies this`factories
      ensures Consistent() && initializing == {} && factories == old(factories)[t := factory]
    {
      factories := factories[t := factory];
    }

    method RegisterInstance(t: Type)
      requires Consistent() && initializing == {}
      modifies this`services, this`build
      ensures Consistent() && initializing == {} && services == old(services) + {t}
      ensures build == old(build).(given := old(build).given + {t})
    {
      services := services + {t};
      build := build.(given := build.given + {t});
    }

    /** Records a service whose dependencies are all resolved. */
    method Store(t: Type)
      requires Sound(build, lifecycle, services, lifecycleServices) && t in factories && t !in services
      requires forall d :: d in factories[t].deps ==> d in services
      modifies this`services, this`lifecycleServices, this`build, this`lifecycle
      ensures Sound(build, lifecycle, services, lifecycleServices) && services == old(services) + {t}
      ensures Grown(factories, old(build), build, [t])
      ensures lifecycleServices == old(lifecycleServices) + if factories[t].lifecycle then [t] else []
    {
      hide *;
      StoreKeeps(factories, build, lifecycle, services, lifecycleServices, t);
      build := Add(factories, build, t);
      if factories[t].lifecycle {
        lifecycleServices := lifecycleServices + [t];
        lifecycle := lifecycle + {t};
      }
      services := services + {t};
    }

    /** Resolves `t` in the course of the requests on `stack`. */
    method Get(t: Type, ghost stack: seq<Type>)
      returns (result: Result, ghost added: seq<Type>, ghost path: seq<Type>)
      requires Consistent() && Resolving(factories, services, initializing, stack) && Asked(factories, stack, t)
      modifies this
      ensures Consistent() && Resolving(factories, services, initializing, stack)
      ensures factories == old(factories) && initializing == old(initializing)
      ensures Grown(factories, old(build), build, added)
      ensures if result.Ok? then t in services
              else Explains(factories, old(services), result, stack, t, path)
      ensures (result, added) == Visit(factories, old(services), initializing, t)
      decreases factories.Keys - initializing, 0
    {
      hide Resolving, Asked, Explains, Grown, Sound, Elements, Visit, VisitAll;
      VisitOne(factories, services, initializing, t);
      added, path := [], stack + [t];
      GrownByNone(factories, build);
      if t in services {
        return Ok, [], path;
      }
      Refused(factories, services, initializing, stack, t);
      if t in initializing {
        return Circular(t), [], path;
      }
      if t !in factories {
        return Missing(t), [], path;
      }
      Push(factories, services, initializing, stack, t);
      initializing := initializing + {t};
      result, added, path := RunFactory(t, stack);
      Pop(factories, services, old(initializing), stack, t);
      if result.Ok? {
        ghost var before := build;
        Store(t);
        GrownTwice(factories, old(build), before, build, added, [t]);
        added := added + [t];
      }
      initializing := initializing - {t};
    }

    /** A factory resolves the dependencies of `t`, in order, up to the first failure. */
    method RunFactory(t: Type, ghost stack: seq<Type>)
      returns (result: Result, ghost added: seq<Type>, ghost path: seq<Type>)
      requires Consistent() && Resolving(factories, services, initializing, stack + [t])
      requires t in factories && forall d :: d in factories[t].deps ==> Asked(factories, stack + [t], d)
      modifies this
      ensures Consistent() && Resolving(factories, services, initializing, stack + [t])
      ensures factories == old(factories) && initializing == old(initializing)
      ensures Grown(factories, old(build), build, added)
      ensures if result.Ok? then forall d :: d in factories[t].deps ==> d in services
              else Explains(factories, old(services), result, stack, t, path)
      ensures (result, added) == VisitAll(factories, old(services), initializing, factories[t].deps)
      decreases factories.Keys - initializing, 1
    {
      hide Resolving, Explains, WellBuilt, Hooked, Visit, VisitAll, VisitedUpTo;
      GrownByNone(factories, build);
      result, added, path := Ok, [], [];
      var deps := factories[t].deps;
      VisitStarts(factories, services, initializing, deps);
      var i := 0;
      while i < |deps|
        invariant 0 <= i <= |deps| && result.Ok?
        invariant Consistent() && Resolving(factories, services, initializing, stack + [t])
        invariant factories == old(factories) && initializing == old(initializing)
        invariant Grown(factories, old(build), build, added) && services == old(services) + Elements(added)
        invariant VisitedUpTo(factories, old(services), initializing, deps, i, added)
        invariant forall k :: 0 <= k < i ==> deps[k] in services
      {
        ghost var before, built, more := build, services, [];
        result, more, path := Get(deps[i], stack + [t]);
        GrownTwice(factories, old(build), before, build, added, more);
        BuiltGrows(factories, before, build, more);
        hide Grown;
        VisitGoesOn(factories, old(services), initializing, deps, i, added, result, more);
        added := added + more;
        if !result.Ok? {
          Deeper(factories, built, old(services), result, stack, t, deps[i], path);
          return;
        }
        i := i + 1;
      }
      VisitEnds(factories, old(services), initializing, deps, added);
    }

    /** A request from outside succeeds exactly when what it reaches, up to services already built,
        holds no cycle and no missing factory.  It builds each type at most once, depth first, in the order the
        factories ask for their dependencies, and reports the first failure. */
    method Resolve(t: Type) returns (result: Result, ghost added: seq<Type>)
      requires Consistent() && initializing == {}
      modifies this
      ensures Consistent() && initializing == {} && factories == old(factories)
      ensures result.Ok? <==> !Broken(factories, old(services), t)
      ensures result.Ok? ==> t in services
      ensures Grown(factories, old(build), build, added) && Distinct(build.order)
      ensures services == old(services) + Elements(added)
      ensures (result, added) == Visit(factories, old(services), {}, t)
    {
      ghost var path;
      result, added, path := Get(t, []);
      BuiltGrows(factories, old(build), build, added);
      hide Resolving, Asked, Chain, DeadEnd, Hooked;
      if result.Ok? {
        OrderedBuildIsSound(factories, old(services), added, t);
      } else {
        assert Broken(factories, old(services), t);
      }
    }

    /** Shuts the lifecycle services down, dependents before their dependencies.  `fails` says whose
        Shutdown returns an error; the last such error is reported. */
    method Shutdown(fails: set<Type>) returns (visited: seq<Type>, lastErr: Option<Type>)
      requires Consistent()
      ensures visited == Reversed(lifecycleServices)
      ensures forall path, p, q ::
                (DependsVia(build, path) && 0 <= p < |visited| && 0 <= q < |visited|
                 && visited[p] == path[0] && visited[q] == path[|path| - 1])
                ==> p < q
      ensures lastErr == LastFailing(visited, fails)
    {
      visited, lastErr := [], None;
      var i := |lifecycleServices|;
      while i > 0
        invariant 0 <= i <= |lifecycleServices| && visited == Reversed(lifecycleServices[i..])
        invariant lastErr == LastFailing(visited, fails)
      {
        i := i - 1;
        assert lifecycleServices[i..][1..] == lifecycleServices[i + 1..];
        assert (visited + [lifecycleServices[i]])[..|visited|] == visited;
        visited := visited + [lifecycleServices[i]];
        if lifecycleServices[i] in fails {
          lastErr := Some(lifecycleServices[i]);
        }
      }
      assert lifecycleServices[0..] == lifecycleServices;
      forall path, p, q | DependsVia(build, path) && 0 <= p < |visited| && 0 <= q < |visited|
                && visited[p] == path[0] && visited[q] == path[|path| - 1]
        ensures p < q
      {
        ShutdownOrder(build, lifecycle, path, p, q);
      }
    }
  }
}
