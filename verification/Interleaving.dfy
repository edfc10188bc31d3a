/** A multi-step operation and everything that happens between its steps. */
module Interleaving {
  import opened Wrappers
  import opened QueueState
  import opened QueueSteps
  import opened JobHistory
  import opened Storage

  /** A step of the operation itself, or of anyone else. */
  datatype Move = Own(e: Event) | Other(e: Event)

  ghost function Events(moves: seq<Move>): (es: seq<Event>)
    ensures |es| == |moves|
  {
    seq(|moves|, i requires 0 <= i < |moves| => moves[i].e)
  }

  /** The operation's own steps (`own`), or everyone else's. */
  ghost function By(moves: seq<Move>, own: bool): seq<Event> {
    if moves == [] then []
    else
      var m := moves[|moves| - 1];
      By(moves[..|moves| - 1], own) + (if m.Own? == own then [m.e] else [])
  }

  /** What the environment does in the first `n` pauses. */
  ghost function Seen(env: nat -> seq<Event>, n: nat): seq<Event> {
    if n == 0 then [] else Seen(env, n - 1) + env(n - 1)
  }

  /** `moves` leads from `s0` to `s`, and the others' share of it is exactly what the environment did
      in the first `n` pauses. */
  ghost predicate Woven(s0: State, moves: seq<Move>, s: State, env: nat -> seq<Event>, n: nat) {
    s == Run(s0, Events(moves)) && By(moves, false) == Seen(env, n)
  }

  lemma WovenIsRun(s0: State, moves: seq<Move>, s: State, env: nat -> seq<Event>, n: nat)
    requires Woven(s0, moves, s, env, n)
    ensures s == Run(s0, Events(moves))
  {
  }

  lemma NoMoves(s: State, env: nat -> seq<Event>)
    ensures Woven(s, [], s, env, 0) && By([], true) == []
  {
  }

  lemma {:induction false} ByConcat(a: seq<Move>, b: seq<Move>, own: bool)
    ensures By(a + b, own) == By(a, own) + By(b, own)
    decreases |b|
  {
    if b == [] {
      assert a + b == a;
    } else {
      assert (a + b)[..|a + b| - 1] == a + b[..|b| - 1];
      ByConcat(a, b[..|b| - 1], own);
    }
  }

  ghost function Others(es: seq<Event>): (moves: seq<Move>)
    ensures |moves| == |es| && forall i :: 0 <= i < |es| ==> moves[i] == Other(es[i])
  {
    seq(|es|, i requires 0 <= i < |es| => Other(es[i]))
  }

  lemma {:induction false} ByOthers(es: seq<Event>)
    ensures By(Others(es), true) == [] && By(Others(es), false) == es
    ensures Events(Others(es)) == es
    decreases |es|
  {
    if es != [] {
      assert Others(es)[..|es| - 1] == Others(es[..|es| - 1]);
      ByOthers(es[..|es| - 1]);
      assert es[..|es| - 1] + [es[|es| - 1]] == es;
    }
  }

  lemma ByOne(m: Move)
    ensures By([m], m.Own?) == [m.e] && By([m], !m.Own?) == []
  {
    assert [m][..0] == [];
  }

  lemma {:induction false} NothingOwn(moves: seq<Move>)
    requires By(moves, true) == []
    ensures forall m :: m in moves ==> m.Other?
    decreases |moves|
  {
    if moves != [] {
      NothingOwn(moves[..|moves| - 1]);
    }
  }

  /** What is added without an own step is others' moves. */
  lemma OthersOnly(moves: seq<Move>, more: seq<Move>)
    requires moves <= more && By(more, true) == By(moves, true)
    ensures forall n :: |moves| <= n < |more| ==> more[n].Other?
    ensures forall n :: 0 <= n <= |moves| ==> more[..n] == moves[..n]
  {
    assert more == moves + more[|moves|..];
    ByConcat(moves, more[|moves|..], true);
    assert By(more[|moves|..], true) == [];
    NothingOwn(more[|moves|..]);
    forall n | |moves| <= n < |more| ensures more[n].Other? {
      assert more[|moves|..][n - |moves|] in more[|moves|..];
    }
  }

  /** A further own step. */
  lemma OwnStep(s0: State, moves: seq<Move>, s: State, env: nat -> seq<Event>, n: nat, e: Event)
    requires Woven(s0, moves, s, env, n)
    ensures Woven(s0, moves + [Own(e)], Step(s, e), env, n)
    ensures By(moves + [Own(e)], true) == By(moves, true) + [e]
  {
    hide Step;
    assert Events(moves + [Own(e)]) == Events(moves) + [e];
    RunSnoc(s0, Events(moves), e);
    ByConcat(moves, [Own(e)], true);
    ByConcat(moves, [Own(e)], false);
    ByOne(Own(e));
  }

  lemma {:induction false} ClockAdvances(s: State, es: seq<Event>)
    ensures Run(s, es).now >= s.now
    decreases |es|
  {
    hide Step;
    if es != [] {
      ClockAdvances(s, es[..|es| - 1]);
      StepRow(Run(s, es[..|es| - 1]), es[|es| - 1], "");
    }
  }

  /** The environment's next turn. */
  method Yield(db: Database, env: nat -> seq<Event>, ghost n: nat, es: seq<Event>, ghost s0: State,
               ghost moves: seq<Move>)
      returns (ghost more: seq<Move>)
    requires es == env(n) && Woven(s0, moves, db.View(), env, n)
    modifies db
    ensures moves <= more && Woven(s0, more, db.View(), env, n + 1)
    ensures By(more, true) == By(moves, true)
    ensures db.View() == Run(old(db.View()), es) && db.now >= old(db.now)
  {
    hide Step;
    ghost var s := db.View();
    db.Interfere(es);
    ClockAdvances(s, es);
    more := moves + Others(es);
    ByOthers(es);
    assert Events(more) == Events(moves) + es;
    RunConcat(s0, Events(moves), es);
    ByConcat(moves, Others(es), true);
    ByConcat(moves, Others(es), false);
  }
}
