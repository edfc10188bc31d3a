/** The outbound queue of one connection
    (internal/application/service/messaging/egress/pipeline.go).

    Callers and the single writer run concurrently.  An event is one atomic move of one of them: the
    two selects of an enqueue, the writer's select, the end of a Send, and Stop.  A select with several
    ready cases may take any of them, so their order in a run is arbitrary. */
module Egress {
  import opened Wrappers

  const DEFAULT_CAPACITY: int := 256
  const DEFAULT_THRESHOLD: int := 10

  type Payload = seq<bv8>

  datatype Config = Config(capacity: int, threshold: int, hasCallback: bool)

  /** `waiting` holds the payloads of enqueues blocked on a full queue, `writing` the one in Send. */
  datatype State = State(
    queue: seq<Payload>, waiting: multiset<Payload>, writing: Option<Payload>,
    drops: int, stopped: bool, exited: bool)

  datatype Event =
    | Offer(payload: Payload)
    | Accept(payload: Payload)
    | Refuse(payload: Payload)
    | Drop(payload: Payload)
    | Take
    | Sent(ok: bool)
    | Stop
    | Exit

  const EMPTY: State := State([], multiset{}, None, 0, false, false)

  predicate Enabled(config: Config, s: State, e: Event) {
    match e
    case Offer(p) => true
    case Accept(p) => p in s.waiting && |s.queue| < config.capacity
    case Refuse(p) => p in s.waiting && s.stopped
    case Drop(p) => p in s.waiting
    case Take => !s.exited && s.writing.None? && s.queue != []
    case Sent(ok) => s.writing.Some?
    case Stop => !s.stopped
    case Exit => s.stopped && s.writing.None? && !s.exited
  }

  function Apply(s: State, e: Event): State
    requires e.Take? ==> s.queue != []
  {
    match e
    case Offer(p) => if p == [] || s.stopped then s else s.(waiting := s.waiting + multiset{p})
    case Accept(p) => s.(waiting := s.waiting - multiset{p}, queue := s.queue + [p])
    case Refuse(p) => s.(waiting := s.waiting - multiset{p})
    case Drop(p) => s.(waiting := s.waiting - multiset{p}, drops := s.drops + 1)
    case Take => s.(queue := s.queue[1..], writing := Some(s.queue[0]))
    case Sent(ok) => s.(writing := None, drops := if ok then 0 else s.drops)
    case Stop => s.(stopped := true)
    case Exit => s.(exited := true)
  }

  function Step(config: Config, s: State, e: Event): State {
    if Enabled(config, s, e) then Apply(s, e) else s
  }

  ghost function Run(config: Config, events: seq<Event>): State {
    if events == [] then EMPTY
    else Step(config, Run(config, events[..|events| - 1]), events[|events| - 1])
  }

  /** The event makes the slow-consumer callback run. */
  predicate Fires(config: Config, s: State, e: Event) {
    e.Drop? && Enabled(config, s, e) && s.drops + 1 >= config.threshold && config.hasCallback
  }

  // ---- what a run has done ----

  /** `accepted` and `handed` are in the order payloads entered the queue and reached Send. */
  datatype Ledger = Ledger(
    offered: nat, accepted: seq<Payload>, handed: seq<Payload>, dropped: nat, refused: nat)

  function Entered(config: Config, s: State, l: Ledger, e: Event): Ledger {
    if !Enabled(config, s, e) then l
    else
      match e
      case Offer(p) =>
        if p == [] then l
        else l.(offered := l.offered + 1, refused := l.refused + if s.stopped then 1 else 0)
      case Accept(p) => l.(accepted := l.accepted + [p])
      case Refuse(p) => l.(refused := l.refused + 1)
      case Drop(p) => l.(dropped := l.dropped + 1)
      case Take => l.(handed := l.handed + [s.queue[0]])
      case _ => l
  }

  ghost function LedgerOf(config: Config, events: seq<Event>): Ledger {
    if events == [] then Ledger(0, [], [], 0, 0)
    else
      var init := events[..|events| - 1];
      Entered(config, Run(config, init), LedgerOf(config, init), events[|events| - 1])
  }

  ghost predicate InOrder(config: Config, s: State, l: Ledger) {
    && l.accepted == l.handed + s.queue
    && |s.queue| <= config.capacity
    && (s.writing.Some? ==> l.handed != [] && s.writing.value == l.handed[|l.handed| - 1])
  }

  lemma StepInOrder(config: Config, s: State, l: Ledger, e: Event)
    requires InOrder(config, s, l)
    ensures InOrder(config, Step(config, s, e), Entered(config, s, l, e))
  {
    if Enabled(config, s, e) {
      match e
      case Accept(p) => assert l.handed + (s.queue + [p]) == (l.handed + s.queue) + [p];
      case Take => assert (l.handed + [s.queue[0]]) + s.queue[1..] == l.handed + s.queue;
      case _ =>
    }
  }

  /** Delivery is first in, first out: what reached Send, then what is queued, is what was accepted,
      and the queue never outgrows its capacity. */
  lemma {:induction false} FirstInFirstOut(config: Config, events: seq<Event>)
    requires config.capacity >= 0
    ensures
      var s, l := Run(config, events), LedgerOf(config, events);
      && l.accepted == l.handed + s.queue
      && l.handed <= l.accepted
      && |s.queue| <= config.capacity
      && (s.writing.Some? ==> l.handed != [] && s.writing.value == l.handed[|l.handed| - 1])
  {
    if events != [] {
      var init := events[..|events| - 1];
      FirstInFirstOut(config, init);
      StepInOrder(config, Run(config, init), LedgerOf(config, init), events[|events| - 1]);
      hide Step, Entered;
    }
  }

  ghost predicate Balanced(s: State, l: Ledger) {
    l.offered == |l.handed| + |s.queue| + l.dropped + l.refused + |s.waiting|
  }

  lemma StepBalanced(config: Config, s: State, l: Ledger, e: Event)
    requires Balanced(s, l)
    ensures Balanced(Step(config, s, e), Entered(config, s, l, e))
  {
  }

  /** Nothing is lost or made up: every non-empty payload offered was handed to Send, is queued, was
      dropped, was refused, or is still waiting. */
  lemma {:induction false} Conservation(config: Config, events: seq<Event>)
    requires config.capacity >= 0
    ensures
      var s, l := Run(config, events), LedgerOf(config, events);
      l.offered == |l.handed| + |s.queue| + l.dropped + l.refused + |s.waiting|
  {
    hide Step, Entered;
    if events != [] {
      var init := events[..|events| - 1];
      Conservation(config, init);
      StepBalanced(config, Run(config, init), LedgerOf(config, init), events[|events| - 1]);
    }
  }

  ghost predicate Delivers(config: Config, s: State, e: Event) {
    e == Sent(true) && Enabled(config, s, e)
  }

  /** How many payloads `later` drops when it follows `before`. */
  ghost function Dropped(config: Config, before: seq<Event>, later: seq<Event>): nat {
    if later == [] then 0
    else
      var init, e := later[..|later| - 1], later[|later| - 1];
      Dropped(config, before, init) + if e.Drop? && Enabled(config, Run(config, before + init), e) then 1 else 0
  }

  ghost predicate NoDelivery(config: Config, before: seq<Event>, later: seq<Event>) {
    forall i :: 0 <= i < |later| ==> !Delivers(config, Run(config, before + later[..i]), later[i])
  }

  /** `before` is empty or ends with a successful Send. */
  ghost predicate JustDelivered(config: Config, before: seq<Event>) {
    before == []
    || Delivers(config, Run(config, before[..|before| - 1]), before[|before| - 1])
  }

  lemma {:induction false} DropsSinceDelivery(config: Config, before: seq<Event>, later: seq<Event>)
    requires JustDelivered(config, before) && NoDelivery(config, before, later)
    ensures Run(config, before + later).drops == Dropped(config, before, later)
  {
    if later == [] {
      assert before + later == before;
    } else {
      var init, e := later[..|later| - 1], later[|later| - 1];
      assert (before + later)[..|before + later| - 1] == before + init;
      NoDeliveryPrefix(config, before, later);
      StepCounts(config, Run(config, before + init), e);
      assert Run(config, before + later) == Step(config, Run(config, before + init), e);
      hide Run, Step, Enabled, NoDelivery, JustDelivered;
      DropsSinceDelivery(config, before, init);
    }
  }

  lemma NoDeliveryPrefix(config: Config, before: seq<Event>, later: seq<Event>)
    requires NoDelivery(config, before, later) && later != []
    ensures
      var init := later[..|later| - 1];
      NoDelivery(config, before, init) && !Delivers(config, Run(config, before + init), later[|later| - 1])
  {
    hide Run, Delivers;
    var init := later[..|later| - 1];
    forall i | 0 <= i < |init| ensures !Delivers(config, Run(config, before + init[..i]), init[i]) {
      assert init[..i] == later[..i];
    }
  }

  lemma StepCounts(config: Config, s: State, e: Event)
    requires !Delivers(config, s, e)
    ensures Step(config, s, e).drops == s.drops + if e.Drop? && Enabled(config, s, e) then 1 else 0
  {
  }

  /** The callback runs exactly on the drops that bring the number since the last successful Send to
      the threshold or past it. */
  lemma {:induction false} SlowConsumerIff(config: Config, before: seq<Event>, later: seq<Event>, e: Event)
    requires JustDelivered(config, before) && NoDelivery(config, before, later)
    ensures Fires(config, Run(config, before + later), e)
            <==> config.hasCallback && e.Drop?
                 && Dropped(config, before, later + [e]) == Dropped(config, before, later) + 1
                 && Dropped(config, before, later + [e]) >= config.threshold
  {
    DropsSinceDelivery(config, before, later);
    assert (later + [e])[..|later|] == later;
  }

  /** Once stopped a pipeline only lets in what was already waiting, and once its writer has gone it
      sends nothing. */
  lemma {:induction false} AfterStop(config: Config, before: seq<Event>, later: seq<Event>)
    requires Run(config, before).stopped
    ensures
      var s, t := Run(config, before), Run(config, before + later);
      var l, m := LedgerOf(config, before), LedgerOf(config, before + later);
      && t.stopped && l.accepted <= m.accepted
      && |m.accepted| + |t.waiting| <= |l.accepted| + |s.waiting|
      && (s.exited ==> t.exited && m.handed == l.handed)
  {
    if later == [] {
      assert before + later == before;
    } else {
      var init, e := before + later[..|later| - 1], later[|later| - 1];
      assert (before + later)[..|before + later| - 1] == init;
      AfterStop(config, before, later[..|later| - 1]);
      StoppedStep(config, Run(config, init), LedgerOf(config, init), e);
      hide Step, Entered;
    }
  }

  lemma StoppedStep(config: Config, s: State, l: Ledger, e: Event)
    requires s.stopped
    ensures
      var t, m := Step(config, s, e), Entered(config, s, l, e);
      && t.stopped && l.accepted <= m.accepted
      && |m.accepted| + |t.waiting| <= |l.accepted| + |s.waiting|
      && (s.exited ==> t.exited && m.handed == l.handed)
  {
  }

  /** The writer cannot be stuck: while it lives and something is queued, it can take it or it is in
      Send; and a stopped writer that is not in Send can leave. */
  lemma WriterNeverStuck(config: Config, s: State)
    requires !s.exited && (s.queue != [] || s.stopped)
    ensures exists e :: (e == Take || e == Sent(true) || e == Exit) && Enabled(config, s, e)
  {
    assert Enabled(config, s, Take) || Enabled(config, s, Sent(true)) || Enabled(config, s, Exit);
  }

  // ---- the pipeline ----

  datatype Error = Ok | ConnectionClosed
  datatype Ready = StopClosed | RoomInQueue | TimerFired

  class Pipeline {
    const capacity: int
    const slowConsumerThreshold: int
    const onSlowConsumer: bool
    var queue: seq<Payload>
    var stop: bool
    var done: bool
    var consecutiveDrops: int
    ghost var waiting: multiset<Payload>
    ghost var writing: Option<Payload>

    ghost function Settings(): Config {
      Config(capacity, slowConsumerThreshold, onSlowConsumer)
    }

    ghost function View(): State
      reads this
    {
      State(queue, waiting, writing, consecutiveDrops, stop, done)
    }

    constructor (capacity: int, slowConsumerThreshold: int, onSlowConsumer: bool)
      ensures Settings() == Config(if capacity < 1 then 256 else capacity,
                                   if slowConsumerThreshold < 1 then 10 else slowConsumerThreshold, onSlowConsumer)
      ensures View() == EMPTY
    {
      this.capacity := if capacity < 1 then DEFAULT_CAPACITY else capacity;
      this.slowConsumerThreshold := if slowConsumerThreshold < 1 then DEFAULT_THRESHOLD
                                    else slowConsumerThreshold;
      this.onSlowConsumer := onSlowConsumer;
      queue, stop, done, consecutiveDrops := [], false, false, 0;
      waiting, writing := multiset{}, None;
    }

    /** An enqueue up to its blocking select. */
    method Enqueue(payload: Payload) returns (blocks: bool, err: Error)
      modifies this
      ensures View() == Step(Settings(), old(View()), Offer(payload))
      ensures blocks <==> payload != [] && !old(stop)
      ensures err == if payload != [] && old(stop) then ConnectionClosed else Ok
    {
      if |payload| == 0 {
        return false, Ok;
      }
      if stop {
        return false, ConnectionClosed;
      }
      waiting := waiting + multiset{payload};
      return true, Ok;
    }

    /** The rest of an enqueue: the blocking select takes one of its ready cases. */
    method FinishEnqueue(payload: Payload, ready: Ready) returns (err: Error, fired: bool)
      requires payload in waiting
      requires ready.StopClosed? ==> stop
      requires ready.RoomInQueue? ==> |queue| < capacity
      modifies this
      ensures var e := if ready.StopClosed? then Refuse(payload)
                       else if ready.RoomInQueue? then Accept(payload) else Drop(payload);
              && View() == Step(Settings(), old(View()), e)
              && fired == Fires(Settings(), old(View()), e)
      ensures err == if ready.StopClosed? then ConnectionClosed else Ok
    {
      ghost var left := waiting - multiset{payload};
      match ready
      case StopClosed =>
        waiting := left;
        return ConnectionClosed, false;
      case RoomInQueue =>
        queue, waiting := queue + [payload], left;
        return Ok, false;
      case TimerFired =>
        waiting := left;
        fired := HandleDrop();
        return Ok, fired;
    }

    method HandleDrop() returns (fired: bool)
      modifies this`consecutiveDrops
      ensures consecutiveDrops == old(consecutiveDrops) + 1
      ensures fired <==> consecutiveDrops >= slowConsumerThreshold && onSlowConsumer
    {
      consecutiveDrops := consecutiveDrops + 1;
      fired := consecutiveDrops >= slowConsumerThreshold && onSlowConsumer;
    }

    /** One turn of the writer's select, when it finds the stop channel closed or a payload queued. */
    method WriterTurn(leave: bool) returns (payload: Option<Payload>)
      requires !done && writing.None?
      requires if leave then stop else queue != []
      modifies this
      ensures View() == Step(Settings(), old(View()), if leave then Exit else Take)
      ensures payload == if leave then None else Some(old(queue[0]))
    {
      if leave {
        done := true;
        return None;
      }
      payload := Some(queue[0]);
      queue, writing := queue[1..], Some(queue[0]);
    }

    /** The end of a Send. */
    method Delivered(ok: bool)
      requires writing.Some?
      modifies this
      ensures View() == Step(Settings(), old(View()), Sent(ok))
    {
      writing := None;
      if !ok {
        return;
      }
      consecutiveDrops := 0;
    }

    method Close()
      requires !stop
      modifies this`stop
      ensures View() == Step(Settings(), old(View()), Stop)
    {
      stop := true;
    }
  }
}
