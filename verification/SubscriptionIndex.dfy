/** The two-way index of local subscriptions
    (internal/infrastructure/repository/messaging/subscription/repository.go). */
module SubscriptionIndex {
  import opened Wrappers

  const IDLE_TIMEOUT: int := 300_000_000_000

  class Subscription {
    const id: string
    var closed: bool
    var lastActive: int

    constructor (id: string, now: int)
      ensures this.id == id && !closed && lastActive == now
    {
      this.id := id;
      closed := false;
      lastActive := now;
    }

    /** Closed, or without activity for more than five minutes. */
    predicate Stale(now: int): (r: bool)
      reads this
      ensures r <==> closed || now - lastActive > 300_000_000_000
    {
      closed || now - lastActive > IDLE_TIMEOUT
    }
  }

  type Forward = map<string, set<Subscription>>
  type Reverse = map<string, set<string>>
  type Pair = (string, Subscription)

  datatype Outcome = Done | ErrNil | ErrClosed | ErrChannelNotFound

  // ---- the two maps as values ----

  predicate In(forward: Forward, channel: string, older sub: Subscription) {
    channel in forward && sub in forward[channel]
  }

  predicate Lists(reverse: Reverse, id: string, channel: string) {
    id in reverse && channel in reverse[id]
  }

  ghost function Pairs(forward: Forward): (pairs: set<Pair>)
    ensures forall c, s :: In(forward, c, s) ==> (c, s) in pairs
    ensures forall p :: p in pairs ==> In(forward, p.0, p.1)
  {
    set channel, sub | channel in forward && sub in forward[channel] :: (channel, sub)
  }

  ghost predicate NoneEmpty<K, V>(m: map<K, set<V>>) {
    forall k :: k in m ==> m[k] != {}
  }

  /** Among the stored subscriptions an id names one object. */
  ghost predicate DistinctIds(forward: Forward) {
    forall c, d, s, t :: In(forward, c, s) && In(forward, d, t) && s.id == t.id ==> s == t
  }

  /** `sub` is the only subscription with its id that is, or is about to be, stored. */
  ghost predicate Identified(forward: Forward, sub: Subscription) {
    forall c, s :: In(forward, c, s) && s.id == sub.id ==> s == sub
  }

  ghost predicate Stored(forward: Forward, channel: string, id: string) {
    exists s :: In(forward, channel, s) && s.id == id
  }

  /** The reverse map lists a channel under an id exactly when the forward map stores a subscription
      with that id in that channel, and it holds no empty set. */
  ghost predicate Agree(forward: Forward, reverse: Reverse) {
    && NoneEmpty(reverse)
    && (forall c, s :: In(forward, c, s) ==> Lists(reverse, s.id, c))
    && (forall id, c :: Lists(reverse, id, c) ==> Stored(forward, c, id))
  }

  ghost predicate Consistent(forward: Forward, reverse: Reverse) {
    Agree(forward, reverse) && DistinctIds(forward) && NoneEmpty(forward)
  }

  /** What the constant-time lookup returns. */
  function Listed(reverse: Reverse, id: string): (channels: set<string>)
    ensures forall c :: c in channels <==> Lists(reverse, id, c)
  {
    if id in reverse then reverse[id] else {}
  }

  /** The reverse lookup equals a scan of the whole forward map. */
  lemma LookupIsScan(forward: Forward, reverse: Reverse, sub: Subscription)
    requires Consistent(forward, reverse) && Identified(forward, sub)
    ensures Listed(reverse, sub.id) == set c | c in forward && sub in forward[c]
  {
    forall c | Lists(reverse, sub.id, c) ensures In(forward, c, sub) {
      assert Stored(forward, c, sub.id);
    }
    forall c | c in forward && sub in forward[c] ensures Lists(reverse, sub.id, c) {
      assert In(forward, c, sub);
    }
  }

  /** The ids that can be found are exactly the keys of the reverse map. */
  lemma FindableIds(forward: Forward, reverse: Reverse, id: string)
    requires Consistent(forward, reverse)
    ensures id in reverse <==> exists p :: p in Pairs(forward) && p.1.id == id
  {
    if id in reverse {
      var c :| c in reverse[id];
      assert Lists(reverse, id, c);
      var s :| In(forward, c, s) && s.id == id;
      assert (c, s) in Pairs(forward);
    }
    forall p | p in Pairs(forward) && p.1.id == id ensures id in reverse {
      assert In(forward, p.0, p.1);
    }
  }

  /** One forward map has one reverse map, so the two can never drift apart. */
  lemma ReverseIsDetermined(forward: Forward, r: Reverse, q: Reverse)
    requires Agree(forward, r) && Agree(forward, q)
    ensures r == q
  {
    Covers(forward, r, q);
    Covers(forward, q, r);
    assert r.Keys == q.Keys;
    assert forall id :: id in r ==> r[id] == q[id];
  }

  lemma Covers(forward: Forward, r: Reverse, q: Reverse)
    requires Agree(forward, r) && Agree(forward, q)
    ensures forall id :: id in r ==> id in q && r[id] <= q[id]
  {
    forall id, c | id in r && c in r[id] ensures id in q && c in q[id] {
      assert Lists(r, id, c);
      assert Stored(forward, c, id);
    }
  }

  // ---- changes to the maps ----

  ghost function Linked(reverse: Reverse, id: string, channel: string): Reverse {
    reverse[id := Listed(reverse, id) + {channel}]
  }

  ghost function Unlinked(reverse: Reverse, id: string, channel: string): Reverse {
    if Listed(reverse, id) - {channel} == {} then reverse - {id}
    else reverse[id := Listed(reverse, id) - {channel}]
  }

  ghost function Put(forward: Forward, channel: string, sub: Subscription): Forward {
    forward[channel := (if channel in forward then forward[channel] else {}) + {sub}]
  }

  /** The forward map without one pair; the channel stays, possibly empty. */
  ghost function Cut(forward: Forward, channel: string, sub: Subscription): Forward
    requires channel in forward
  {
    forward[channel := forward[channel] - {sub}]
  }

  /** The maps differ by one pair being added. */
  ghost predicate OneMore(f: Forward, f': Forward, r: Reverse, r': Reverse, channel: string, sub: Subscription) {
    && In(f', channel, sub)
    && (forall c, s :: In(f, c, s) ==> In(f', c, s))
    && (forall c, s :: In(f', c, s) ==> In(f, c, s) || (c == channel && s == sub))
    && (forall id, c :: Lists(r', id, c) <==> Lists(r, id, c) || (c == channel && id == sub.id))
  }

  /** The maps differ by one pair being taken out. */
  ghost predicate OneLess(f: Forward, f': Forward, r: Reverse, r': Reverse, channel: string, sub: Subscription) {
    && (forall c, s :: In(f, c, s) && !(c == channel && s == sub) ==> In(f', c, s))
    && (forall c, s :: In(f', c, s) ==> In(f, c, s) && !(c == channel && s == sub))
    && (forall id, c :: Lists(r', id, c) <==> Lists(r, id, c) && !(c == channel && id == sub.id))
  }

  lemma LinkAddsOne(f: Forward, r: Reverse, channel: string, sub: Subscription)
    requires NoneEmpty(r)
    ensures OneMore(f, Put(f, channel, sub), r, Linked(r, sub.id, channel), channel, sub)
    ensures NoneEmpty(Linked(r, sub.id, channel))
  {
    assert channel in Listed(r, sub.id) + {channel};
  }

  lemma UnlinkTakesOne(f: Forward, r: Reverse, channel: string, sub: Subscription)
    requires NoneEmpty(r) && channel in f
    ensures OneLess(f, Cut(f, channel, sub), r, Unlinked(r, sub.id, channel), channel, sub)
    ensures NoneEmpty(Unlinked(r, sub.id, channel))
  {
    var r' := Unlinked(r, sub.id, channel);
    forall id, c
      ensures Lists(r', id, c) <==> Lists(r, id, c) && !(c == channel && id == sub.id)
    {
      assert id == sub.id && Lists(r, id, c) && c != channel ==> c in Listed(r, id) - {channel};
    }
  }

  lemma OneMoreKeeps(f: Forward, f': Forward, r: Reverse, r': Reverse, channel: string, sub: Subscription)
    requires Agree(f, r) && OneMore(f, f', r, r', channel, sub) && NoneEmpty(r')
    ensures Agree(f', r') && (DistinctIds(f') <==> DistinctIds(f) && Identified(f, sub))
    ensures Pairs(f') == Pairs(f) + {(channel, sub)}
  {
    hide In, Lists, Pairs;
    forall id, c | Lists(r', id, c) ensures Stored(f', c, id) {
      if Lists(r, id, c) {
        var s :| In(f, c, s) && s.id == id;
        assert In(f', c, s);
      } else {
        assert In(f', c, sub);
      }
    }
    forall p | p in Pairs(f') ensures p in Pairs(f) + {(channel, sub)} {
      assert In(f', p.0, p.1);
    }
  }

  lemma OneLessKeeps(f: Forward, f': Forward, r: Reverse, r': Reverse, channel: string, sub: Subscription)
    requires Agree(f, r) && DistinctIds(f) && Identified(f, sub)
    requires OneLess(f, f', r, r', channel, sub) && NoneEmpty(r')
    ensures Agree(f', r') && DistinctIds(f') && Identified(f', sub)
    ensures Pairs(f') == Pairs(f) - {(channel, sub)}
  {
    hide In, Lists, Pairs;
    forall id, c | Lists(r', id, c) ensures Stored(f', c, id) {
      var s :| In(f, c, s) && s.id == id;
      assert In(f', c, s);
    }
    forall p | p in Pairs(f) && p != (channel, sub) ensures p in Pairs(f') {
      assert In(f, p.0, p.1);
    }
    forall p | p in Pairs(f') ensures p in Pairs(f) && p != (channel, sub) {
      assert In(f', p.0, p.1);
    }
  }

  lemma LinkKeeps(f: Forward, r: Reverse, channel: string, sub: Subscription)
    requires Agree(f, r)
    ensures Agree(Put(f, channel, sub), Linked(r, sub.id, channel))
    ensures DistinctIds(Put(f, channel, sub)) <==> DistinctIds(f) && Identified(f, sub)
    ensures Pairs(Put(f, channel, sub)) == Pairs(f) + {(channel, sub)}
    ensures NoneEmpty(f) ==> NoneEmpty(Put(f, channel, sub))
  {
    assert sub in Put(f, channel, sub)[channel];
    LinkAddsOne(f, r, channel, sub);
    OneMoreKeeps(f, Put(f, channel, sub), r, Linked(r, sub.id, channel), channel, sub);
  }

  lemma ConsistentAgrees(f: Forward, r: Reverse)
    requires Consistent(f, r)
    ensures Agree(f, r) && NoneEmpty(f)
  {
  }

  lemma LinkConsistent(f: Forward, r: Reverse, channel: string, sub: Subscription)
    requires Consistent(f, r)
    ensures
      var f', r' := Put(f, channel, sub), Linked(r, sub.id, channel);
      && Agree(f', r') && NoneEmpty(f') && Pairs(f') == Pairs(f) + {(channel, sub)}
      && (Consistent(f', r') <==> Identified(f, sub))
  {
    hide Agree, DistinctIds, Identified, Pairs, NoneEmpty, Put, Linked;
    LinkKeeps(f, r, channel, sub);
  }

  lemma UnlinkKeeps(f: Forward, r: Reverse, channel: string, sub: Subscription)
    requires Agree(f, r) && DistinctIds(f) && Identified(f, sub) && channel in f
    ensures Agree(Cut(f, channel, sub), Unlinked(r, sub.id, channel)) && DistinctIds(Cut(f, channel, sub))
    ensures Pairs(Cut(f, channel, sub)) == Pairs(f) - {(channel, sub)}
  {
    UnlinkTakesOne(f, r, channel, sub);
    OneLessKeeps(f, Cut(f, channel, sub), r, Unlinked(r, sub.id, channel), channel, sub);
  }

  /** A channel left empty can be dropped. */
  lemma DropEmptyKeeps(forward: Forward, reverse: Reverse, channel: string)
    requires Agree(forward, reverse) && DistinctIds(forward)
    requires channel in forward && forward[channel] == {}
    ensures Agree(forward - {channel}, reverse) && DistinctIds(forward - {channel})
    ensures Pairs(forward - {channel}) == Pairs(forward)
  {
    var f := forward - {channel};
    assert forall c, s :: In(f, c, s) <==> In(forward, c, s);
    forall id, c | Lists(reverse, id, c) ensures Stored(f, c, id) {
      var s :| In(forward, c, s) && s.id == id;
      assert In(f, c, s);
    }
    forall p ensures p in Pairs(f) <==> p in Pairs(forward) {
      assert In(f, p.0, p.1) <==> In(forward, p.0, p.1);
    }
  }

  /** An absent channel is listed under no id. */
  lemma AbsentIsUnlisted(forward: Forward, reverse: Reverse, channel: string, id: string)
    requires Agree(forward, reverse) && channel !in forward
    ensures Unlinked(reverse, id, channel) == reverse
  {
    assert !Stored(forward, channel, id);
    assert !Lists(reverse, id, channel);
    assert Listed(reverse, id) - {channel} == Listed(reverse, id);
  }

  /** The forward map without `sub` in the channels of `done`, emptied channels dropped. */
  ghost function Stripped(forward: Forward, sub: Subscription, done: set<string>): Forward {
    map c | c in forward && !(c in done && forward[c] == {sub}) ::
      if c in done then forward[c] - {sub} else forward[c]
  }

  /** Stripping one more channel. */
  lemma StripOne(forward: Forward, sub: Subscription, done: set<string>, channel: string)
    requires NoneEmpty(forward) && channel !in done
    ensures
      var f := Stripped(forward, sub, done);
      Stripped(forward, sub, done + {channel})
      == if channel !in f then f
         else if f[channel] - {sub} == {} then f - {channel} else f[channel := f[channel] - {sub}]
  {
    assert channel in forward && forward[channel] - {sub} == {} ==> forward[channel] == {sub};
  }

  lemma StrippedMembers(forward: Forward, sub: Subscription, done: set<string>)
    requires NoneEmpty(forward)
    ensures NoneEmpty(Stripped(forward, sub, done))
    ensures forall c, s :: In(Stripped(forward, sub, done), c, s)
                           <==> In(forward, c, s) && !(c in done && s == sub)
  {
    forall c | c in forward && forward[c] != {sub} ensures forward[c] - {sub} != {} {
      var s :| s in forward[c] && s != sub;
      assert s in forward[c] - {sub};
    }
  }

  lemma StripKeeps(forward: Forward, reverse: Reverse, sub: Subscription)
    requires Consistent(forward, reverse) && Identified(forward, sub)
    ensures Consistent(Stripped(forward, sub, Listed(reverse, sub.id)), reverse - {sub.id})
    ensures Pairs(Stripped(forward, sub, Listed(reverse, sub.id)))
         == set p | p in Pairs(forward) && p.1 != sub
  {
    var f, r := Stripped(forward, sub, Listed(reverse, sub.id)), reverse - {sub.id};
    StrippedMembers(forward, sub, Listed(reverse, sub.id));
    assert forall id, c :: Lists(r, id, c) <==> Lists(reverse, id, c) && id != sub.id;
    hide In, Lists, Pairs, Stripped;
    assert forall c, s :: In(f, c, s) <==> In(forward, c, s) && s != sub;
    forall id, c | Lists(r, id, c) ensures Stored(f, c, id) {
      var s :| In(forward, c, s) && s.id == id;
      assert In(f, c, s);
    }
    forall p ensures p in Pairs(f) <==> p in Pairs(forward) && p.1 != sub {
      assert In(f, p.0, p.1) <==> In(forward, p.0, p.1) && p.1 != sub;
    }
  }

  /** The forward map with the stale subscriptions out of the channels outside `todo`. */
  ghost function Swept(forward: Forward, stale: set<Subscription>, todo: set<string>): Forward {
    map c | c in forward && (c in todo || !(forward[c] <= stale)) ::
      if c in todo then forward[c] else forward[c] - stale
  }

  lemma SweptPairs(forward: Forward, stale: set<Subscription>)
    ensures Pairs(Swept(forward, stale, {})) == set p | p in Pairs(forward) && p.1 !in stale
    ensures NoneEmpty(Swept(forward, stale, {}))
  {
    var f := Swept(forward, stale, {});
    assert forall c, s :: In(f, c, s) <==> In(forward, c, s) && s !in stale;
    forall p ensures p in Pairs(f) <==> p in Pairs(forward) && p.1 !in stale {
      assert In(f, p.0, p.1) <==> In(forward, p.0, p.1) && p.1 !in stale;
    }
    forall c | c in forward && !(forward[c] <= stale) ensures forward[c] - stale != {} {
      var s :| s in forward[c] && s !in stale;
      assert s in forward[c] - stale;
    }
  }

  /** Sweeping one more channel. */
  lemma SweepOne(forward: Forward, stale: set<Subscription>, todo: set<string>, channel: string)
    requires channel in forward && channel in todo
    ensures
      var f := Swept(forward, stale, todo);
      && channel in f && f[channel] == forward[channel]
      && Swept(forward, stale, todo - {channel})
         == if f[channel] <= stale then f - {channel} else f[channel := f[channel] - stale]
  {
  }

  /** What is left of a channel while the subscriptions of `pending` are still to be looked at. */
  ghost function Kept(subs: set<Subscription>, stale: set<Subscription>, pending: set<Subscription>)
    : set<Subscription>
  {
    subs - (stale - pending)
  }

  lemma KeptAtEnds(subs: set<Subscription>, stale: set<Subscription>)
    ensures Kept(subs, stale, subs) == subs
    ensures Kept(subs, stale, {}) == subs - stale
  {
  }

  /** One more subscription looked at: a stale one is cut, another stays. */
  lemma KeptStep(before: Forward, channel: string, subs: set<Subscription>, stale: set<Subscription>,
                 pending: set<Subscription>, sub: Subscription)
    requires sub in pending && pending <= subs
    ensures
      var f := before[channel := Kept(subs, stale, pending)];
      && In(f, channel, sub)
      && before[channel := Kept(subs, stale, pending - {sub})] == if sub in stale then Cut(f, channel, sub) else f
  {
    assert Kept(subs, stale, pending - {sub})
        == if sub in stale then Kept(subs, stale, pending) - {sub} else Kept(subs, stale, pending);
  }

  // ---- the repository ----

  class Repository {
    var subscriptions: map<string, set<Subscription>>
    var subChannels: map<string, set<string>>

    ghost predicate Valid()
      reads this
    {
      Consistent(subscriptions, subChannels)
    }

    ghost function Subs(): set<Subscription>
      reads this
    {
      set c, s | c in subscriptions && s in subscriptions[c] :: s
    }

    constructor ()
      ensures Valid() && Pairs(subscriptions) == {}
    {
      subscriptions, subChannels := map[], map[];
    }

    /** The maps agree whatever is added; the ids stay distinct exactly if no other stored subscription
        has this one's id. */
    method AddToChannel(channel: string, sub: Subscription?, now: int) returns (out: Outcome)
      requires Valid()
      modifies this, sub
      ensures Agree(subscriptions, subChannels) && NoneEmpty(subscriptions)
      ensures out != Done ==> Valid()
      ensures sub != null && out == Done ==> (Valid() <==> old(Identified(subscriptions, sub)))
      ensures out == if sub == null then ErrNil else if old(sub.closed) then ErrClosed else Done
      ensures out != Done ==> unchanged(this) && (sub != null ==> unchanged(sub))
      ensures out == Done ==> Pairs(subscriptions) == old(Pairs(subscriptions)) + {(channel, sub)}
      ensures out == Done ==> !sub.closed && sub.lastActive == now
    {
      hide Agree, DistinctIds, Identified, Pairs, NoneEmpty, Consistent, Put, Linked;
      ConsistentAgrees(subscriptions, subChannels);
      if sub == null {
        return ErrNil;
      }
      if sub.closed {
        return ErrClosed;
      }
      LinkConsistent(subscriptions, subChannels, channel, sub);
      Link(channel, sub);
      sub.lastActive := now;
      return Done;
    }

    method Link(channel: string, sub: Subscription)
      modifies this
      ensures subscriptions == Put(old(subscriptions), channel, sub)
      ensures subChannels == Linked(old(subChannels), sub.id, channel)
    {
      var members := if channel in subscriptions then subscriptions[channel] else {};
      subscriptions := subscriptions[channel := members + {sub}];
      subChannels := subChannels[sub.id := Listed(subChannels, sub.id) + {channel}];
    }

    method Unlink(id: string, channel: string)
      requires forall i :: i in subChannels ==> subChannels[i] != {}
      modifies this`subChannels
      ensures subChannels == Unlinked(old(subChannels), id, channel)
    {
      if id in subChannels {
        var channels := subChannels[id] - {channel};
        subChannels := if |channels| == 0 then subChannels - {id} else subChannels[id := channels];
      }
    }

    method RemoveFromChannel(channel: string, sub: Subscription?) returns (out: Outcome)
      requires Valid() && (sub != null ==> Identified(subscriptions, sub))
      modifies this
      ensures Valid()
      ensures out == if sub == null then ErrNil
                     else if channel !in old(subscriptions) then ErrChannelNotFound else Done
      ensures out != Done ==> unchanged(this)
      ensures out == Done ==> Pairs(subscriptions) == old(Pairs(subscriptions)) - {(channel, sub)}
    {
      if sub == null {
        return ErrNil;
      }
      if channel !in subscriptions {
        AbsentIsUnlisted(subscriptions, subChannels, channel, sub.id);
        Unlink(sub.id, channel);
        return ErrChannelNotFound;
      }
      UnlinkKeeps(subscriptions, subChannels, channel, sub);
      var rest := subscriptions[channel] - {sub};
      subscriptions := subscriptions[channel := rest];
      Unlink(sub.id, channel);
      if |rest| == 0 {
        DropEmptyKeeps(subscriptions, subChannels, channel);
        subscriptions := subscriptions - {channel};
      }
      return Done;
    }

    /** Takes `sub` out of the named channels and drops those it leaves empty. */
    method Strip(sub: Subscription, names: set<string>)
      requires NoneEmpty(subscriptions)
      modifies this`subscriptions
      ensures subscriptions == Stripped(old(subscriptions), sub, names)
    {
      hide NoneEmpty;
      var todo := names;
      assert subscriptions == Stripped(subscriptions, sub, names - todo);
      while todo != {}
        invariant todo <= names
        invariant subscriptions == Stripped(old(subscriptions), sub, names - todo)
      {
        var channel :| channel in todo;
        StripOne(old(subscriptions), sub, names - todo, channel);
        assert names - (todo - {channel}) == names - todo + {channel};
        hide Stripped;
        todo := todo - {channel};
        if channel in subscriptions {
          var rest := subscriptions[channel] - {sub};
          subscriptions := if |rest| == 0 then subscriptions - {channel} else subscriptions[channel := rest];
        }
      }
      assert names - todo == names;
    }

    method RemoveSubscriptionFromAll(sub: Subscription?) returns (out: Outcome)
      requires Valid() && (sub != null ==> Identified(subscriptions, sub))
      modifies this
      ensures Valid()
      ensures out == if sub == null then ErrNil else Done
      ensures out == ErrNil ==> unchanged(this)
      ensures out == Done ==>
                Pairs(subscriptions) == set p | p in old(Pairs(subscriptions)) && p.1 != sub
    {
      if sub == null {
        return ErrNil;
      }
      StripKeeps(subscriptions, subChannels, sub);
      if sub.id !in subChannels {
        assert subscriptions == Stripped(subscriptions, sub, {});
        assert subChannels == subChannels - {sub.id};
        return Done;
      }
      hide Identified, Pairs, Agree, DistinctIds;
      var names := subChannels[sub.id];
      Strip(sub, names);
      subChannels := subChannels - {sub.id};
      return Done;
    }

    method GetAllChannelsForSubscription(sub: Subscription?, now: int)
      returns (out: Outcome, channels: seq<string>)
      requires Valid() && (sub != null ==> Identified(subscriptions, sub))
      modifies sub
      ensures out == if sub == null then ErrNil else Done
      ensures forall i, j :: 0 <= i < j < |channels| ==> channels[i] != channels[j]
      ensures sub == null ==> channels == []
      ensures sub != null ==> (set c | c in channels) == (set c | c in subscriptions && sub in subscriptions[c])
      ensures sub != null ==> sub.closed == old(sub.closed)
      ensures sub != null ==> sub.lastActive == if channels == [] then old(sub.lastActive) else now
    {
      channels := [];
      if sub == null {
        return ErrNil, [];
      }
      LookupIsScan(subscriptions, subChannels, sub);
      if sub.id !in subChannels {
        return Done, [];
      }
      var todo := subChannels[sub.id];
      while todo != {}
        invariant todo <= subChannels[sub.id]
        invariant (set c | c in channels) == subChannels[sub.id] - todo
        invariant forall i, j :: 0 <= i < j < |channels| ==> channels[i] != channels[j]
      {
        var channel :| channel in todo;
        assert channel !in (set c | c in channels);
        assert (set c | c in channels + [channel]) == (set c | c in channels) + {channel};
        channels := channels + [channel];
        todo := todo - {channel};
      }
      if |channels| > 0 {
        sub.lastActive := now;
      }
      return Done, channels;
    }

    method FindByID(id: string) returns (found: Option<Subscription>)
      requires Valid()
      ensures found.Some? <==> id in subChannels
      ensures found.Some? ==> found.value.id == id && exists c :: (c, found.value) in Pairs(subscriptions)
    {
      FindableIds(subscriptions, subChannels, id);
      var todo := subscriptions.Keys;
      while todo != {}
        invariant todo <= subscriptions.Keys
        invariant forall p :: p in Pairs(subscriptions) && p.0 !in todo ==> p.1.id != id
      {
        var channel :| channel in todo;
        var subs := subscriptions[channel];
        while subs != {}
          invariant subs <= subscriptions[channel]
          invariant forall s :: s in subscriptions[channel] - subs ==> s.id != id
        {
          var sub :| sub in subs;
          if sub.id == id {
            assert (channel, sub) in Pairs(subscriptions);
            return Some(sub);
          }
          subs := subs - {sub};
        }
        todo := todo - {channel};
      }
      return None;
    }

    /** Takes one stale subscription out of one channel, and closes it. */
    method Evict(channel: string, sub: Subscription)
      requires Agree(subscriptions, subChannels) && DistinctIds(subscriptions)
      requires In(subscriptions, channel, sub)
      modifies this, sub`closed
      ensures Agree(subscriptions, subChannels) && DistinctIds(subscriptions)
      ensures subscriptions == Cut(old(subscriptions), channel, sub)
      ensures Pairs(subscriptions) == old(Pairs(subscriptions)) - {(channel, sub)}
      ensures sub.closed
    {
      UnlinkKeeps(subscriptions, subChannels, channel, sub);
      subscriptions := subscriptions[channel := subscriptions[channel] - {sub}];
      Unlink(sub.id, channel);
      if !sub.closed {
        sub.closed := true;
      }
    }

    /** Removes the stale subscriptions of one channel; the channel stays, possibly empty. */
    method EvictStale(channel: string, now: int, ghost stale: set<Subscription>) returns (removed: nat)
      requires Agree(subscriptions, subChannels) && DistinctIds(subscriptions)
      requires channel in subscriptions
      requires forall s :: s in subscriptions[channel] ==> (s.Stale(now) <==> s in stale)
      modifies this, subscriptions[channel]`closed
      ensures Agree(subscriptions, subChannels) && DistinctIds(subscriptions)
      ensures subscriptions == old(subscriptions)[channel := old(subscriptions)[channel] - stale]
      ensures Pairs(subscriptions) <= old(Pairs(subscriptions))
      ensures removed == |old(Pairs(subscriptions)) - Pairs(subscriptions)|
      ensures forall s :: s in old(subscriptions)[channel] ==> (s.closed <==> s in stale)
    {
      hide Agree, DistinctIds, Pairs, Kept, Cut, In;
      removed := 0;
      ghost var before := subscriptions;
      var subs := subscriptions[channel];
      var pending := subs;
      KeptAtEnds(subs, stale);
      while pending != {}
        invariant pending <= subs && channel in subscriptions
        invariant subscriptions == before[channel := Kept(subs, stale, pending)]
        invariant Agree(subscriptions, subChannels) && DistinctIds(subscriptions)
        invariant Pairs(subscriptions) <= Pairs(before) && removed == |Pairs(before) - Pairs(subscriptions)|
        invariant forall s :: s in subs ==> (s.Stale(now) <==> s in stale)
        invariant forall s :: s in subs && s in stale && s !in pending ==> s.closed
      {
        var sub :| sub in pending;
        KeptStep(before, channel, subs, stale, pending, sub);
        pending := pending - {sub};
        if sub.closed || now - sub.lastActive > IDLE_TIMEOUT {
          PairRemoved(Pairs(before), Pairs(subscriptions), (channel, sub));
          Evict(channel, sub);
          removed := removed + 1;
        }
      }
    }

    /** Removes the stale subscriptions of one channel, and the channel if none is left. */
    method CleanChannel(channel: string, now: int, ghost stale: set<Subscription>) returns (removed: nat)
      requires Agree(subscriptions, subChannels) && DistinctIds(subscriptions)
      requires channel in subscriptions
      requires forall s :: s in subscriptions[channel] ==> (s.Stale(now) <==> s in stale)
      modifies this, subscriptions[channel]`closed
      ensures Agree(subscriptions, subChannels) && DistinctIds(subscriptions)
      ensures subscriptions == if old(subscriptions)[channel] <= stale then old(subscriptions) - {channel}
                               else old(subscriptions)[channel := old(subscriptions)[channel] - stale]
      ensures Pairs(subscriptions) <= old(Pairs(subscriptions))
      ensures removed == |old(Pairs(subscriptions)) - Pairs(subscriptions)|
      ensures forall s :: s in old(subscriptions)[channel] ==> (s.closed <==> s in stale)
    {
      hide Agree, DistinctIds, Pairs;
      removed := EvictStale(channel, now, stale);
      if |subscriptions[channel]| == 0 {
        DropEmptyKeeps(subscriptions, subChannels, channel);
        assert old(subscriptions)[channel] <= stale by {
          assert forall s :: s in old(subscriptions)[channel] && s !in stale ==> s in subscriptions[channel];
        }
        subscriptions := subscriptions - {channel};
      }
    }

    /** Cleans every channel.  `all` holds the stored subscriptions, `stale` those to be removed. */
    method CleanChannels(now: int, ghost all: set<Subscription>, ghost stale: set<Subscription>)
      returns (removed: nat)
      requires Agree(subscriptions, subChannels) && DistinctIds(subscriptions)
      requires forall c :: c in subscriptions ==> subscriptions[c] <= all
      requires forall s :: s in all ==> (s.Stale(now) <==> s in stale)
      modifies this, all`closed
      ensures Agree(subscriptions, subChannels) && DistinctIds(subscriptions)
      ensures subscriptions == Swept(old(subscriptions), stale, {})
      ensures removed == |Pairs(old(subscriptions)) - Pairs(subscriptions)|
      ensures forall c, s :: c in old(subscriptions) && s in old(subscriptions)[c] ==> (s.closed <==> s in stale)
    {
      hide Agree, DistinctIds, Pairs, In;
      removed := 0;
      ghost var before := subscriptions;
      var todo := subscriptions.Keys;
      assert subscriptions == Swept(before, stale, todo);
      while todo != {}
        invariant todo <= before.Keys && subscriptions == Swept(before, stale, todo)
        invariant Agree(subscriptions, subChannels) && DistinctIds(subscriptions)
        invariant Pairs(subscriptions) <= Pairs(before)
        invariant removed == |Pairs(before) - Pairs(subscriptions)|
        invariant forall s :: s in all ==> (s.Stale(now) <==> s in stale)
        invariant forall c, s :: c in before && s in before[c] && c !in todo && s in stale ==> s.closed
      {
        var channel :| channel in todo;
        ghost var pairs := Pairs(subscriptions);
        SweepOne(before, stale, todo, channel);
        hide Swept;
        var n := CleanChannel(channel, now, stale);
        PairsRemoved(Pairs(before), pairs, Pairs(subscriptions));
        removed := removed + n;
        todo := todo - {channel};
      }
    }

    /** Cleanup keeps exactly the pairs whose subscription was open and recent, counts the pairs it
        removes, and closes every subscription it removes. */
    method CleanClosedSubscriptions(now: int) returns (removed: nat)
      requires Valid()
      modifies this, Subs()`closed
      ensures Valid()
      ensures Pairs(subscriptions) == set p | p in old(Pairs(subscriptions)) && !old(p.1.Stale(now))
      ensures removed == |old(Pairs(subscriptions)) - Pairs(subscriptions)|
      ensures forall p :: p in old(Pairs(subscriptions)) ==> p.1.closed == old(p.1.Stale(now))
    {
      ghost var all := Subs();
      ghost var stale := set s | s in all && s.Stale(now);
      assert forall c :: c in subscriptions ==> subscriptions[c] <= all;
      SweptPairs(subscriptions, stale);
      hide Agree, DistinctIds, NoneEmpty, Pairs, Swept;
      removed := CleanChannels(now, all, stale);
    }
  }

  lemma PairRemoved(all: set<Pair>, left: set<Pair>, p: Pair)
    requires left <= all && p in left
    ensures |all - (left - {p})| == |all - left| + 1
  {
    assert all - (left - {p}) == (all - left) + {p};
  }

  lemma PairsRemoved(all: set<Pair>, left: set<Pair>, last: set<Pair>)
    requires last <= left <= all
    ensures |all - last| == |all - left| + |left - last|
  {
    assert all - last == (all - left) + (left - last);
  }
}
