/**
 The shape every test of the suite has: a synchronous burst of writes to one
 channel, then `await obj.wait('update')`. What a listener observes across
 that step depends only on where it is registered.
 */
module Awaiting {
  import opened Values
  import opened Registry
  import opened Engine
  import opened Invariants
  import opened Settling
  import opened Properties
  import opened Bursts

  /** At most channel `id` has a flush scheduled. */
  ghost predicate OnlyScheduled(s: State, id: Id) {
    forall x :: x in s.queue ==> x == id
  }

  /** Writes to `id`, then `await at.wait('update')`. */
  ghost function BurstThenAwait(s: State, depth: map<Id, nat>, id: Id, ws: seq<Write>, at: Id): (r: State)
    requires Wf(s) && id in s.props && RefsIn(s, ws) && Ranked(Burst(s, id, ws), depth) && at in s.props
    ensures Wf(r) && Ranked(r, depth) && r.queue == [] && r.props == Burst(s, id, ws).props
    ensures r.nextId == s.nextId && r.nextWaiter == s.nextWaiter + 1
  {
    BurstWf(s, id, ws);
    BurstNextWaiter(s, id, ws);
    BurstNextId(s, id, ws);
    AwaitUpdate(Burst(s, id, ws), depth, at)
  }

  /** With nothing else scheduled, a burst leaves exactly the flush of `id` queued. */
  lemma BurstQueueSingle(s: State, id: Id, ws: seq<Write>)
    requires Wf(s) && OnlyScheduled(s, id) && id in s.props && ws != []
    ensures Burst(s, id, ws).queue == [id]
    ensures Burst(s, id, ws).trace == s.trace && Burst(s, id, ws).nextWaiter == s.nextWaiter
  {
    BurstCoalesces(s, id, ws);
    BurstNextWaiter(s, id, ws);
    FirstTwo(s.queue);
    if id in s.pending {
      SingletonQueue(s.queue, id);
    }
  }

  lemma {:induction false} BurstNextWaiter(s: State, id: Id, ws: seq<Write>)
    requires id in s.props
    ensures Burst(s, id, ws).nextWaiter == s.nextWaiter && Burst(s, id, ws).trace == s.trace
    decreases |ws|
  {
    if ws != [] {
      BurstNextWaiter(Apply(s, id, ws[0]), id, ws[1..]);
    }
  }

  lemma {:induction false} BurstNextId(s: State, id: Id, ws: seq<Write>)
    requires id in s.props
    ensures Burst(s, id, ws).nextId == s.nextId
    decreases |ws|
  {
    if ws != [] {
      BurstNextId(Apply(s, id, ws[0]), id, ws[1..]);
    }
  }

  /** `wait('update')` leaves every other callback's registrations, the queue and the record alone. */
  lemma WaitKeeps(s: State, at: Id, cb: Callback)
    requires at in s.listeners && cb != Waiter(s.nextWaiter)
    ensures var t := Wait(s, at, Update);
      && t.queue == s.queue && t.trace == s.trace && t.props == s.props
      && (forall c, ev :: Count(Entries(t, c, ev), cb) == Count(Entries(s, c, ev), cb))
      && forall c: Id, ev: string, e: Entry :: e.cb == cb ==> (e in Entries(t, c, ev) <==> e in Entries(s, c, ev))
  {
    var t := Wait(s, at, Update);
    var e0 := Entry(Waiter(s.nextWaiter), true);
    assert Entries(t, at, Update) == Entries(s, at, Update) + [e0];
    forall c, ev | c != at || ev != Update ensures Entries(t, c, ev) == Entries(s, c, ev) {
    }
    CountAppend(Entries(s, at, Update), e0, cb);
    forall c, ev ensures Count(Entries(t, c, ev), cb) == Count(Entries(s, c, ev), cb) {
    }
    forall c: Id, ev: string, e: Entry | e.cb == cb ensures e in Entries(t, c, ev) <==> e in Entries(s, c, ev) {
    }
  }

  /**
   A listener registered once for `update` on the written channel, and
   nowhere else, is called exactly once with no payload, wherever the awaited
   promise is registered; a `once` listener is then gone.
   */
  lemma AwaitOwnUpdate(s: State, depth: map<Id, nat>, id: Id, ws: seq<Write>, at: Id, cb: Callback)
    requires Wf(s) && OnlyScheduled(s, id) && id in s.props && ws != [] && RefsIn(s, ws)
    requires Ranked(Burst(s, id, ws), depth) && at in s.props
    requires cb.Counter? && Count(Entries(s, id, Update), cb) == 1 && RegisteredOnlyAt(s, cb, id)
    ensures CallsOf(BurstThenAwait(s, depth, id, ws, at).trace, cb) == CallsOf(s.trace, cb) + [[]]
    ensures (forall e :: e in Entries(s, id, Update) && e.cb == cb ==> e.once) ==>
      Unregistered(BurstThenAwait(s, depth, id, ws, at), cb)
  {
    var b := Burst(s, id, ws);
    BurstWf(s, id, ws);
    BurstQueueSingle(s, id, ws);
    BurstKeepsUserEntries(s, id, ws);
    var t := Wait(b, at, Update);
    WaitOnUpdate(b, at);
    WaitKeeps(b, at, cb);
    FlushNotifiesOnce(t, depth, id, cb);
  }

  /** A listener registered nowhere is not called. */
  lemma AwaitSilent(s: State, depth: map<Id, nat>, id: Id, ws: seq<Write>, at: Id, cb: Callback)
    requires Wf(s) && id in s.props && RefsIn(s, ws) && Ranked(Burst(s, id, ws), depth) && at in s.props
    requires cb.Counter? && Unregistered(s, cb)
    ensures CallsOf(BurstThenAwait(s, depth, id, ws, at).trace, cb) == CallsOf(s.trace, cb)
    ensures Unregistered(BurstThenAwait(s, depth, id, ws, at), cb)
  {
    var b := Burst(s, id, ws);
    BurstWf(s, id, ws);
    BurstNextWaiter(s, id, ws);
    BurstKeepsUserEntries(s, id, ws);
    var t := Wait(b, at, Update);
    WaitOnUpdate(b, at);
    WaitKeeps(b, at, cb);
    SettleUnregistered(t, depth, cb);
  }

  /** A listener registered only on a channel strictly below the written one is not called. */
  lemma AwaitBelow(s: State, depth: map<Id, nat>, id: Id, ws: seq<Write>, at: Id, cb: Callback, c: Id)
    requires Wf(s) && OnlyScheduled(s, id) && id in s.props && ws != [] && RefsIn(s, ws)
    requires Ranked(Burst(s, id, ws), depth) && at in s.props
    requires cb.Counter? && RegisteredOnlyAt(s, cb, c) && c in depth && depth[id] < depth[c]
    ensures CallsOf(BurstThenAwait(s, depth, id, ws, at).trace, cb) == CallsOf(s.trace, cb)
  {
    var b := Burst(s, id, ws);
    BurstWf(s, id, ws);
    BurstQueueSingle(s, id, ws);
    BurstKeepsUserEntries(s, id, ws);
    var t := Wait(b, at, Update);
    WaitOnUpdate(b, at);
    WaitKeeps(b, at, cb);
    SameUserEntriesOnlyAt(s, b, cb, c);
    assert RegisteredOnlyAt(t, cb, c) by {
      forall c', ev | Count(Entries(t, c', ev), cb) > 0 ensures c' == c && ev == Update {
        assert Count(Entries(b, c', ev), cb) > 0;
      }
    }
    SettleBelow(t, depth, id, cb, c);
    assert BurstThenAwait(s, depth, id, ws, at) == Settle(t, depth);
  }

  /** Draining a single flush of `id` does not reach a listener registered only deeper than `id`. */
  lemma SettleBelow(t: State, depth: map<Id, nat>, id: Id, cb: Callback, c: Id)
    requires Wf(t) && Ranked(t, depth) && t.queue == [id] && c in depth && id in depth && depth[id] < depth[c]
    requires RegisteredOnlyAt(t, cb, c)
    ensures CallsOf(Settle(t, depth).trace, cb) == CallsOf(t.trace, cb)
  {
    SettleAbove(t, depth, cb, c);
  }

  /** A callback registered only at `c` stays so across a change that keeps user registrations. */
  lemma SameUserEntriesOnlyAt(s: State, t: State, cb: Callback, c: Id)
    requires SameUserEntries(s, t) && !cb.Forward? && RegisteredOnlyAt(s, cb, c)
    ensures RegisteredOnlyAt(t, cb, c)
  {
    forall c', ev | Count(Entries(t, c', ev), cb) > 0 ensures c' == c && ev == Update {
      assert Count(Entries(s, c', ev), cb) > 0;
    }
  }

  /** Awaiting the written channel's own `update` completes: the promise is resolved exactly once. */
  lemma AwaitOwnResolves(s: State, depth: map<Id, nat>, id: Id, ws: seq<Write>)
    requires Wf(s) && id in s.props && ws != [] && RefsIn(s, ws) && Ranked(Burst(s, id, ws), depth)
    ensures CallsOf(BurstThenAwait(s, depth, id, ws, id).trace, Waiter(s.nextWaiter)) == [[]]
  {
    var b := Burst(s, id, ws);
    BurstWf(s, id, ws);
    BurstCoalesces(s, id, ws);
    BurstNextWaiter(s, id, ws);
    AwaitUpdateCompletes(b, depth, id);
  }

  /** The forwarders on `c` are unchanged by a `wait`. */
  lemma WaitKeepsParents(s: State, at: Id, c: Id)
    requires at in s.listeners
    ensures UpdateParents(Wait(s, at, Update).listeners, c) == UpdateParents(s.listeners, c)
  {
    if c == at {
      ParentsAppend(Entries(s, at, Update), Entry(Waiter(s.nextWaiter), true));
    } else {
      assert Entries(Wait(s, at, Update), c, Update) == Entries(s, c, Update);
    }
  }

  /**
   Writes to a child that only `p` holds: a listener registered once for
   `update` on `p`, and nowhere else, is called exactly once with no payload.
   */
  lemma AwaitParent(s: State, depth: map<Id, nat>, p: Id, name: string, c: Id, ws: seq<Write>, at: Id, cb: Callback)
    requires Wf(s) && OnlyScheduled(s, c) && c in s.props && ws != [] && RefsIn(s, ws)
    requires Ranked(Burst(s, c, ws), depth) && Linked(Burst(s, c, ws), p, name, c)
    requires forall q :: q in UpdateParents(Burst(s, c, ws).listeners, c) ==> q == p
    requires at in s.props
    requires cb.Counter? && Count(Entries(s, p, Update), cb) == 1 && RegisteredOnlyAt(s, cb, p)
    ensures CallsOf(BurstThenAwait(s, depth, c, ws, at).trace, cb) == CallsOf(s.trace, cb) + [[]]
  {
    var b := Burst(s, c, ws);
    BurstWf(s, c, ws);
    BurstQueueSingle(s, c, ws);
    BurstKeepsUserEntries(s, c, ws);
    var t := Wait(b, at, Update);
    WaitOnUpdate(b, at);
    WaitKeeps(b, at, cb);
    WaitKeepsParents(b, at, c);
    FlushChildSchedulesParent(t, depth, p, name, c, cb);
    FlushNotifiesOnce(FlushOne(t), depth, p, cb);
  }

  /** Awaiting the parent's `update` after writes to its only-held child completes, exactly once. */
  lemma AwaitParentResolves(s: State, depth: map<Id, nat>, p: Id, name: string, c: Id, ws: seq<Write>)
    requires Wf(s) && OnlyScheduled(s, c) && c in s.props && ws != [] && RefsIn(s, ws)
    requires Ranked(Burst(s, c, ws), depth) && Linked(Burst(s, c, ws), p, name, c)
    requires forall q :: q in UpdateParents(Burst(s, c, ws).listeners, c) ==> q == p
    ensures CallsOf(BurstThenAwait(s, depth, c, ws, p).trace, Waiter(s.nextWaiter)) == [[]]
  {
    var b := Burst(s, c, ws);
    BurstWf(s, c, ws);
    BurstQueueSingle(s, c, ws);
    var w := Waiter(b.nextWaiter);
    var t := Wait(b, p, Update);
    WaitOnUpdate(b, p);
    WaitKeepsParents(b, p, c);
    FlushChildSchedulesParent(t, depth, p, name, c, w);
    SettleResolves(FlushOne(t), depth, p, w);
  }

  /** Persistent registrations survive a burst and its `await`. */
  lemma AwaitKeepsPersistent(s: State, depth: map<Id, nat>, id: Id, ws: seq<Write>, at: Id, cb: Callback)
    requires Wf(s) && id in s.props && RefsIn(s, ws) && Ranked(Burst(s, id, ws), depth) && at in s.props
    requires cb.Counter? && Persists(s, cb)
    ensures forall c, ev :: Count(Entries(BurstThenAwait(s, depth, id, ws, at), c, ev), cb) == Count(Entries(s, c, ev), cb)
    ensures Persists(BurstThenAwait(s, depth, id, ws, at), cb)
  {
    var b := Burst(s, id, ws);
    BurstWf(s, id, ws);
    BurstNextWaiter(s, id, ws);
    BurstKeepsUserEntries(s, id, ws);
    var t := Wait(b, at, Update);
    WaitOnUpdate(b, at);
    WaitKeeps(b, at, cb);
    SettleKeepsPersistent(t, depth, cb);
  }

  /** The parent-child subscriptions after an `await` are those the burst left. */
  lemma AwaitKeepsParents(s: State, depth: map<Id, nat>, id: Id, ws: seq<Write>, at: Id)
    requires Wf(s) && id in s.props && RefsIn(s, ws) && Ranked(Burst(s, id, ws), depth) && at in s.props
    ensures forall c :: UpdateParents(BurstThenAwait(s, depth, id, ws, at).listeners, c) == UpdateParents(Burst(s, id, ws).listeners, c)
  {
    var b := Burst(s, id, ws);
    BurstWf(s, id, ws);
    var t := Wait(b, at, Update);
    WaitOnUpdate(b, at);
    forall c ensures UpdateParents(t.listeners, c) == UpdateParents(b.listeners, c) {
      WaitKeepsParents(b, at, c);
    }
    SettleKeepsParents(t, depth);
  }

  // ---------------------------------------------------------------------
  // Setting up listeners
  // ---------------------------------------------------------------------

  /** No channel, no registration. */
  lemma EmptyUnregistered(cb: Callback)
    ensures Unregistered(Empty, cb)
  {
  }

  /** A new channel has no listener, so building one changes no callback's registrations. */
  lemma NewChannelKeeps(s: State, cb: Callback)
    requires Wf(s)
    ensures forall c, ev :: Count(Entries(NewChannel(s), c, ev), cb) == Count(Entries(s, c, ev), cb)
    ensures Persists(s, cb) ==> Persists(NewChannel(s), cb)
  {
    assert s.nextId !in s.listeners;
    forall c, ev ensures Entries(NewChannel(s), c, ev) == Entries(s, c, ev) {
    }
  }

  /** `on('update', cb)` for a callback registered nowhere yet: its only registration. */
  lemma OnFirst(s: State, id: Id, cb: Callback)
    requires id in s.listeners && Unregistered(s, cb)
    ensures var r := On(s, id, Update, cb);
      Count(Entries(r, id, Update), cb) == 1 && RegisteredOnlyAt(r, cb, id) && Persists(r, cb)
  {
    var r := On(s, id, Update, cb);
    CountAppend(Entries(s, id, Update), Entry(cb, false), cb);
    forall c, ev | c != id || ev != Update ensures Entries(r, c, ev) == Entries(s, c, ev) {
    }
  }

  /** `once('update', cb)` for a callback registered nowhere yet: its only registration, one-shot. */
  lemma OnceFirst(s: State, id: Id, cb: Callback)
    requires id in s.listeners && Unregistered(s, cb)
    ensures var r := Once(s, id, Update, cb);
      && Count(Entries(r, id, Update), cb) == 1 && RegisteredOnlyAt(r, cb, id)
      && forall e :: e in Entries(r, id, Update) && e.cb == cb ==> e.once
  {
    var r := Once(s, id, Update, cb);
    CountAppend(Entries(s, id, Update), Entry(cb, true), cb);
    forall c, ev | c != id || ev != Update ensures Entries(r, c, ev) == Entries(s, c, ev) {
    }
  }

  /** `on(ev, other)` changes no other callback's registrations. */
  lemma OnOther(s: State, id: Id, ev: string, other: Callback, cb: Callback)
    requires id in s.listeners && other != cb
    ensures forall c, ev' :: Count(Entries(On(s, id, ev, other), c, ev'), cb) == Count(Entries(s, c, ev'), cb)
    ensures Persists(s, cb) ==> Persists(On(s, id, ev, other), cb)
  {
    CountAppend(Entries(s, id, ev), Entry(other, false), cb);
    forall c, ev' | c != id || ev' != ev ensures Entries(On(s, id, ev, other), c, ev') == Entries(s, c, ev') {
    }
  }

  // ---------------------------------------------------------------------
  // Depths for the programs the suite builds
  // ---------------------------------------------------------------------

  /** A new channel holds nothing and nobody holds it, so any depth ranks it. */
  lemma RankedNew(s: State, depth: map<Id, nat>, d: nat)
    requires Ranked(s, depth) && s.nextId !in s.props
    ensures Ranked(NewChannel(s), depth[s.nextId := d])
  {
  }

  /** A write keeps a ranking when the channel it stores, if any, is ranked deeper. */
  lemma RankedWrite(s: State, depth: map<Id, nat>, id: Id, w: Write)
    requires Ranked(s, depth) && id in s.props
    requires w.Assign? && w.v.Ref? ==> w.v.id in depth && depth[id] < depth[w.v.id]
    ensures Ranked(Apply(s, id, w), depth)
  {
  }

  /** The channel a write stores, if any, is ranked deeper than the channel written to. */
  ghost predicate Deeper(depth: map<Id, nat>, id: Id, w: Write) {
    w.Assign? && w.v.Ref? ==> w.v.id in depth && id in depth && depth[id] < depth[w.v.id]
  }

  /** A burst whose every stored channel is ranked deeper keeps the ranking and stores only live channels. */
  lemma {:induction false} RankedBurst(s: State, depth: map<Id, nat>, id: Id, ws: seq<Write>)
    requires Ranked(s, depth) && id in s.props
    requires forall i :: 0 <= i < |ws| ==> Deeper(depth, id, ws[i])
    ensures RefsIn(s, ws) && Ranked(Burst(s, id, ws), depth)
    decreases |ws|
  {
    if ws != [] {
      RankedWrite(s, depth, id, ws[0]);
      assert forall i :: 0 <= i < |ws[1..]| ==> ws[1..][i] == ws[i + 1];
      RankedBurst(Apply(s, id, ws[0]), depth, id, ws[1..]);
    }
  }

  // ---------------------------------------------------------------------
  // Listeners carried from one step of a program to the next
  // ---------------------------------------------------------------------

  /** `cb` is registered exactly once, persistently, for `update` on `id`, and nowhere else. */
  ghost predicate ListensTo(s: State, cb: Callback, id: Id) {
    Count(Entries(s, id, Update), cb) == 1 && RegisteredOnlyAt(s, cb, id) && Persists(s, cb)
  }

  lemma AwaitKeepsListener(s: State, depth: map<Id, nat>, id: Id, ws: seq<Write>, at: Id, cb: Callback, c: Id)
    requires Wf(s) && id in s.props && RefsIn(s, ws) && Ranked(Burst(s, id, ws), depth) && at in s.props
    requires cb.Counter? && ListensTo(s, cb, c)
    ensures ListensTo(BurstThenAwait(s, depth, id, ws, at), cb, c)
  {
    AwaitKeepsPersistent(s, depth, id, ws, at, cb);
  }

  lemma NewChannelKeepsListener(s: State, cb: Callback, c: Id)
    requires Wf(s) && ListensTo(s, cb, c)
    ensures ListensTo(NewChannel(s), cb, c)
  {
    NewChannelKeeps(s, cb);
  }

  lemma OnKeepsListener(s: State, id: Id, ev: string, other: Callback, cb: Callback, c: Id)
    requires id in s.listeners && other != cb && ListensTo(s, cb, c)
    ensures ListensTo(On(s, id, ev, other), cb, c)
  {
    OnOther(s, id, ev, other, cb);
  }

  /** When `p` is the only holder of `c`, `p` is the only parent `c` forwards its `update` to. */
  lemma HeldOnlyBy(s: State, p: Id, c: Id)
    requires Wf(s) && forall q, n :: Linked(s, q, n, c) ==> q == p
    ensures forall q :: q in UpdateParents(s.listeners, c) ==> q == p
  {
    forall q | q in UpdateParents(s.listeners, c) ensures q == p {
      var e := ParentEntry(EntriesIn(s.listeners, c, Update), q);
      ForwarderLinked(s, c, Update, e);
    }
  }
}
