/**
 Synchronous bursts of property writes and the coalescing they get: however
 many writes run before the next flush boundary, a listener of `update`
 hears about them once.
 */
module Bursts {
  import opened Values
  import opened Registry
  import opened Engine
  import opened Invariants
  import opened Settling
  import opened Properties

  /** One synchronous write to a property: an assignment or a `delete`. */
  datatype Write = Assign(name: string, v: Value) | Remove(name: string)

  function Apply(s: State, id: Id, w: Write): (r: State)
    requires id in s.props
    ensures r.props.Keys == s.props.Keys
  {
    match w
    case Assign(n, v) => Set(s, id, n, v)
    case Remove(n) => Delete(s, id, n)
  }

  /** The writes run one after another on channel `id`, with no flush in between. */
  function Burst(s: State, id: Id, ws: seq<Write>): (r: State)
    requires id in s.props
    ensures r.props.Keys == s.props.Keys
    decreases |ws|
  {
    if ws == [] then s else Burst(Apply(s, id, ws[0]), id, ws[1..])
  }

  /** Every channel assigned by the writes is live. */
  ghost predicate RefsIn(s: State, ws: seq<Write>) {
    forall i :: 0 <= i < |ws| && ws[i].Assign? && ws[i].v.Ref? ==> ws[i].v.id in s.props
  }

  lemma ApplyWf(s: State, id: Id, w: Write)
    requires Wf(s) && id in s.props && (w.Assign? && w.v.Ref? ==> w.v.id in s.props)
    ensures Wf(Apply(s, id, w))
  {
    match w
    case Assign(n, v) => SetWf(s, id, n, v);
    case Remove(n) => DeleteWf(s, id, n);
  }

  lemma {:induction false} BurstWf(s: State, id: Id, ws: seq<Write>)
    requires Wf(s) && id in s.props && RefsIn(s, ws)
    ensures Wf(Burst(s, id, ws))
    decreases |ws|
  {
    if ws != [] {
      var s1 := Apply(s, id, ws[0]);
      ApplyWf(s, id, ws[0]);
      assert RefsIn(s1, ws[1..]) by {
        assert forall i :: 0 <= i < |ws[1..]| ==> ws[1..][i] == ws[i + 1];
      }
      BurstWf(s1, id, ws[1..]);
    }
  }

  /**
   A burst of any positive number of writes leaves exactly one flush of the
   channel scheduled: appended to the queue unless one was already pending.
   Nothing is called during the burst.
   */
  lemma {:induction false} BurstCoalesces(s: State, id: Id, ws: seq<Write>)
    requires id in s.props && ws != []
    ensures var r := Burst(s, id, ws);
      && r.queue == (if id in s.pending then s.queue else s.queue + [id])
      && r.pending == s.pending + {id}
      && r.trace == s.trace
    decreases |ws|
  {
    var s1 := Apply(s, id, ws[0]);
    if ws[1..] != [] {
      BurstCoalesces(s1, id, ws[1..]);
    }
  }

  /** The registrations of user callbacks are the same in both states. */
  ghost predicate SameUserEntries(s: State, t: State) {
    && (forall c: Id, ev: string, e: Entry :: !e.cb.Forward? ==> (e in Entries(s, c, ev) <==> e in Entries(t, c, ev)))
    && (forall c: Id, ev: string, cb: Callback :: !cb.Forward? ==> Count(Entries(s, c, ev), cb) == Count(Entries(t, c, ev), cb))
  }

  /** Tearing down a link touches forwarders only. */
  lemma UnlinkKeepsUserEntries(s: State, id: Id, name: string)
    requires id in s.props
    ensures SameUserEntries(s, Unlink(s, id, name))
  {
    if name in s.props[id] && s.props[id][name].Ref? && s.props[id][name].id in s.listeners {
      var c := s.props[id][name].id;
      var f := Forward(id, name);
      var s1 := Unlink(s, id, name);
      assert s1 == WithEntries(s, c, Update, Without(Entries(s, c, Update), f));
      forall c': Id, ev: string | c' != c || ev != Update
        ensures Entries(s1, c', ev) == Entries(s, c', ev)
      {
      }
      forall c': Id, ev: string, e: Entry | !e.cb.Forward?
        ensures e in Entries(s, c', ev) <==> e in Entries(s1, c', ev)
      {
      }
      forall c': Id, ev: string, cb: Callback | !cb.Forward?
        ensures Count(Entries(s, c', ev), cb) == Count(Entries(s1, c', ev), cb)
      {
        if c' == c && ev == Update {
          CountWithout(Entries(s, c, Update), f, cb);
        }
      }
    }
  }

  /** Establishing a link touches forwarders only. */
  lemma LinkKeepsUserEntries(s: State, id: Id, name: string, v: Value)
    ensures SameUserEntries(s, Link(s, id, name, v))
  {
    if v.Ref? && v.id in s.listeners {
      var t := Link(s, id, name, v);
      var f := Entry(Forward(id, name), false);
      assert Entries(t, v.id, Update) == Entries(s, v.id, Update) + [f];
      forall c, ev | c != v.id || ev != Update ensures Entries(t, c, ev) == Entries(s, c, ev) {
      }
      forall c: Id, ev: string, e: Entry | !e.cb.Forward? ensures e in Entries(s, c, ev) <==> e in Entries(t, c, ev) {
      }
      forall c: Id, ev: string, cb: Callback | !cb.Forward?
        ensures Count(Entries(s, c, ev), cb) == Count(Entries(t, c, ev), cb)
      {
        if c == v.id && ev == Update {
          CountAppend(Entries(s, v.id, Update), f, cb);
        }
      }
    }
  }

  lemma SameUserEntriesTrans(s: State, t: State, u: State)
    requires SameUserEntries(s, t) && (SameUserEntries(t, u) || t.listeners == u.listeners)
    ensures SameUserEntries(s, u)
  {
  }

  /** Property writes touch forwarders only. */
  lemma WritesKeepUserEntries(s: State, id: Id, w: Write)
    requires id in s.props
    ensures SameUserEntries(s, Apply(s, id, w))
  {
    var s1 := Unlink(s, id, w.name);
    UnlinkKeepsUserEntries(s, id, w.name);
    match w
    case Remove(n) =>
      SameUserEntriesTrans(s, s1, Delete(s, id, n));
    case Assign(n, v) =>
      var s2 := WithProps(s1, id, s1.props[id][n := v]);
      SameUserEntriesTrans(s, s1, s2);
      LinkKeepsUserEntries(s2, id, n, v);
      SameUserEntriesTrans(s, s2, Link(s2, id, n, v));
      SameUserEntriesTrans(s, Link(s2, id, n, v), Set(s, id, n, v));
  }

  lemma {:induction false} BurstKeepsUserEntries(s: State, id: Id, ws: seq<Write>)
    requires id in s.props
    ensures SameUserEntries(s, Burst(s, id, ws))
    decreases |ws|
  {
    if ws != [] {
      WritesKeepUserEntries(s, id, ws[0]);
      BurstKeepsUserEntries(Apply(s, id, ws[0]), id, ws[1..]);
    }
  }

  /**
   With `id` the only channel scheduled, draining the queue calls a callback
   registered once for `update` on `id`, and nowhere else, exactly once with
   no payload; a one-shot registration is then gone.
   */
  lemma FlushNotifiesOnce(s: State, depth: map<Id, nat>, id: Id, cb: Callback)
    requires Wf(s) && Ranked(s, depth) && s.queue == [id] && !cb.Forward?
    requires Count(Entries(s, id, Update), cb) == 1 && RegisteredOnlyAt(s, cb, id)
    ensures CallsOf(Settle(s, depth).trace, cb) == CallsOf(s.trace, cb) + [[]]
    ensures (forall e :: e in Entries(s, id, Update) && e.cb == cb ==> e.once) ==>
      Unregistered(Settle(s, depth), cb)
  {
    var s1, es := FlushShape(s);
    FlushDecreases(s, depth);
    assert forall c, ev :: Entries(s1, c, ev) == Entries(s, c, ev);
    var r := FlushOne(s);
    EmitCallsOnce(s1, id, Update, [], cb);
    EmitInOrder(s1, id, Update, []);
    RankedParents(s, depth);
    forall y | y in r.queue ensures y in depth && depth[y] < depth[id] {
      assert y in r.pending && y !in s1.pending;
      assert y in UpdateParents(s.listeners, id);
    }
    SettleAbove(r, depth, cb, id);
    if forall e :: e in Entries(s, id, Update) && e.cb == cb ==> e.once {
      EmitUnregistersOnce(s1, id, Update, [], cb);
      assert Unregistered(r, cb);
      SettleUnregistered(r, depth, cb);
    }
  }

  /** A burst, then a drain: the burst and its drain as one step. */
  ghost function BurstThenSettle(s: State, depth: map<Id, nat>, id: Id, ws: seq<Write>): (r: State)
    requires Wf(s) && id in s.props && RefsIn(s, ws) && Ranked(Burst(s, id, ws), depth)
    ensures Wf(r) && r.queue == [] && r.props == Burst(s, id, ws).props
  {
    BurstWf(s, id, ws);
    Settle(Burst(s, id, ws), depth)
  }

  /**
   The coalescing invariant: any positive number of synchronous writes to a
   quiescent channel gives a listener of its `update` exactly one call, with
   no payload; a `once` listener is then unregistered.
   */
  lemma BurstNotifiesOnce(s: State, depth: map<Id, nat>, id: Id, ws: seq<Write>, cb: Callback)
    requires Wf(s) && s.queue == [] && id in s.props && ws != [] && RefsIn(s, ws)
    requires Ranked(Burst(s, id, ws), depth)
    requires !cb.Forward? && Count(Entries(s, id, Update), cb) == 1 && RegisteredOnlyAt(s, cb, id)
    ensures CallsOf(BurstThenSettle(s, depth, id, ws).trace, cb) == CallsOf(s.trace, cb) + [[]]
    ensures (forall e :: e in Entries(s, id, Update) && e.cb == cb ==> e.once) ==>
      Unregistered(BurstThenSettle(s, depth, id, ws), cb)
  {
    var b := Burst(s, id, ws);
    BurstWf(s, id, ws);
    BurstCoalesces(s, id, ws);
    BurstKeepsUserEntries(s, id, ws);
    assert s.pending == {} by {
      assert forall x :: x in s.queue <==> x in s.pending;
    }
    assert b.queue == [id];
    FlushNotifiesOnce(b, depth, id, cb);
  }

  /** A callback registered nowhere stays silent through any burst and its drain. */
  lemma SilentThroughBurst(s: State, depth: map<Id, nat>, id: Id, ws: seq<Write>, cb: Callback)
    requires Wf(s) && id in s.props && RefsIn(s, ws) && Ranked(Burst(s, id, ws), depth)
    requires !cb.Forward? && Unregistered(s, cb)
    ensures CallsOf(BurstThenSettle(s, depth, id, ws).trace, cb) == CallsOf(s.trace, cb)
    ensures Unregistered(BurstThenSettle(s, depth, id, ws), cb)
  {
    BurstWf(s, id, ws);
    BurstKeepsUserEntries(s, id, ws);
    if ws != [] {
      BurstCoalesces(s, id, ws);
    }
    SettleUnregistered(Burst(s, id, ws), depth, cb);
  }

  lemma SingletonQueue(q: seq<Id>, p: Id)
    requires NoDup(q) && p in q && forall x :: x in q ==> x == p
    ensures q == [p]
  {
    FirstTwo(q);
    if |q| > 1 {
      assert false;
    }
  }

  lemma FirstTwo(q: seq<Id>)
    ensures |q| > 0 ==> q[0] in q
    ensures |q| > 1 ==> q[1] in q
  {
  }

  /** Flushing a child that only `p` holds schedules `p` alone. */
  lemma FlushChildQueue(b: State, p: Id, name: string, c: Id)
    requires Wf(b) && b.queue == [c] && Linked(b, p, name, c)
    requires forall q :: q in UpdateParents(b.listeners, c) ==> q == p
    ensures FlushOne(b).queue == [p] && FlushOne(b).pending == {p}
  {
    FlushOneWf(b);
    assert Count(Entries(b, c, Update), Forward(p, name)) == 1;
    assert b.pending == {c} by {
      assert forall x :: x in b.queue <==> x in b.pending;
    }
    FlushChildPending(b, p, name, c);
    QueueFromPending(FlushOne(b), p);
  }

  lemma FlushChildPending(b: State, p: Id, name: string, c: Id)
    requires b.queue == [c] && b.pending == {c}
    requires Count(Entries(b, c, Update), Forward(p, name)) == 1
    requires forall q :: q in UpdateParents(b.listeners, c) ==> q == p
    ensures FlushOne(b).pending == {p}
  {
    var s1, es := FlushShape(b);
    EmitInOrder(s1, c, Update, []);
    assert Entries(s1, c, Update) == es;
    var e :| e in es && e.cb == Forward(p, name);
    ParentsForward(es, e);
    forall y | y in Parents(es) ensures y == p {
      assert y in UpdateParents(b.listeners, c);
    }
  }

  lemma QueueFromPending(r: State, p: Id)
    requires Wf(r) && r.pending == {p}
    ensures r.queue == [p]
  {
    SingletonQueue(r.queue, p);
  }

  /** Flushing a child that only `p` holds schedules `p` alone and calls nothing registered on `p`. */
  lemma FlushChildSchedulesParent(b: State, depth: map<Id, nat>, p: Id, name: string, c: Id, cb: Callback)
    requires Wf(b) && Ranked(b, depth) && b.queue == [c] && Linked(b, p, name, c)
    requires forall q :: q in UpdateParents(b.listeners, c) ==> q == p
    requires !cb.Forward? && Count(Entries(b, p, Update), cb) == 1 && RegisteredOnlyAt(b, cb, p)
    ensures var r := FlushOne(b);
      && Wf(r) && Ranked(r, depth) && r.queue == [p] && r.pending == {p}
      && CallsOf(r.trace, cb) == CallsOf(b.trace, cb)
      && Entries(r, p, Update) == Entries(b, p, Update)
      && Count(Entries(r, p, Update), cb) == 1 && RegisteredOnlyAt(r, cb, p)
  {
    var s1, es := FlushShape(b);
    FlushDecreases(b, depth);
    assert p != c by {
      assert depth[p] < depth[c];
    }
    FlushChildQueue(b, p, name, c);
    assert forall x, ev :: Entries(s1, x, ev) == Entries(b, x, ev);
    EmitElsewhere(s1, c, Update, [], cb);
    EmitInOrder(s1, c, Update, []);
  }

  /**
   Propagation without duplication: writes to a child that only `p` holds
   give a listener of `p`'s `update` exactly one call too, once the child's
   own flush has run.
   */
  lemma ChildBurstNotifiesParent(s: State, depth: map<Id, nat>, p: Id, name: string, c: Id, ws: seq<Write>, cb: Callback)
    requires Wf(s) && s.queue == [] && c in s.props && ws != [] && RefsIn(s, ws)
    requires Ranked(Burst(s, c, ws), depth) && Linked(Burst(s, c, ws), p, name, c)
    requires forall q :: q in UpdateParents(Burst(s, c, ws).listeners, c) ==> q == p
    requires !cb.Forward? && Count(Entries(s, p, Update), cb) == 1 && RegisteredOnlyAt(s, cb, p)
    ensures CallsOf(BurstThenSettle(s, depth, c, ws).trace, cb) == CallsOf(s.trace, cb) + [[]]
  {
    var b := Burst(s, c, ws);
    BurstWf(s, c, ws);
    BurstCoalesces(s, c, ws);
    BurstKeepsUserEntries(s, c, ws);
    assert s.pending == {} by {
      assert forall x :: x in s.queue <==> x in s.pending;
    }
    assert b.queue == [c];
    FlushChildSchedulesParent(b, depth, p, name, c, cb);
    FlushNotifiesOnce(FlushOne(b), depth, p, cb);
  }

  lemma BurstOfTwo(s: State, id: Id, w1: Write, w2: Write)
    requires id in s.props
    ensures Burst(s, id, [w1, w2]) == Apply(Apply(s, id, w1), id, w2)
  {
    assert [w1, w2][1..] == [w2];
    BurstStep(s, id, [w1, w2]);
    BurstOfOne(Apply(s, id, w1), id, w2);
  }

  lemma BurstOfOne(s: State, id: Id, w: Write)
    requires id in s.props
    ensures Burst(s, id, [w]) == Apply(s, id, w)
  {
    assert [w][1..] == [];
    BurstStep(s, id, [w]);
  }

  lemma BurstOfThree(s: State, id: Id, ws: seq<Write>)
    requires id in s.props && |ws| == 3
    ensures Burst(s, id, ws) == Apply(Apply(Apply(s, id, ws[0]), id, ws[1]), id, ws[2])
  {
    BurstStep(s, id, ws);
    assert ws[1..] == [ws[1], ws[2]];
    BurstOfTwo(Apply(s, id, ws[0]), id, ws[1], ws[2]);
  }

  lemma BurstStep(s: State, id: Id, ws: seq<Write>)
    requires id in s.props && ws != []
    ensures Burst(s, id, ws) == Burst(Apply(s, id, ws[0]), id, ws[1..])
  {
  }
}
