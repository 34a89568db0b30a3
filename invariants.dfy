/**
 Every engine operation keeps the invariant `Wf`: the queue and the pending
 flags agree, and the forwarders registered on each child are exactly the
 links held by the parents' properties.
 */
module Invariants {
  import opened Values
  import opened Registry
  import opened Engine

  datatype Option<T> = None | Some(value: T)

  /** A forwarder found in any list belongs to a live link. */
  lemma ForwarderLinked(s: State, c: Id, ev: string, e: Entry)
    requires Wf(s)
    requires c in s.listeners && ev in s.listeners[c] && e in s.listeners[c][ev] && e.cb.Forward?
    ensures ev == Update && !e.once && Linked(s, e.cb.parent, e.cb.name, c)
  {
    assert Count(Entries(s, c, Update), Forward(e.cb.parent, e.cb.name)) != 0;
  }

  /** The callbacks of `es` may be invoked without breaking the invariant. */
  ghost predicate Invocable(s: State, es: seq<Entry>) {
    forall e :: e in es ==>
      (e.cb.Waiter? ==> e.cb.w < s.nextWaiter) && (e.cb.Forward? ==> e.cb.parent in s.props)
  }

  lemma EntriesInvocable(s: State, id: Id, ev: string)
    requires Wf(s)
    ensures Invocable(s, Entries(s, id, ev))
  {
    forall e | e in Entries(s, id, ev) && e.cb.Forward?
      ensures e.cb.parent in s.props
    {
      ForwarderLinked(s, id, ev, e);
    }
  }

  lemma NewChannelWf(s: State)
    requires Wf(s)
    ensures Wf(NewChannel(s))
  {
    var r := NewChannel(s);
    assert s.nextId !in s.props;
    forall c, p, name | c in r.listeners
      ensures Count(Entries(r, c, Update), Forward(p, name)) == if Linked(r, p, name, c) then 1 else 0
    {
      if c != s.nextId {
        assert Entries(r, c, Update) == Entries(s, c, Update);
        assert Linked(r, p, name, c) == Linked(s, p, name, c);
      }
    }
  }

  /** Appending a registration that is not a forwarder, possibly after issuing new promises. */
  lemma AddEntryWf(s: State, id: Id, ev: string, e: Entry, nw: nat)
    requires Wf(s) && id in s.listeners && nw >= s.nextWaiter
    requires !e.cb.Forward? && (e.cb.Waiter? ==> e.cb.w < nw)
    ensures Wf(WithEntries(s, id, ev, Entries(s, id, ev) + [e]).(nextWaiter := nw))
  {
    AddEntryLinks(s, id, ev, e, nw);
  }

  lemma AddEntryLinks(s: State, id: Id, ev: string, e: Entry, nw: nat)
    requires LinkCounts(s) && id in s.listeners && !e.cb.Forward?
    ensures LinkCounts(WithEntries(s, id, ev, Entries(s, id, ev) + [e]).(nextWaiter := nw))
  {
    var r := WithEntries(s, id, ev, Entries(s, id, ev) + [e]).(nextWaiter := nw);
    forall c, p, name | c in r.listeners
      ensures Count(Entries(r, c, Update), Forward(p, name)) == if Linked(r, p, name, c) then 1 else 0
    {
      if c == id && ev == Update {
        CountAppend(Entries(s, id, ev), e, Forward(p, name));
      } else {
        assert Entries(r, c, Update) == Entries(s, c, Update);
      }
    }
  }

  lemma OnWf(s: State, id: Id, ev: string, cb: Callback)
    requires Wf(s) && id in s.listeners && cb.Counter?
    ensures Wf(On(s, id, ev, cb))
  {
    AddEntryWf(s, id, ev, Entry(cb, false), s.nextWaiter);
    assert On(s, id, ev, cb) == WithEntries(s, id, ev, Entries(s, id, ev) + [Entry(cb, false)]).(nextWaiter := s.nextWaiter);
  }

  lemma OnceWf(s: State, id: Id, ev: string, cb: Callback)
    requires Wf(s) && id in s.listeners && cb.Counter?
    ensures Wf(Once(s, id, ev, cb))
  {
    AddEntryWf(s, id, ev, Entry(cb, true), s.nextWaiter);
    assert Once(s, id, ev, cb) == WithEntries(s, id, ev, Entries(s, id, ev) + [Entry(cb, true)]).(nextWaiter := s.nextWaiter);
  }

  lemma WaitWf(s: State, id: Id, ev: string)
    requires Wf(s) && id in s.listeners
    ensures Wf(Wait(s, id, ev))
  {
    AddEntryWf(s, id, ev, Entry(Waiter(s.nextWaiter), true), s.nextWaiter + 1);
  }

  /** Replacing a list by a sub-list that keeps every forwarder keeps the invariant. */
  lemma ReplaceEntriesWf(s: State, id: Id, ev: string, es: seq<Entry>)
    requires Wf(s) && id in s.listeners
    requires forall e :: e in es ==> e in Entries(s, id, ev)
    requires forall p, n :: Count(es, Forward(p, n)) == Count(Entries(s, id, ev), Forward(p, n))
    ensures Wf(WithEntries(s, id, ev, es))
  {
    var r := WithEntries(s, id, ev, es);
    ReplaceEntriesLinks(s, id, ev, es);
    forall c, ev', e | c in r.listeners && ev' in r.listeners[c] && e in r.listeners[c][ev']
      ensures e in s.listeners[c][ev']
    {
      if c == id && ev' == ev {
        assert e in es;
      }
    }
    assert ForwardsPersistent(r);
    assert WaitersIssued(r);
  }

  lemma ReplaceEntriesLinks(s: State, id: Id, ev: string, es: seq<Entry>)
    requires LinkCounts(s) && id in s.listeners
    requires forall p, n :: Count(es, Forward(p, n)) == Count(Entries(s, id, ev), Forward(p, n))
    ensures LinkCounts(WithEntries(s, id, ev, es))
  {
    var r := WithEntries(s, id, ev, es);
    forall c, p, name | c in r.listeners
      ensures Count(Entries(r, c, Update), Forward(p, name)) == if Linked(r, p, name, c) then 1 else 0
    {
      if c != id || ev != Update {
        assert Entries(r, c, Update) == Entries(s, c, Update);
      }
    }
  }

  lemma OffWf(s: State, id: Id, ev: string, cb: Callback)
    requires Wf(s) && id in s.listeners && !cb.Forward?
    ensures Wf(Off(s, id, ev, cb))
  {
    var es := Without(Entries(s, id, ev), cb);
    forall p, n ensures Count(es, Forward(p, n)) == Count(Entries(s, id, ev), Forward(p, n)) {
      CountWithout(Entries(s, id, ev), cb, Forward(p, n));
    }
    ReplaceEntriesWf(s, id, ev, es);
  }

  /** Unlinking drops the forwarder of property `name` of `id` and keeps everything else. */
  lemma UnlinkCounts(s: State, id: Id, name: string)
    requires Wf(s) && id in s.props
    ensures var s1 := Unlink(s, id, name);
      && s1.props == s.props && s1.listeners.Keys == s.listeners.Keys
      && s1.pending == s.pending && s1.queue == s.queue && s1.trace == s.trace
      && s1.nextId == s.nextId && s1.nextWaiter == s.nextWaiter
      && (forall c, p, n :: c in s.listeners ==>
            Count(Entries(s1, c, Update), Forward(p, n)) ==
              if p == id && n == name then 0 else Count(Entries(s, c, Update), Forward(p, n)))
      && (forall c, ev, e :: c in s1.listeners && ev in s1.listeners[c] && e in s1.listeners[c][ev] ==>
            ev in s.listeners[c] && e in s.listeners[c][ev])
  {
    UnlinkForwarders(s, id, name);
    UnlinkSubset(s, id, name);
  }

  lemma UnlinkForwarders(s: State, id: Id, name: string)
    requires LinkCounts(s) && id in s.props
    ensures var s1 := Unlink(s, id, name);
      forall c, p, n :: c in s.listeners ==>
        Count(Entries(s1, c, Update), Forward(p, n)) ==
          if p == id && n == name then 0 else Count(Entries(s, c, Update), Forward(p, n))
  {
    if name in s.props[id] && s.props[id][name].Ref? && s.props[id][name].id in s.listeners {
      UnlinkDropsForwarder(s, id, name);
    } else {
      NoForwarderUnlinked(s, id, name);
    }
  }

  /** A property that holds no live channel has no forwarder anywhere, and unlinking it changes nothing. */
  lemma NoForwarderUnlinked(s: State, id: Id, name: string)
    requires LinkCounts(s) && id in s.props
    requires !(name in s.props[id] && s.props[id][name].Ref? && s.props[id][name].id in s.listeners)
    ensures Unlink(s, id, name) == s
    ensures forall c :: c in s.listeners ==> Count(Entries(s, c, Update), Forward(id, name)) == 0
  {
    forall c | c in s.listeners ensures Count(Entries(s, c, Update), Forward(id, name)) == 0 {
      assert !Linked(s, id, name, c);
    }
  }

  /** Unsubscribing the forwarder of `name` of `id` from the channel it holds. */
  lemma UnlinkDropsForwarder(s: State, id: Id, name: string)
    requires LinkCounts(s) && id in s.props
    requires name in s.props[id] && s.props[id][name].Ref? && s.props[id][name].id in s.listeners
    ensures var s1 := Unlink(s, id, name);
      forall c, p, n :: c in s.listeners ==>
        Count(Entries(s1, c, Update), Forward(p, n)) ==
          if p == id && n == name then 0 else Count(Entries(s, c, Update), Forward(p, n))
  {
    var c0 := s.props[id][name].id;
    var s1 := Unlink(s, id, name);
    assert s1 == WithEntries(s, c0, Update, Without(Entries(s, c0, Update), Forward(id, name)));
    forall c, p, n | c in s.listeners
      ensures Count(Entries(s1, c, Update), Forward(p, n)) ==
        if p == id && n == name then 0 else Count(Entries(s, c, Update), Forward(p, n))
    {
      if c == c0 {
        CountWithout(Entries(s, c, Update), Forward(id, name), Forward(p, n));
      } else {
        assert Entries(s1, c, Update) == Entries(s, c, Update);
        if p == id && n == name {
          assert !Linked(s, id, name, c);
        }
      }
    }
  }

  lemma UnlinkSubset(s: State, id: Id, name: string)
    requires id in s.props
    ensures var s1 := Unlink(s, id, name);
      && s1.props == s.props && s1.listeners.Keys == s.listeners.Keys
      && s1.pending == s.pending && s1.queue == s.queue && s1.trace == s.trace
      && s1.nextId == s.nextId && s1.nextWaiter == s.nextWaiter
      && (forall c, ev, e :: c in s1.listeners && ev in s1.listeners[c] && e in s1.listeners[c][ev] ==>
            ev in s.listeners[c] && e in s.listeners[c][ev])
  {
  }

  /** Linking adds one forwarder of property `name` of `id`, on the channel `v` holds. */
  lemma LinkCounts1(s: State, id: Id, name: string, v: Value)
    ensures var s1 := Link(s, id, name, v);
      && s1.props == s.props && s1.listeners.Keys == s.listeners.Keys
      && s1.pending == s.pending && s1.queue == s.queue && s1.trace == s.trace
      && s1.nextId == s.nextId && s1.nextWaiter == s.nextWaiter
      && (forall c, p, n :: c in s.listeners ==>
            Count(Entries(s1, c, Update), Forward(p, n)) ==
              Count(Entries(s, c, Update), Forward(p, n)) + if v == Ref(c) && p == id && n == name then 1 else 0)
      && (forall c, ev, e :: c in s1.listeners && ev in s1.listeners[c] && e in s1.listeners[c][ev] ==>
            (ev in s.listeners[c] && e in s.listeners[c][ev]) || (ev == Update && e == Entry(Forward(id, name), false)))
  {
    var s1 := Link(s, id, name, v);
    forall c, p, n | c in s.listeners
      ensures Count(Entries(s1, c, Update), Forward(p, n)) ==
        Count(Entries(s, c, Update), Forward(p, n)) + if v == Ref(c) && p == id && n == name then 1 else 0
    {
      if v == Ref(c) {
        CountAppend(Entries(s, c, Update), Entry(Forward(id, name), false), Forward(p, n));
      } else {
        assert Entries(s1, c, Update) == Entries(s, c, Update);
      }
    }
  }

  /**
   After unlinking and storing, and possibly linking: `s3` is the state just
   before the mutation signal, and `r` the state after it.
   */
  ghost predicate Rewired(s: State, id: Id, name: string, s1: State, s2: State, s3: State, r: State, held: Option<Id>) {
    && Wf(s) && id in s.props
    && s1 == Unlink(s, id, name)
    && s2.listeners == s1.listeners && s2.pending == s1.pending && s2.queue == s1.queue
    && s2.trace == s1.trace && s2.nextId == s1.nextId && s2.nextWaiter == s1.nextWaiter
    && s2.props.Keys == s1.props.Keys && id in s2.props
    && (forall p :: p in s2.props && p != id ==> s2.props[p] == s1.props[p])
    && (forall n :: n != name ==> (n in s2.props[id] <==> n in s1.props[id]))
    && (forall n :: n != name && n in s2.props[id] ==> s2.props[id][n] == s1.props[id][n])
    && (held.Some? <==> name in s2.props[id] && s2.props[id][name].Ref?)
    && (held.Some? ==> s2.props[id][name] == Ref(held.value) && held.value in s.props)
    && s3 == Link(s2, id, name, if held.Some? then Ref(held.value) else Plain(Bool(false)))
    && r == Schedule(s3, id)
  }

  /** The forwarders after rewiring match the links after storing. */
  lemma RewiredLinks(s: State, id: Id, name: string, s1: State, s2: State, s3: State, r: State, held: Option<Id>)
    requires Rewired(s, id, name, s1, s2, s3, r, held)
    ensures LinkCounts(r)
  {
    UnlinkCounts(s, id, name);
    var v' := if held.Some? then Ref(held.value) else Plain(Bool(false));
    LinkCounts1(s2, id, name, v');
    forall c, p, n | c in r.listeners
      ensures Count(Entries(r, c, Update), Forward(p, n)) == if Linked(r, p, n, c) then 1 else 0
    {
      assert Entries(r, c, Update) == Entries(s3, c, Update);
      assert Entries(s2, c, Update) == Entries(s1, c, Update);
      if p == id && n == name {
        assert Linked(r, p, n, c) <==> held == Some(c);
      } else {
        assert Linked(r, p, n, c) == Linked(s, p, n, c);
      }
    }
  }

  /** Rewiring adds no registration but the forwarder of the stored channel. */
  lemma RewiredEntries(s: State, id: Id, name: string, s1: State, s2: State, s3: State, r: State, held: Option<Id>)
    requires Rewired(s, id, name, s1, s2, s3, r, held)
    ensures ForwardsPersistent(r) && WaitersIssued(r)
  {
    UnlinkCounts(s, id, name);
    var v' := if held.Some? then Ref(held.value) else Plain(Bool(false));
    LinkCounts1(s2, id, name, v');
    forall c, ev, e | c in r.listeners && ev in r.listeners[c] && e in r.listeners[c][ev]
      ensures (ev in s.listeners[c] && e in s.listeners[c][ev]) || (ev == Update && e == Entry(Forward(id, name), false))
    {
      assert e in s3.listeners[c][ev];
      if !(ev == Update && e == Entry(Forward(id, name), false)) {
        assert e in s2.listeners[c][ev];
      }
    }
  }

  /** Rewiring keeps channels held in properties live and the queue well formed. */
  lemma RewiredFrame(s: State, id: Id, name: string, s1: State, s2: State, s3: State, r: State, held: Option<Id>)
    requires Rewired(s, id, name, s1, s2, s3, r, held)
    ensures RefsLive(r) && QueueOk(r)
    ensures r.props.Keys == r.listeners.Keys && forall x :: x in r.props ==> x < r.nextId
  {
    RelinkKeepsProps(s, id, name, s2, held);
    assert QueueOk(s3);
    ScheduleQueueOk(s3, id);
    assert s1.props == s.props && s1.listeners.Keys == s.listeners.Keys;
    assert r.props == s2.props && r.listeners.Keys == s.listeners.Keys;
    assert r.props.Keys == s.props.Keys;
    forall p, n | p in r.props && n in r.props[p] && r.props[p][n].Ref?
      ensures r.props[p][n].id in r.props
    {
      if p != id || n != name {
        assert r.props[p][n] == s.props[p][n];
      }
    }
  }

  /** Unlinking and linking only touch registries. */
  lemma RelinkKeepsProps(s: State, id: Id, name: string, s2: State, held: Option<Id>)
    requires Wf(s) && id in s.props && s2.props.Keys == s.props.Keys && id in s2.props
    requires s2.listeners == Unlink(s, id, name).listeners && s2.queue == s.queue
    ensures var s3 := Link(s2, id, name, if held.Some? then Ref(held.value) else Plain(Bool(false)));
      s3.props == s2.props && s3.queue == s.queue && s3.pending == s2.pending && s3.listeners.Keys == s.listeners.Keys
  {
  }

  lemma RewiredWf(s: State, id: Id, name: string, s1: State, s2: State, s3: State, r: State, held: Option<Id>)
    requires Rewired(s, id, name, s1, s2, s3, r, held)
    ensures Wf(r)
  {
    RewiredLinks(s, id, name, s1, s2, s3, r, held);
    RewiredEntries(s, id, name, s1, s2, s3, r, held);
    RewiredFrame(s, id, name, s1, s2, s3, r, held);
  }

  lemma SetWf(s: State, id: Id, name: string, v: Value)
    requires Wf(s) && id in s.props && (v.Ref? ==> v.id in s.props)
    ensures Wf(Set(s, id, name, v))
  {
    var s1 := Unlink(s, id, name);
    UnlinkCounts(s, id, name);
    var s2 := WithProps(s1, id, s1.props[id][name := v]);
    var held := if v.Ref? then Some(v.id) else None;
    if v.Ref? {
      assert Link(s2, id, name, v) == Link(s2, id, name, Ref(held.value));
    } else {
      assert Link(s2, id, name, v) == s2 == Link(s2, id, name, Plain(Bool(false)));
    }
    RewiredWf(s, id, name, s1, s2, Link(s2, id, name, v), Set(s, id, name, v), held);
  }

  lemma DeleteWf(s: State, id: Id, name: string)
    requires Wf(s) && id in s.props
    ensures Wf(Delete(s, id, name))
  {
    var s1 := Unlink(s, id, name);
    UnlinkCounts(s, id, name);
    var s2 := WithProps(s1, id, s1.props[id] - {name});
    RewiredWf(s, id, name, s1, s2, s2, Delete(s, id, name), None);
  }

  /** Signalling a live channel keeps the queue well formed. */
  lemma ScheduleQueueOk(s: State, id: Id)
    requires QueueOk(s) && id in s.props
    ensures QueueOk(Schedule(s, id))
  {
    if id !in s.pending {
      var q := s.queue + [id];
      forall i, j | 0 <= i < j < |q| ensures q[i] != q[j] {
        if j == |s.queue| {
          assert q[i] == s.queue[i];
        }
      }
    }
  }

  lemma ScheduleWf(s: State, id: Id)
    requires Wf(s) && id in s.props
    ensures Wf(Schedule(s, id))
  {
    var r := Schedule(s, id);
    assert forall c, ev :: Entries(r, c, ev) == Entries(s, c, ev);
    assert forall p, n, c :: Linked(r, p, n, c) == Linked(s, p, n, c);
  }

  /** Invoking callbacks that are registered in a well-formed state keeps the invariant. */
  lemma {:induction false} DispatchWf(s: State, es: seq<Entry>, args: seq<Value>)
    requires Wf(s) && Invocable(s, es)
    ensures var r := Dispatch(s, es, args);
      Wf(r) && r.props == s.props && r.listeners == s.listeners &&
      r.nextId == s.nextId && r.nextWaiter == s.nextWaiter
    decreases |es|
  {
    if es != [] {
      var cb := es[0].cb;
      var s1 := s.(trace := s.trace + [Invocation(cb, args)]);
      assert forall c, ev :: Entries(s1, c, ev) == Entries(s, c, ev);
      assert forall p, n, c :: Linked(s1, p, n, c) == Linked(s, p, n, c);
      assert Wf(s1);
      if cb.Forward? {
        ScheduleWf(s1, cb.parent);
      }
      DispatchWf(Invoke(s, cb, args), es[1..], args);
    }
  }

  lemma EmitWf(s: State, id: Id, ev: string, args: seq<Value>)
    requires Wf(s)
    ensures var r := Emit(s, id, ev, args);
      Wf(r) && r.props == s.props && r.nextId == s.nextId && r.nextWaiter == s.nextWaiter
  {
    var es := Entries(s, id, ev);
    if es != [] {
      var keep := Persistent(es);
      forall p, n ensures Count(keep, Forward(p, n)) == Count(es, Forward(p, n)) {
        forall e | e in es && e.cb == Forward(p, n) ensures !e.once {
          ForwarderLinked(s, id, ev, e);
        }
        CountPersistent(es, Forward(p, n));
      }
      ReplaceEntriesWf(s, id, ev, keep);
      var s1 := WithEntries(s, id, ev, keep);
      EntriesInvocable(s, id, ev);
      DispatchWf(s1, es, args);
    }
  }

  lemma FlushOneWf(s: State)
    requires Wf(s) && s.queue != []
    ensures var r := FlushOne(s);
      Wf(r) && r.props == s.props && r.nextId == s.nextId && r.nextWaiter == s.nextWaiter
  {
    var x := s.queue[0];
    var s1 := s.(queue := s.queue[1..], pending := s.pending - {x});
    assert forall c, ev :: Entries(s1, c, ev) == Entries(s, c, ev);
    assert forall p, n, c :: Linked(s1, p, n, c) == Linked(s, p, n, c);
    assert forall y :: y in s1.queue <==> y in s1.pending by {
      forall y ensures y in s1.queue <==> y in s1.pending {
        if y == x {
          assert forall j :: 0 < j < |s.queue| ==> s.queue[j] != s.queue[0];
        }
      }
    }
    assert Wf(s1);
    EmitWf(s1, x, Update, []);
  }
}
