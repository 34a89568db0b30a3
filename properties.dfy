/**
 What the engine promises its users: emission order and payloads, one-shot
 and `wait` semantics, coalescing of a synchronous burst into one `update`,
 upward propagation through links, and a structural view that shows own
 data properties and nothing else.
 */
module Properties {
  import opened Values
  import opened Registry
  import opened Engine
  import opened Invariants
  import opened Settling

  // ---------------------------------------------------------------------
  // Emission
  // ---------------------------------------------------------------------

  lemma DispatchTrace(s: State, es: seq<Entry>, args: seq<Value>)
    ensures var r := Dispatch(s, es, args);
      && r.trace == s.trace + Invocations(es, args)
      && r.props == s.props && r.listeners == s.listeners
      && r.nextId == s.nextId && r.nextWaiter == s.nextWaiter
      && r.pending == s.pending + (set p | p in Parents(es))
  {
    DispatchPending(s, es, args);
    var r := Dispatch(s, es, args);
    assert r.pending == s.pending + (set p | p in Parents(es));
  }

  lemma {:induction false} DispatchPending(s: State, es: seq<Entry>, args: seq<Value>)
    ensures forall x :: x in Dispatch(s, es, args).pending <==> x in s.pending || x in Parents(es)
    decreases |es|
  {
    if es != [] {
      var s1 := Invoke(s, es[0].cb, args);
      DispatchPending(s1, es[1..], args);
      assert Parents(es) == (if es[0].cb.Forward? then [es[0].cb.parent] else []) + Parents(es[1..]);
    }
  }

  /**
   `emit(ev, ...args)` calls every listener registered for `ev` when it
   starts, in registration order, each with `args`; afterwards the one-shot
   registrations are gone and nothing else about the channels has changed.
   */
  lemma EmitInOrder(s: State, id: Id, ev: string, args: seq<Value>)
    ensures var r := Emit(s, id, ev, args);
      && r.trace == s.trace + Invocations(Entries(s, id, ev), args)
      && Entries(r, id, ev) == Persistent(Entries(s, id, ev))
      && (forall c, ev' :: c != id || ev' != ev ==> Entries(r, c, ev') == Entries(s, c, ev'))
      && r.props == s.props
      && r.pending == s.pending + (set p | p in Parents(Entries(s, id, ev)))
  {
    var es := Entries(s, id, ev);
    if es != [] {
      DispatchTrace(WithEntries(s, id, ev, Persistent(es)), es, args);
    } else {
      assert Persistent(es) == [] && Invocations(es, args) == [];
      assert s.trace + [] == s.trace;
    }
  }

  /** Each registration of `cb` for `ev` yields exactly one call carrying `args`. */
  lemma EmitCalls(s: State, id: Id, ev: string, args: seq<Value>, cb: Callback)
    ensures var calls := CallsOf(Emit(s, id, ev, args).trace, cb);
      && |calls| == |CallsOf(s.trace, cb)| + Count(Entries(s, id, ev), cb)
      && calls[..|CallsOf(s.trace, cb)|] == CallsOf(s.trace, cb)
      && forall i :: |CallsOf(s.trace, cb)| <= i < |calls| ==> calls[i] == args
  {
    var es := Entries(s, id, ev);
    EmitInOrder(s, id, ev, args);
    CallsOfAppend(s.trace, Invocations(es, args), cb);
    CallsOfInvocations(es, args, cb);
    var calls := CallsOf(Emit(s, id, ev, args).trace, cb);
    forall i | |CallsOf(s.trace, cb)| <= i < |calls| ensures calls[i] == args {
      assert calls[i] in CallsOf(Invocations(es, args), cb);
    }
  }

  /** A callback registered once for `ev` on `id` is called by the emission exactly once, with its payload. */
  lemma EmitCallsOnce(s: State, id: Id, ev: string, args: seq<Value>, cb: Callback)
    requires Count(Entries(s, id, ev), cb) == 1
    ensures CallsOf(Emit(s, id, ev, args).trace, cb) == CallsOf(s.trace, cb) + [args]
  {
    EmitCalls(s, id, ev, args, cb);
    var before := CallsOf(s.trace, cb);
    var calls := CallsOf(Emit(s, id, ev, args).trace, cb);
    assert calls == calls[..|before|] + [calls[|before|]];
  }

  /** A one-shot listener is unregistered by the emission that calls it. */
  lemma EmitUnregistersOnce(s: State, id: Id, ev: string, args: seq<Value>, cb: Callback)
    requires forall e :: e in Entries(s, id, ev) && e.cb == cb ==> e.once
    ensures Count(Entries(Emit(s, id, ev, args), id, ev), cb) == 0
  {
    EmitInOrder(s, id, ev, args);
    CountPersistentOnce(Entries(s, id, ev), cb);
  }

  /** A child's `update` schedules a flush of every parent that holds it. */
  lemma ChildUpdateSchedulesParent(s: State, p: Id, name: string, c: Id, args: seq<Value>)
    requires Wf(s) && Linked(s, p, name, c)
    ensures p in Emit(s, c, Update, args).pending
  {
    var es := Entries(s, c, Update);
    assert Count(es, Forward(p, name)) == 1;
    var e :| e in es && e.cb == Forward(p, name);
    ParentsForward(es, e);
    EmitInOrder(s, c, Update, args);
  }

  lemma {:induction false} ParentsForward(es: seq<Entry>, e: Entry)
    requires e in es && e.cb.Forward?
    ensures e.cb.parent in Parents(es)
  {
    if es[0] != e {
      ParentsForward(es[1..], e);
    }
  }

  // ---------------------------------------------------------------------
  // Callbacks that are not registered stay silent
  // ---------------------------------------------------------------------

  /** `cb` is registered nowhere. */
  ghost predicate Unregistered(s: State, cb: Callback) {
    forall c, ev :: Count(Entries(s, c, ev), cb) == 0
  }

  /** `cb` is registered, if at all, only for `update` on channel `id`. */
  ghost predicate RegisteredOnlyAt(s: State, cb: Callback, id: Id) {
    forall c, ev :: Count(Entries(s, c, ev), cb) > 0 ==> c == id && ev == Update
  }

  /** Emitting from a channel where `cb` is not registered leaves its calls and registrations alone. */
  lemma EmitElsewhere(s: State, id: Id, ev: string, args: seq<Value>, cb: Callback)
    requires Count(Entries(s, id, ev), cb) == 0
    ensures CallsOf(Emit(s, id, ev, args).trace, cb) == CallsOf(s.trace, cb)
    ensures forall c, ev' :: Count(Entries(Emit(s, id, ev, args), c, ev'), cb) == Count(Entries(s, c, ev'), cb)
  {
    EmitCalls(s, id, ev, args, cb);
    EmitInOrder(s, id, ev, args);
    var calls := CallsOf(Emit(s, id, ev, args).trace, cb);
    assert calls == calls[..|CallsOf(s.trace, cb)|];
    CountPersistentOnce(Entries(s, id, ev), cb);
  }

  /**
   Draining a queue of channels strictly shallower than `id` never calls a
   callback registered only on `id`, and keeps it registered only there.
   */
  lemma SettleAbove(s: State, depth: map<Id, nat>, cb: Callback, id: Id)
    requires Wf(s) && Ranked(s, depth) && id in depth
    requires RegisteredOnlyAt(s, cb, id)
    requires forall x :: x in s.queue ==> x in depth && depth[x] < depth[id]
    ensures CallsOf(Settle(s, depth).trace, cb) == CallsOf(s.trace, cb)
    ensures RegisteredOnlyAt(Settle(s, depth), cb, id)
    decreases Potential(s, depth)
  {
    if s.queue != [] {
      FlushDecreases(s, depth);
      FlushAbove(s, depth, cb, id);
      FlushQueueAbove(s, depth, id);
      SettleAbove(FlushOne(s), depth, cb, id);
    }
  }

  /** A flush of a channel other than the only one where `cb` is registered neither calls nor moves it. */
  lemma FlushAbove(s: State, depth: map<Id, nat>, cb: Callback, id: Id)
    requires s.queue != [] && s.queue[0] != id && RegisteredOnlyAt(s, cb, id)
    ensures CallsOf(FlushOne(s).trace, cb) == CallsOf(s.trace, cb)
    ensures RegisteredOnlyAt(FlushOne(s), cb, id)
  {
    var x := s.queue[0];
    var s1, es := FlushShape(s);
    assert forall c, ev :: Entries(s1, c, ev) == Entries(s, c, ev);
    EmitElsewhere(s1, x, Update, [], cb);
  }

  /** Flushing channels shallower than `id` only schedules channels shallower still. */
  lemma FlushQueueAbove(s: State, depth: map<Id, nat>, id: Id)
    requires Wf(s) && Ranked(s, depth) && id in depth && s.queue != []
    requires forall x :: x in s.queue ==> x in depth && depth[x] < depth[id]
    ensures forall y :: y in FlushOne(s).queue ==> y in depth && depth[y] < depth[id]
  {
    var x := s.queue[0];
    var s1, es := FlushShape(s);
    EmitInOrder(s1, x, Update, []);
    FlushOneWf(s);
    var r := FlushOne(s);
    forall y | y in r.queue ensures y in depth && depth[y] < depth[id] {
      if y !in s1.queue {
        assert y in r.pending && y !in s1.pending;
        assert Entries(s1, x, Update) == Entries(s, x, Update);
        RankedParents(s, depth);
        assert y in UpdateParents(s.listeners, x);
      }
    }
  }

  /** Once a callback is registered nowhere, draining the queue never calls it. */
  lemma SettleUnregistered(s: State, depth: map<Id, nat>, cb: Callback)
    requires Wf(s) && Ranked(s, depth) && Unregistered(s, cb)
    ensures CallsOf(Settle(s, depth).trace, cb) == CallsOf(s.trace, cb)
    ensures Unregistered(Settle(s, depth), cb)
    decreases Potential(s, depth)
  {
    if s.queue != [] {
      var x := s.queue[0];
      var s1, es := FlushShape(s);
      FlushDecreases(s, depth);
      assert forall c, ev :: Entries(s1, c, ev) == Entries(s, c, ev);
      EmitElsewhere(s1, x, Update, [], cb);
      SettleUnregistered(FlushOne(s), depth, cb);
    }
  }

  /** Every registration of `cb` is persistent, as `on` makes it. */
  ghost predicate Persists(s: State, cb: Callback) {
    forall c, ev, e :: e in Entries(s, c, ev) && e.cb == cb ==> !e.once
  }

  /** Flushing keeps persistent registrations where they are. */
  lemma FlushKeepsPersistent(s: State, cb: Callback)
    requires s.queue != [] && Persists(s, cb)
    ensures forall c, ev :: Count(Entries(FlushOne(s), c, ev), cb) == Count(Entries(s, c, ev), cb)
    ensures Persists(FlushOne(s), cb)
  {
    var x := s.queue[0];
    var s1, es := FlushShape(s);
    assert forall c, ev :: Entries(s1, c, ev) == Entries(s, c, ev);
    EmitInOrder(s1, x, Update, []);
    CountPersistent(es, cb);
  }

  /** Draining the queue keeps persistent registrations where they are. */
  lemma SettleKeepsPersistent(s: State, depth: map<Id, nat>, cb: Callback)
    requires Wf(s) && Ranked(s, depth) && Persists(s, cb)
    ensures forall c, ev :: Count(Entries(Settle(s, depth), c, ev), cb) == Count(Entries(s, c, ev), cb)
    ensures Persists(Settle(s, depth), cb)
    decreases Potential(s, depth)
  {
    if s.queue != [] {
      FlushDecreases(s, depth);
      FlushKeepsPersistent(s, cb);
      SettleKeepsPersistent(FlushOne(s), depth, cb);
    }
  }

  /** Draining the queue keeps every parent-child subscription. */
  lemma SettleKeepsParents(s: State, depth: map<Id, nat>)
    requires Wf(s) && Ranked(s, depth)
    ensures forall c :: UpdateParents(Settle(s, depth).listeners, c) == UpdateParents(s.listeners, c)
    decreases Potential(s, depth)
  {
    if s.queue != [] {
      var x := s.queue[0];
      var s1, es := FlushShape(s);
      FlushDecreases(s, depth);
      assert forall c, ev :: Entries(s1, c, ev) == Entries(s, c, ev);
      EmitInOrder(s1, x, Update, []);
      forall e | e in es && e.cb.Forward? ensures !e.once {
        ForwarderLinked(s, x, Update, e);
      }
      ParentsPersistent(es);
      var r := FlushOne(s);
      forall c ensures UpdateParents(r.listeners, c) == UpdateParents(s.listeners, c) {
        assert Entries(r, c, Update) == EntriesIn(r.listeners, c, Update);
      }
      SettleKeepsParents(r, depth);
    }
  }

  // ---------------------------------------------------------------------
  // wait
  // ---------------------------------------------------------------------

  lemma {:induction false} CallsOfAbsent(t: seq<Invocation>, cb: Callback)
    requires forall v :: v in t ==> v.cb != cb
    ensures CallsOf(t, cb) == []
  {
    if t != [] {
      CallsOfAbsent(t[1..], cb);
    }
  }

  /** The promise `wait` is about to return has no pending or past resolution. */
  lemma FreshWaiter(s: State)
    requires Wf(s)
    ensures CallsOf(s.trace, Waiter(s.nextWaiter)) == []
    ensures Unregistered(s, Waiter(s.nextWaiter))
  {
    CallsOfAbsent(s.trace, Waiter(s.nextWaiter));
  }

  /** What `wait(ev)` changes: one one-shot registration of a fresh resolver, nothing else. */
  lemma WaitShape(s: State, id: Id, ev: string)
    requires Wf(s) && id in s.listeners
    ensures var w := Waiter(s.nextWaiter); var r := Wait(s, id, ev);
      && r.trace == s.trace
      && Count(Entries(r, id, ev), w) == 1
      && (forall e :: e in Entries(r, id, ev) && e.cb == w ==> e.once)
      && forall c, ev' :: c != id || ev' != ev ==> Entries(r, c, ev') == Entries(s, c, ev')
  {
    var w := Waiter(s.nextWaiter);
    FreshWaiter(s);
    assert Count(Entries(s, id, ev), w) == 0;
    CountAppend(Entries(s, id, ev), Entry(w, true), w);
  }

  /** An emission resolves a callback registered once-style exactly there: one call with its payload, then none left. */
  lemma EmitResolvesOnce(r: State, id: Id, ev: string, args: seq<Value>, w: Callback)
    requires CallsOf(r.trace, w) == [] && Count(Entries(r, id, ev), w) == 1
    requires forall e :: e in Entries(r, id, ev) && e.cb == w ==> e.once
    requires forall c, ev' :: c != id || ev' != ev ==> Count(Entries(r, c, ev'), w) == 0
    ensures CallsOf(Emit(r, id, ev, args).trace, w) == [args]
    ensures Unregistered(Emit(r, id, ev, args), w)
  {
    var t := Emit(r, id, ev, args);
    EmitCalls(r, id, ev, args, w);
    var calls := CallsOf(t.trace, w);
    assert |calls| == 1 && calls[0] == args;
    assert calls == [args];
    EmitUnregistersOnce(r, id, ev, args, w);
    EmitInOrder(r, id, ev, args);
    forall c, ev' ensures Count(Entries(t, c, ev'), w) == 0 {
      if c != id || ev' != ev {
        assert Entries(t, c, ev') == Entries(r, c, ev');
      }
    }
  }

  /**
   `wait(ev)` is not resolved by emissions that happened before it; the next
   emission of `ev` resolves it with that emission's arguments, and nothing
   resolves it a second time.
   */
  lemma WaitResolvesOnNextEmit(s: State, id: Id, ev: string, args: seq<Value>)
    requires Wf(s) && id in s.listeners
    ensures var w := Waiter(s.nextWaiter); var r := Wait(s, id, ev);
      && CallsOf(r.trace, w) == []
      && CallsOf(Emit(r, id, ev, args).trace, w) == [args]
      && Unregistered(Emit(r, id, ev, args), w)
  {
    var w := Waiter(s.nextWaiter);
    var r := Wait(s, id, ev);
    FreshWaiter(s);
    WaitShape(s, id, ev);
    forall c, ev' | c != id || ev' != ev ensures Count(Entries(r, c, ev'), w) == 0 {
      assert Entries(r, c, ev') == Entries(s, c, ev');
    }
    EmitResolvesOnce(r, id, ev, args, w);
  }

  /**
   Draining the queue while channel `id` is scheduled resolves the promise
   `w` waiting for its `update`, exactly once and with no payload.
   */
  lemma SettleResolves(s: State, depth: map<Id, nat>, id: Id, w: Callback)
    requires Wf(s) && Ranked(s, depth) && id in s.pending && !w.Forward?
    requires Count(Entries(s, id, Update), w) == 1 && RegisteredOnlyAt(s, w, id)
    requires forall e :: e in Entries(s, id, Update) && e.cb == w ==> e.once
    ensures CallsOf(Settle(s, depth).trace, w) == CallsOf(s.trace, w) + [[]]
    ensures Unregistered(Settle(s, depth), w)
    decreases Potential(s, depth)
  {
    var x := s.queue[0];
    var s1, es := FlushShape(s);
    FlushDecreases(s, depth);
    assert forall c, ev :: Entries(s1, c, ev) == Entries(s, c, ev);
    var r := FlushOne(s);
    EmitInOrder(s1, x, Update, []);
    if x == id {
      EmitCallsOnce(s1, id, Update, [], w);
      EmitUnregistersOnce(s1, id, Update, [], w);
      assert Unregistered(r, w);
      SettleUnregistered(r, depth, w);
    } else {
      EmitElsewhere(s1, x, Update, [], w);
      assert id in s1.pending;
      SettleResolves(r, depth, id, w);
    }
  }

  /** `await obj.wait('update')`: register the promise's resolver, then let every deferred flush run. */
  ghost function AwaitUpdate(s: State, depth: map<Id, nat>, id: Id): (r: State)
    requires Wf(s) && Ranked(s, depth) && id in s.listeners
    ensures Wf(r) && Ranked(r, depth) && r.props == s.props && r.queue == []
    ensures r.nextId == s.nextId && r.nextWaiter == s.nextWaiter + 1
  {
    WaitOnUpdate(s, id);
    Settle(Wait(s, id, Update), depth)
  }

  /**
   Awaiting `update` with a flush of the channel pending: the drain resolves
   the promise `wait` returned, exactly once, so the `await` completes.
   */
  lemma AwaitUpdateCompletes(s: State, depth: map<Id, nat>, id: Id)
    requires Wf(s) && Ranked(s, depth) && id in s.pending
    ensures CallsOf(AwaitUpdate(s, depth, id).trace, Waiter(s.nextWaiter)) == [[]]
  {
    var r := Wait(s, id, Update);
    WaitOnUpdate(s, id);
    SettleResolves(r, depth, id, Waiter(s.nextWaiter));
  }

  /** Right after `wait('update')`, its resolver is the only registration of its kind, and unresolved. */
  lemma WaitOnUpdate(s: State, id: Id)
    requires Wf(s) && id in s.listeners
    ensures var w := Waiter(s.nextWaiter); var r := Wait(s, id, Update);
      && Wf(r) && r.props == s.props && r.pending == s.pending
      && CallsOf(r.trace, w) == []
      && Count(Entries(r, id, Update), w) == 1
      && (forall e :: e in Entries(r, id, Update) && e.cb == w ==> e.once)
      && RegisteredOnlyAt(r, w, id)
  {
    var w := Waiter(s.nextWaiter);
    var r := Wait(s, id, Update);
    FreshWaiter(s);
    WaitShape(s, id, Update);
    WaitWf(s, id, Update);
    forall c, ev | c != id || ev != Update ensures Count(Entries(r, c, ev), w) == 0 {
      assert Entries(r, c, ev) == Entries(s, c, ev);
    }
  }

  // ---------------------------------------------------------------------
  // The structural view
  // ---------------------------------------------------------------------

  /** Listener registrations, flush flags and the queue never show in the view. */
  lemma BookkeepingHidden(s: State, id: Id, ev: string, cb: Callback, args: seq<Value>, x: Id)
    requires id in s.listeners
    ensures View(On(s, id, ev, cb), x) == View(s, x)
    ensures View(Once(s, id, ev, cb), x) == View(s, x)
    ensures View(Off(s, id, ev, cb), x) == View(s, x)
    ensures View(Wait(s, id, ev), x) == View(s, x)
    ensures View(Emit(s, id, ev, args), x) == View(s, x)
    ensures s.queue != [] ==> View(FlushOne(s), x) == View(s, x)
  {
    ViewProps(s, On(s, id, ev, cb), x, s.props.Keys);
    ViewProps(s, Once(s, id, ev, cb), x, s.props.Keys);
    ViewProps(s, Off(s, id, ev, cb), x, s.props.Keys);
    ViewProps(s, Wait(s, id, ev), x, s.props.Keys);
    EmitInOrder(s, id, ev, args);
    ViewProps(s, Emit(s, id, ev, args), x, s.props.Keys);
    if s.queue != [] {
      EmitInOrder(s.(queue := s.queue[1..], pending := s.pending - {s.queue[0]}), s.queue[0], Update, []);
      ViewProps(s, FlushOne(s), x, s.props.Keys);
    }
  }

  /** The view reads nothing but the property store. */
  lemma {:induction false} ViewProps(s: State, t: State, id: Id, a: set<Id>)
    requires s.props == t.props
    ensures ViewOf(s, id, a) == ViewOf(t, id, a)
    decreases a
  {
    if id in a && id in s.props {
      var own := s.props[id];
      forall n | n in own && own[n].Ref?
        ensures ViewOf(s, own[n].id, a - {id}) == ViewOf(t, own[n].id, a - {id})
      {
        ViewProps(s, t, own[n].id, a - {id});
      }
      var fs := ViewOf(s, id, a).fields;
      var ft := ViewOf(t, id, a).fields;
      forall n | n in own ensures fs[n] == ft[n] {
        match own[n]
        case Plain(p) =>
        case Ref(d) =>
      }
      assert fs == ft;
    }
  }

  /** The view of `c` depends only on the properties of `c` and the channels below it. */
  lemma {:induction false} ViewFrame(s: State, t: State, depth: map<Id, nat>, c: Id, a: set<Id>, b: set<Id>)
    requires Ranked(s, depth) && c in depth
    requires forall x :: x in depth && depth[x] >= depth[c] ==>
      x in a && x in b && x in t.props && t.props[x] == s.props[x]
    ensures ViewOf(s, c, a) == ViewOf(t, c, b)
    decreases a
  {
    var own := s.props[c];
    forall n | n in own && own[n].Ref?
      ensures ViewOf(s, own[n].id, a - {c}) == ViewOf(t, own[n].id, b - {c})
    {
      ViewFrame(s, t, depth, own[n].id, a - {c}, b - {c});
    }
    var fs := ViewOf(s, c, a).fields;
    var ft := ViewOf(t, c, b).fields;
    forall n | n in own ensures fs[n] == ft[n] {
      match own[n]
      case Plain(p) =>
      case Ref(d) =>
    }
    assert fs == ft;
  }

  /** With acyclic links, a parent's view embeds the child's own view under the linking property. */
  lemma NestedView(s: State, depth: map<Id, nat>, p: Id, name: string, c: Id)
    requires Ranked(s, depth) && Linked(s, p, name, c)
    ensures name in View(s, p).fields && View(s, p).fields[name] == View(s, c)
  {
    ViewFrame(s, s, depth, c, s.props.Keys - {p}, s.props.Keys);
  }

  /** The field a property shows in the view: a plain value as itself, a child channel as its own view. */
  function Shown(s: State, v: Value): Json {
    match v
    case Plain(p) => JsonOf(p)
    case Ref(c) => View(s, c)
  }

  /** With acyclic links, `toEqual` compares a channel as the record of its own properties, children expanded. */
  lemma ViewExpands(s: State, depth: map<Id, nat>, id: Id)
    requires Ranked(s, depth) && id in s.props
    ensures View(s, id) == JObject(map n | n in s.props[id] :: Shown(s, s.props[id][n]))
  {
    var own := s.props[id];
    var fs := View(s, id).fields;
    forall n | n in own ensures fs[n] == Shown(s, own[n]) {
      if own[n].Ref? {
        NestedView(s, depth, id, n, own[n].id);
      }
    }
  }

  /**
   After `obj[name] = v` the view of `obj` has the key `name` showing `v`
   (a child channel shown as its own view), and every other field as before.
   */
  lemma SetView(s: State, depth: map<Id, nat>, depth': map<Id, nat>, id: Id, name: string, v: Value)
    requires id in s.props && Ranked(s, depth) && Ranked(Set(s, id, name, v), depth')
    ensures var j := View(Set(s, id, name, v), id);
      && j.fields.Keys == View(s, id).fields.Keys + {name}
      && j.fields[name] == (match v case Plain(p) => JsonOf(p) case Ref(c) => View(Set(s, id, name, v), c))
      && forall n :: n in View(s, id).fields && n != name ==> j.fields[n] == View(s, id).fields[n]
  {
    var t := Set(s, id, name, v);
    if v.Ref? {
      NestedView(t, depth', id, name, v.id);
    }
    OtherFieldsKept(s, t, depth, id, name);
  }

  /** After `delete obj[name]` the view of `obj` lacks `name` and keeps every other field. */
  lemma DeleteView(s: State, depth: map<Id, nat>, id: Id, name: string)
    requires id in s.props && Ranked(s, depth)
    ensures var j := View(Delete(s, id, name), id);
      && j.fields.Keys == View(s, id).fields.Keys - {name}
      && forall n :: n in j.fields ==> j.fields[n] == View(s, id).fields[n]
  {
    OtherFieldsKept(s, Delete(s, id, name), depth, id, name);
  }

  lemma OtherFieldsKept(s: State, t: State, depth: map<Id, nat>, id: Id, name: string)
    requires id in s.props && Ranked(s, depth)
    requires t.props.Keys == s.props.Keys && id in t.props
    requires forall x :: x in s.props && x != id ==> t.props[x] == s.props[x]
    requires forall n :: n != name ==> (n in t.props[id] <==> n in s.props[id])
    requires forall n :: n != name && n in s.props[id] ==> t.props[id][n] == s.props[id][n]
    ensures forall n :: n in View(s, id).fields && n in View(t, id).fields && n != name ==>
      View(t, id).fields[n] == View(s, id).fields[n]
  {
    var k := s.props.Keys;
    forall n | n in s.props[id] && n != name && s.props[id][n].Ref?
      ensures ViewOf(t, s.props[id][n].id, k - {id}) == ViewOf(s, s.props[id][n].id, k - {id})
    {
      ViewFrame(s, t, depth, s.props[id][n].id, k - {id}, k - {id});
    }
  }
}
