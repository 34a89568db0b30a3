/**
 The listener registry of one event of one channel: an ordered list of
 entries, each a callback and a one-shot flag, and the record of the
 invocations that callbacks received.
 */
module Registry {
  import opened Values

  /**
   Callbacks are data. User code subscribes counting functions (a `jest.fn`);
   `wait` subscribes the resolver of the promise it returns; assigning a
   channel to a property of another subscribes a forwarder that marks the
   parent mutated whenever the child emits `update`.
   */
  datatype Callback =
    | Counter(fn: nat)
    | Waiter(w: nat)
    | Forward(parent: Id, name: string)

  /** One registration: what to call, and whether it unregisters itself first. */
  datatype Entry = Entry(cb: Callback, once: bool)

  /** One call of a callback with the payload that `emit` passed through. */
  datatype Invocation = Invocation(cb: Callback, args: seq<Value>)

  /** The entries left after every one-shot entry has removed itself. */
  function Persistent(es: seq<Entry>): (r: seq<Entry>)
    ensures forall e :: e in r <==> e in es && !e.once
    ensures |r| <= |es|
  {
    if es == [] then []
    else (if es[0].once then [] else [es[0]]) + Persistent(es[1..])
  }

  /** The entries left after unsubscribing `cb`. */
  function Without(es: seq<Entry>, cb: Callback): (r: seq<Entry>)
    ensures forall e :: e in r <==> e in es && e.cb != cb
    ensures |r| <= |es|
  {
    if es == [] then []
    else (if es[0].cb == cb then [] else [es[0]]) + Without(es[1..], cb)
  }

  /** How many times `cb` is registered in `es`. */
  function Count(es: seq<Entry>, cb: Callback): (n: nat)
    ensures n <= |es|
    ensures n == 0 <==> forall e :: e in es ==> e.cb != cb
  {
    if es == [] then 0
    else (if es[0].cb == cb then 1 else 0) + Count(es[1..], cb)
  }

  /** The calls an emission makes: every entry's callback, in order, with the same payload. */
  function Invocations(es: seq<Entry>, args: seq<Value>): (r: seq<Invocation>)
    ensures |r| == |es|
    ensures forall i :: 0 <= i < |es| ==> r[i] == Invocation(es[i].cb, args)
  {
    if es == [] then [] else [Invocation(es[0].cb, args)] + Invocations(es[1..], args)
  }

  /** The payloads `cb` received, in order (Jest's `mock.calls`). */
  function CallsOf(trace: seq<Invocation>, cb: Callback): seq<seq<Value>>
  {
    if trace == [] then []
    else (if trace[0].cb == cb then [trace[0].args] else []) + CallsOf(trace[1..], cb)
  }

  /** The parents whose forwarders are registered in `es`, in order. */
  function Parents(es: seq<Entry>): seq<Id>
  {
    if es == [] then []
    else (if es[0].cb.Forward? then [es[0].cb.parent] else []) + Parents(es[1..])
  }

  lemma {:induction false} CountAppend(es: seq<Entry>, e: Entry, cb: Callback)
    ensures Count(es + [e], cb) == Count(es, cb) + (if e.cb == cb then 1 else 0)
  {
    if es == [] {
      assert [e][1..] == [];
    } else {
      assert (es + [e])[1..] == es[1..] + [e];
      CountAppend(es[1..], e, cb);
    }
  }

  lemma {:induction false} CountConcat(a: seq<Entry>, b: seq<Entry>, cb: Callback)
    ensures Count(a + b, cb) == Count(a, cb) + Count(b, cb)
  {
    if a == [] {
      assert a + b == b;
    } else {
      assert (a + b)[1..] == a[1..] + b;
      CountConcat(a[1..], b, cb);
    }
  }

  lemma {:induction false} ParentsConcat(a: seq<Entry>, b: seq<Entry>)
    ensures Parents(a + b) == Parents(a) + Parents(b)
  {
    if a == [] {
      assert a + b == b;
    } else {
      var head := if a[0].cb.Forward? then [a[0].cb.parent] else [];
      assert (a + b)[0] == a[0];
      assert (a + b)[1..] == a[1..] + b;
      assert Parents(a + b) == head + Parents(a[1..] + b);
      ParentsConcat(a[1..], b);
      assert Parents(a) == head + Parents(a[1..]);
    }
  }

  lemma {:induction false} CountWithout(es: seq<Entry>, cb: Callback, c: Callback)
    ensures Count(Without(es, cb), c) == if c == cb then 0 else Count(es, c)
  {
    if es != [] {
      var head := if es[0].cb == cb then [] else [es[0]];
      assert Without(es, cb) == head + Without(es[1..], cb);
      CountWithout(es[1..], cb, c);
      CountConcat(head, Without(es[1..], cb), c);
      assert Count(head, c) == if es[0].cb != cb && es[0].cb == c then 1 else 0;
    }
  }

  /** Dropping one-shot entries keeps every callback that is only registered persistently. */
  lemma {:induction false} CountPersistent(es: seq<Entry>, c: Callback)
    requires forall e :: e in es && e.cb == c ==> !e.once
    ensures Count(Persistent(es), c) == Count(es, c)
  {
    if es != [] {
      var head := if es[0].once then [] else [es[0]];
      CountPersistent(es[1..], c);
      CountConcat(head, Persistent(es[1..]), c);
    }
  }

  /** Dropping one-shot entries removes every callback that is only registered once-style. */
  lemma {:induction false} CountPersistentOnce(es: seq<Entry>, c: Callback)
    requires forall e :: e in es && e.cb == c ==> e.once
    ensures Count(Persistent(es), c) == 0
  {
    if es != [] {
      var head := if es[0].once then [] else [es[0]];
      CountPersistentOnce(es[1..], c);
      CountConcat(head, Persistent(es[1..]), c);
    }
  }

  lemma {:induction false} CallsOfAppend(t: seq<Invocation>, u: seq<Invocation>, cb: Callback)
    ensures CallsOf(t + u, cb) == CallsOf(t, cb) + CallsOf(u, cb)
  {
    if t == [] {
      assert t + u == u;
    } else {
      assert (t + u)[1..] == t[1..] + u;
      CallsOfAppend(t[1..], u, cb);
    }
  }

  /** An emission gives `cb` one call, carrying the payload, per registration of `cb`. */
  lemma {:induction false} CallsOfInvocations(es: seq<Entry>, args: seq<Value>, cb: Callback)
    ensures |CallsOf(Invocations(es, args), cb)| == Count(es, cb)
    ensures forall a :: a in CallsOf(Invocations(es, args), cb) ==> a == args
  {
    if es != [] {
      var r := Invocations(es, args);
      assert r[1..] == Invocations(es[1..], args);
      CallsOfInvocations(es[1..], args, cb);
    }
  }

  lemma {:induction false} ParentsAppend(es: seq<Entry>, e: Entry)
    ensures Parents(es + [e]) == Parents(es) + (if e.cb.Forward? then [e.cb.parent] else [])
  {
    if es == [] {
      assert [e][1..] == [];
    } else {
      assert (es + [e])[1..] == es[1..] + [e];
      ParentsAppend(es[1..], e);
    }
  }

  lemma {:induction false} ParentsWithout(es: seq<Entry>, cb: Callback)
    requires !cb.Forward?
    ensures Parents(Without(es, cb)) == Parents(es)
  {
    if es != [] {
      var head := if es[0].cb == cb then [] else [es[0]];
      ParentsWithout(es[1..], cb);
      ParentsConcat(head, Without(es[1..], cb));
    }
  }

  /** Dropping one-shot entries keeps every forwarder that is registered persistently. */
  lemma {:induction false} ParentsPersistent(es: seq<Entry>)
    requires forall e :: e in es && e.cb.Forward? ==> !e.once
    ensures Parents(Persistent(es)) == Parents(es)
  {
    if es != [] {
      var head := if es[0].once then [] else [es[0]];
      ParentsPersistent(es[1..]);
      ParentsConcat(head, Persistent(es[1..]));
    }
  }

  /** Every parent listed has a forwarder entry in `es`. */
  lemma {:induction false} ParentEntry(es: seq<Entry>, p: Id) returns (e: Entry)
    requires p in Parents(es)
    ensures e in es && e.cb.Forward? && e.cb.parent == p
  {
    if es[0].cb.Forward? && es[0].cb.parent == p {
      e := es[0];
    } else {
      e := ParentEntry(es[1..], p);
    }
  }
}
