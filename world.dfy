/**
 The engine as the running program holds it: every live channel's own
 properties, listener registries and pending flag, the deferred-flush queue
 and the record of callback invocations, all updated in place. Each method is
 proved to leave the state its specification function in `Engine` computes.
 */
module Channels {
  import opened Values
  import opened Registry
  import opened Engine
  import opened Invariants
  import opened Settling
  import Properties

  class World {
    var props: map<Id, map<string, Value>>
    var listeners: Listeners
    var pending: set<Id>
    var queue: seq<Id>
    var trace: seq<Invocation>
    var nextId: nat
    var nextWaiter: nat

    /** The fields as one value of the specification's state type. */
    function State(): Engine.State
      reads this
    {
      Engine.State(props, listeners, pending, queue, trace, nextId, nextWaiter)
    }

    ghost predicate Valid()
      reads this
    {
      Wf(State())
    }

    constructor ()
      ensures State() == Empty && Valid()
    {
      props := map[];
      listeners := map[];
      pending := {};
      queue := [];
      trace := [];
      nextId := 0;
      nextWaiter := 0;
    }

    /** `new Channel()`: an empty channel with a fresh identity. */
    method NewChannel() returns (id: Id)
      requires Valid()
      modifies this
      ensures State() == Engine.NewChannel(old(State())) && id == old(nextId)
      ensures Valid() && id in props && props[id] == map[]
    {
      NewChannelWf(State());
      id := nextId;
      props := props[id := map[]];
      listeners := listeners[id := map[]];
      nextId := nextId + 1;
    }

    /** Signal a mutation of `id`: queue a flush unless one is pending. */
    method Schedule(id: Id)
      modifies this
      ensures State() == Engine.Schedule(old(State()), id)
    {
      if id !in pending {
        pending := pending + {id};
        queue := queue + [id];
      }
    }

    /** Append a registration to the list of `ev` on `id`. */
    method Register(id: Id, ev: string, e: Entry)
      requires id in listeners
      modifies this
      ensures State() == WithEntries(old(State()), id, ev, Entries(old(State()), id, ev) + [e])
    {
      var es := EntriesIn(listeners, id, ev);
      listeners := listeners[id := listeners[id][ev := es + [e]]];
    }

    /** `on(ev, cb)`. */
    method On(id: Id, ev: string, cb: Callback)
      requires Valid() && id in listeners && cb.Counter?
      modifies this
      ensures State() == Engine.On(old(State()), id, ev, cb) && Valid()
    {
      OnWf(State(), id, ev, cb);
      Register(id, ev, Entry(cb, false));
    }

    /** `once(ev, cb)`. */
    method Once(id: Id, ev: string, cb: Callback)
      requires Valid() && id in listeners && cb.Counter?
      modifies this
      ensures State() == Engine.Once(old(State()), id, ev, cb) && Valid()
    {
      OnceWf(State(), id, ev, cb);
      Register(id, ev, Entry(cb, true));
    }

    /** Remove every registration of `cb` for `ev` on `id`. */
    method Unsubscribe(id: Id, ev: string, cb: Callback)
      requires id in listeners
      modifies this
      ensures State() == Engine.Off(old(State()), id, ev, cb)
    {
      var es := EntriesIn(listeners, id, ev);
      listeners := listeners[id := listeners[id][ev := Without(es, cb)]];
    }

    /** `off(ev, cb)`. */
    method Off(id: Id, ev: string, cb: Callback)
      requires Valid() && id in listeners && !cb.Forward?
      modifies this
      ensures State() == Engine.Off(old(State()), id, ev, cb) && Valid()
    {
      OffWf(State(), id, ev, cb);
      Unsubscribe(id, ev, cb);
    }

    /** `wait(ev)`: returns the number of the promise, resolved by the next `ev`. */
    method Wait(id: Id, ev: string) returns (w: nat)
      requires Valid() && id in listeners
      modifies this
      ensures State() == Engine.Wait(old(State()), id, ev) && w == old(nextWaiter) && Valid()
    {
      WaitWf(State(), id, ev);
      w := nextWaiter;
      Register(id, ev, Entry(Waiter(w), true));
      nextWaiter := nextWaiter + 1;
    }

    /** `obj[name] = v`. */
    method Set(id: Id, name: string, v: Value)
      requires Valid() && id in props && (v.Ref? ==> v.id in props)
      modifies this
      ensures State() == Engine.Set(old(State()), id, name, v) && Valid()
    {
      SetWf(State(), id, name, v);
      if name in props[id] && props[id][name].Ref? && props[id][name].id in listeners {
        Unsubscribe(props[id][name].id, Update, Forward(id, name));
      }
      props := props[id := props[id][name := v]];
      if v.Ref? && v.id in listeners {
        Register(v.id, Update, Entry(Forward(id, name), false));
      }
      Schedule(id);
    }

    /** `delete obj[name]`. */
    method Delete(id: Id, name: string)
      requires Valid() && id in props
      modifies this
      ensures State() == Engine.Delete(old(State()), id, name) && Valid()
    {
      DeleteWf(State(), id, name);
      if name in props[id] && props[id][name].Ref? && props[id][name].id in listeners {
        Unsubscribe(props[id][name].id, Update, Forward(id, name));
      }
      props := props[id := props[id] - {name}];
      Schedule(id);
    }

    /** Call one callback with `args`; a forwarder marks its parent mutated. */
    method Invoke(cb: Callback, args: seq<Value>)
      modifies this
      ensures State() == Engine.Invoke(old(State()), cb, args)
    {
      trace := trace + [Invocation(cb, args)];
      if cb.Forward? {
        Schedule(cb.parent);
      }
    }

    /**
     Emit `ev` on `id`: take the registrations present now, drop the one-shot
     ones from the registry, then call each taken callback in order.
     */
    method Dispatch(id: Id, ev: string, args: seq<Value>)
      modifies this
      ensures State() == Engine.Emit(old(State()), id, ev, args)
    {
      var es := EntriesIn(listeners, id, ev);
      if es != [] {
        listeners := listeners[id := listeners[id][ev := Persistent(es)]];
        ghost var start := State();
        var i := 0;
        while i < |es|
          invariant 0 <= i <= |es|
          invariant Engine.Dispatch(State(), es[i..], args) == Engine.Dispatch(start, es, args)
          decreases |es| - i
        {
          assert es[i..][0] == es[i] && es[i..][1..] == es[i + 1..];
          Invoke(es[i].cb, args);
          i := i + 1;
        }
      }
    }

    /** `emit(ev, ...args)`. */
    method Emit(id: Id, ev: string, args: seq<Value>)
      requires Valid()
      modifies this
      ensures State() == Engine.Emit(old(State()), id, ev, args) && Valid()
    {
      EmitWf(State(), id, ev, args);
      Dispatch(id, ev, args);
    }

    /** Run the oldest deferred flush. */
    method FlushOne()
      requires Valid() && queue != []
      modifies this
      ensures State() == Engine.FlushOne(old(State())) && Valid()
    {
      FlushOneWf(State());
      var x := queue[0];
      queue := queue[1..];
      pending := pending - {x};
      Dispatch(x, Update, []);
    }

    /** Run deferred flushes until none is pending: one `await` of the caller. */
    method Settle(ghost depth: map<Id, nat>)
      requires Valid() && Ranked(State(), depth)
      modifies this
      ensures State() == Settling.Settle(old(State()), depth) && Valid()
      ensures queue == [] && pending == {}
    {
      while queue != []
        invariant Valid() && Ranked(State(), depth)
        invariant Settling.Settle(State(), depth) == Settling.Settle(old(State()), depth)
        decreases Potential(State(), depth)
      {
        FlushDecreases(State(), depth);
        FlushOne();
      }
    }

    /** `await obj.wait('update')`: the number of the promise, and every deferred flush run. */
    method AwaitUpdate(id: Id, ghost depth: map<Id, nat>) returns (w: nat)
      requires Valid() && id in listeners && Ranked(State(), depth)
      modifies this
      ensures State() == Properties.AwaitUpdate(old(State()), depth, id) && w == old(nextWaiter) && Valid()
    {
      w := Wait(id, Update);
      Settle(depth);
    }
  }
}
