/**
 Draining the queue of deferred flushes: what one `await` of the test code
 lets run. A flush of a child schedules its parents, so draining terminates
 when the links are acyclic; the proof weighs every queued channel by the
 number of flushes it can still cause.
 */
module Settling {
  import opened Values
  import opened Registry
  import opened Engine
  import opened Invariants

  /** A depth for each live channel that grows strictly from parent to child: the links are acyclic. */
  ghost predicate Ranked(s: State, depth: map<Id, nat>) {
    && depth.Keys == s.props.Keys
    && forall p, name :: p in s.props && name in s.props[p] && s.props[p][name].Ref? ==>
         s.props[p][name].id in depth && depth[p] < depth[s.props[p][name].id]
  }

  /** The parents subscribed to the `update` of `c`, one per forwarder. */
  function UpdateParents(ls: Listeners, c: Id): seq<Id> {
    Parents(EntriesIn(ls, c, Update))
  }

  /** Parent `p` is strictly shallower than child `c`. */
  ghost predicate Above(depth: map<Id, nat>, p: Id, c: Id) {
    c in depth && p in depth && depth[p] < depth[c]
  }

  ghost predicate ParentsRanked(ls: Listeners, depth: map<Id, nat>) {
    forall c, p :: p in UpdateParents(ls, c) ==> Above(depth, p, c)
  }

  /** How many flushes a flush of `x` can still cause, itself included. */
  ghost function Weight(ls: Listeners, depth: map<Id, nat>, x: Id): nat
    requires ParentsRanked(ls, depth) && x in depth
    decreases depth[x], 1, 0
  {
    1 + WeightBelow(ls, depth, UpdateParents(ls, x), depth[x])
  }

  ghost function WeightBelow(ls: Listeners, depth: map<Id, nat>, ps: seq<Id>, bound: nat): nat
    requires ParentsRanked(ls, depth)
    requires forall p :: p in ps ==> p in depth && depth[p] < bound
    decreases bound, 0, |ps|
  {
    if ps == [] then 0 else Weight(ls, depth, ps[0]) + WeightBelow(ls, depth, ps[1..], bound)
  }

  ghost function QueueWeight(ls: Listeners, depth: map<Id, nat>, q: seq<Id>): nat
    requires ParentsRanked(ls, depth) && forall x :: x in q ==> x in depth
  {
    if q == [] then 0 else Weight(ls, depth, q[0]) + QueueWeight(ls, depth, q[1..])
  }

  /** Acyclic links order every forwarder from a deeper child to a shallower parent. */
  lemma RankedParents(s: State, depth: map<Id, nat>)
    requires Wf(s) && Ranked(s, depth)
    ensures ParentsRanked(s.listeners, depth)
  {
    forall c, p | p in UpdateParents(s.listeners, c)
      ensures Above(depth, p, c)
    {
      var e := ParentEntry(EntriesIn(s.listeners, c, Update), p);
      ForwarderLinked(s, c, Update, e);
    }
  }

  /** The flushes the queue can still cause. */
  ghost function Potential(s: State, depth: map<Id, nat>): nat
    requires Wf(s) && Ranked(s, depth)
  {
    RankedParents(s, depth);
    QueueWeight(s.listeners, depth, s.queue)
  }

  lemma {:induction false} WeightBelowIsQueueWeight(ls: Listeners, depth: map<Id, nat>, ps: seq<Id>, bound: nat)
    requires ParentsRanked(ls, depth)
    requires forall p :: p in ps ==> p in depth && depth[p] < bound
    ensures WeightBelow(ls, depth, ps, bound) == QueueWeight(ls, depth, ps)
  {
    if ps != [] {
      WeightBelowIsQueueWeight(ls, depth, ps[1..], bound);
    }
  }

  lemma {:induction false} QueueWeightAppend(ls: Listeners, depth: map<Id, nat>, q: seq<Id>, x: Id)
    requires ParentsRanked(ls, depth) && (forall y :: y in q ==> y in depth) && x in depth
    ensures QueueWeight(ls, depth, q + [x]) == QueueWeight(ls, depth, q) + Weight(ls, depth, x)
  {
    if q == [] {
      assert [x][1..] == [];
    } else {
      assert (q + [x])[1..] == q[1..] + [x];
      QueueWeightAppend(ls, depth, q[1..], x);
    }
  }

  /** Weights depend only on which parents are subscribed where. */
  lemma {:induction false} WeightFrame(ls: Listeners, ls': Listeners, depth: map<Id, nat>, x: Id)
    requires ParentsRanked(ls, depth) && x in depth
    requires forall c :: UpdateParents(ls, c) == UpdateParents(ls', c)
    ensures ParentsRanked(ls', depth)
    ensures Weight(ls, depth, x) == Weight(ls', depth, x)
    decreases depth[x], 1, 0
  {
    assert UpdateParents(ls, x) == UpdateParents(ls', x);
    WeightBelowFrame(ls, ls', depth, UpdateParents(ls, x), depth[x]);
  }

  lemma {:induction false} WeightBelowFrame(ls: Listeners, ls': Listeners, depth: map<Id, nat>, ps: seq<Id>, bound: nat)
    requires ParentsRanked(ls, depth)
    requires forall p :: p in ps ==> p in depth && depth[p] < bound
    requires forall c :: UpdateParents(ls, c) == UpdateParents(ls', c)
    ensures ParentsRanked(ls', depth)
    ensures WeightBelow(ls, depth, ps, bound) == WeightBelow(ls', depth, ps, bound)
    decreases bound, 0, |ps|
  {
    assert ParentsRanked(ls', depth) by {
      forall c, p | p in UpdateParents(ls', c) ensures Above(depth, p, c) {
        assert UpdateParents(ls, c) == UpdateParents(ls', c);
        assert p in UpdateParents(ls, c);
      }
    }
    if ps != [] {
      WeightFrame(ls, ls', depth, ps[0]);
      WeightBelowFrame(ls, ls', depth, ps[1..], bound);
    }
  }

  lemma {:induction false} QueueWeightFrame(ls: Listeners, ls': Listeners, depth: map<Id, nat>, q: seq<Id>)
    requires ParentsRanked(ls, depth) && forall x :: x in q ==> x in depth
    requires forall c :: UpdateParents(ls, c) == UpdateParents(ls', c)
    ensures ParentsRanked(ls', depth)
    ensures QueueWeight(ls, depth, q) == QueueWeight(ls', depth, q)
  {
    WeightBelowFrame(ls, ls', depth, [], 0);
    if q != [] {
      WeightFrame(ls, ls', depth, q[0]);
      QueueWeightFrame(ls, ls', depth, q[1..]);
    }
  }

  /** Invoking callbacks schedules at most the parents of their forwarders, each at most once. */
  lemma {:induction false} DispatchQueue(s: State, es: seq<Entry>, args: seq<Value>, depth: map<Id, nat>)
    requires ParentsRanked(s.listeners, depth)
    requires forall x :: x in s.queue ==> x in depth
    requires forall p :: p in Parents(es) ==> p in depth
    ensures var r := Dispatch(s, es, args);
      && r.listeners == s.listeners && r.props == s.props
      && (forall x :: x in r.queue ==> x in s.queue || x in Parents(es))
      && QueueWeight(s.listeners, depth, r.queue) <=
           QueueWeight(s.listeners, depth, s.queue) + QueueWeight(s.listeners, depth, Parents(es))
    decreases |es|
  {
    if es != [] {
      var s1 := Invoke(s, es[0].cb, args);
      var rest := Parents(es[1..]);
      assert Parents(es) == (if es[0].cb.Forward? then [es[0].cb.parent] else []) + rest;
      if es[0].cb.Forward? {
        var p := es[0].cb.parent;
        assert ([p] + rest)[1..] == rest;
        assert QueueWeight(s.listeners, depth, Parents(es)) == Weight(s.listeners, depth, p) + QueueWeight(s.listeners, depth, rest);
        if p !in s.pending {
          QueueWeightAppend(s.listeners, depth, s.queue, p);
        }
      } else {
        assert Parents(es) == rest;
      }
      DispatchQueue(s1, es[1..], args, depth);
    }
  }

  /** What a flush does: pop the oldest channel, clear its flag, emit its `update`. */
  lemma FlushShape(s: State) returns (s1: State, es: seq<Entry>)
    requires s.queue != []
    ensures s1 == s.(queue := s.queue[1..], pending := s.pending - {s.queue[0]})
    ensures es == Entries(s, s.queue[0], Update)
    ensures es == [] ==> FlushOne(s) == s1
    ensures es != [] ==>
      (s.queue[0] in s1.listeners &&
       FlushOne(s) == Dispatch(WithEntries(s1, s.queue[0], Update, Persistent(es)), es, []))
  {
    s1 := s.(queue := s.queue[1..], pending := s.pending - {s.queue[0]});
    es := Entries(s, s.queue[0], Update);
    assert Entries(s1, s.queue[0], Update) == es;
  }

  /** A flush keeps the invariant and the depths, and strictly decreases the potential. */
  lemma FlushDecreases(s: State, depth: map<Id, nat>)
    requires Wf(s) && Ranked(s, depth) && s.queue != []
    ensures Wf(FlushOne(s)) && Ranked(FlushOne(s), depth)
    ensures FlushOne(s).props == s.props && FlushOne(s).nextId == s.nextId && FlushOne(s).nextWaiter == s.nextWaiter
    ensures Potential(FlushOne(s), depth) < Potential(s, depth)
  {
    FlushOneWf(s);
    RankedParents(s, depth);
    var ls := s.listeners;
    var x := s.queue[0];
    var s1, es := FlushShape(s);
    assert QueueWeight(ls, depth, s.queue) == Weight(ls, depth, x) + QueueWeight(ls, depth, s.queue[1..]);
    if es != [] {
      var s2 := WithEntries(s1, x, Update, Persistent(es));
      var ls2 := s2.listeners;
      SameParentsAfterFlush(s, depth, s2);
      forall p | p in Parents(es) ensures p in depth {
        assert p in UpdateParents(ls, x);
      }
      QueueWeightFrame(ls, ls2, depth, s.queue[1..]);
      QueueWeightFrame(ls, ls2, depth, Parents(es));
      DispatchQueue(s2, es, [], depth);
      WeightBelowIsQueueWeight(ls, depth, Parents(es), depth[x]);
    }
  }

  /** Unregistering the one-shot entries of the flushed channel keeps every forwarder. */
  lemma SameParentsAfterFlush(s: State, depth: map<Id, nat>, s2: State)
    requires Wf(s) && s.queue != [] && s.queue[0] in s.listeners
    requires s2.listeners == s.listeners[s.queue[0] := s.listeners[s.queue[0]][Update := Persistent(Entries(s, s.queue[0], Update))]]
    ensures forall c :: UpdateParents(s.listeners, c) == UpdateParents(s2.listeners, c)
  {
    var x := s.queue[0];
    var es := Entries(s, x, Update);
    forall e | e in es && e.cb.Forward? ensures !e.once {
      ForwarderLinked(s, x, Update, e);
    }
    ParentsPersistent(es);
    forall c ensures UpdateParents(s.listeners, c) == UpdateParents(s2.listeners, c) {
      if c != x {
        assert EntriesIn(s.listeners, c, Update) == EntriesIn(s2.listeners, c, Update);
      }
    }
  }

  /**
   Run deferred flushes, oldest first, until none is pending: the effect of
   one `await` in the test code. Terminates because the links are acyclic.
   */
  ghost function Settle(s: State, depth: map<Id, nat>): (r: State)
    requires Wf(s) && Ranked(s, depth)
    ensures Wf(r) && Ranked(r, depth)
    ensures r.queue == [] && r.pending == {}
    ensures r.props == s.props && r.nextId == s.nextId && r.nextWaiter == s.nextWaiter
    decreases Potential(s, depth)
  {
    if s.queue == [] then s
    else
      FlushDecreases(s, depth);
      Settle(FlushOne(s), depth)
  }
}
