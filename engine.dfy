/**
 The channel engine as a state machine over all live channels: the property
 store, the listener registries, the pending-flush flags and the queue of
 deferred flushes, all of which run at each `await` of the caller. Each
 operation is a function from the state before it to the state after it.
 */
module Engine {
  import opened Values
  import opened Registry

  /** The event a flush emits. */
  const Update: string := "update"

  type Listeners = map<Id, map<string, seq<Entry>>>

  datatype State = State(
    props: map<Id, map<string, Value>>,   // own data properties of each channel
    listeners: Listeners,                 // event name -> registrations, per channel
    pending: set<Id>,                     // channels with a flush scheduled
    queue: seq<Id>,                       // scheduled flushes, oldest first
    trace: seq<Invocation>,               // every callback invocation so far
    nextId: nat,                          // identity of the next channel built
    nextWaiter: nat)                      // identity of the next promise `wait` returns

  /** No channel yet. */
  const Empty: State := State(map[], map[], {}, [], [], 0, 0)

  predicate Live(s: State, id: Id) {
    id in s.props && id in s.listeners
  }

  function EntriesIn(ls: Listeners, id: Id, ev: string): seq<Entry> {
    if id in ls && ev in ls[id] then ls[id][ev] else []
  }

  /** The registrations of `ev` on channel `id`. */
  function Entries(s: State, id: Id, ev: string): seq<Entry> {
    EntriesIn(s.listeners, id, ev)
  }

  function WithEntries(s: State, id: Id, ev: string, es: seq<Entry>): State
    requires id in s.listeners
  {
    s.(listeners := s.listeners[id := s.listeners[id][ev := es]])
  }

  function WithProps(s: State, id: Id, p: map<string, Value>): State {
    s.(props := s.props[id := p])
  }

  // ---------------------------------------------------------------------
  // Invariant of reachable states
  // ---------------------------------------------------------------------

  predicate NoDup(q: seq<Id>) {
    forall i, j :: 0 <= i < j < |q| ==> q[i] != q[j]
  }

  /** The queue holds each pending channel exactly once, and only live channels. */
  ghost predicate QueueOk(s: State) {
    && NoDup(s.queue)
    && (forall x :: x in s.queue <==> x in s.pending)
    && s.pending <= s.props.Keys
  }

  /** Property `name` of `p` holds the channel `c`. */
  predicate Linked(s: State, p: Id, name: string, c: Id) {
    p in s.props && name in s.props[p] && s.props[p][name] == Ref(c)
  }

  /** Channels held in properties are live. */
  ghost predicate RefsLive(s: State) {
    forall p, name :: p in s.props && name in s.props[p] && s.props[p][name].Ref? ==>
      s.props[p][name].id in s.props
  }

  /**
   The parent-child links: channel `c` carries exactly one forwarder for
   property `name` of `p` on its `update` when that property holds `c`, and
   none otherwise.
   */
  ghost predicate LinkCounts(s: State) {
    forall c, p, name :: c in s.listeners ==>
      Count(Entries(s, c, Update), Forward(p, name)) == if Linked(s, p, name, c) then 1 else 0
  }

  /** Forwarders are persistent `update` registrations. */
  ghost predicate ForwardsPersistent(s: State) {
    forall c, ev, e :: c in s.listeners && ev in s.listeners[c] && e in s.listeners[c][ev] && e.cb.Forward? ==>
      ev == Update && !e.once
  }

  /** Promises handed out by `wait` are numbered below `nextWaiter`. */
  ghost predicate WaitersIssued(s: State) {
    && (forall c, ev, e :: c in s.listeners && ev in s.listeners[c] && e in s.listeners[c][ev] && e.cb.Waiter? ==>
          e.cb.w < s.nextWaiter)
    && (forall v :: v in s.trace && v.cb.Waiter? ==> v.cb.w < s.nextWaiter)
  }

  ghost predicate Wf(s: State) {
    && s.props.Keys == s.listeners.Keys
    && (forall id :: id in s.props ==> id < s.nextId)
    && QueueOk(s)
    && RefsLive(s)
    && LinkCounts(s)
    && ForwardsPersistent(s)
    && WaitersIssued(s)
  }

  // ---------------------------------------------------------------------
  // Construction
  // ---------------------------------------------------------------------

  /** `new Channel()`: a channel with no own data property and no listener, identified by `s.nextId`. */
  function NewChannel(s: State): (r: State)
    ensures Live(r, s.nextId) && r.props[s.nextId] == map[]
    ensures forall ev :: Entries(r, s.nextId, ev) == []
    ensures r.nextId == s.nextId + 1
  {
    s.(props := s.props[s.nextId := map[]],
       listeners := s.listeners[s.nextId := map[]],
       nextId := s.nextId + 1)
  }

  // ---------------------------------------------------------------------
  // Batching
  // ---------------------------------------------------------------------

  /** The mutation signal: schedule a flush of `id` unless one is already pending. */
  function Schedule(s: State, id: Id): (r: State)
    ensures id in r.pending
    ensures r.queue == if id in s.pending then s.queue else s.queue + [id]
    ensures r.pending == s.pending + {id}
    ensures r.props == s.props && r.listeners == s.listeners && r.trace == s.trace
    ensures r.nextId == s.nextId && r.nextWaiter == s.nextWaiter
  {
    if id in s.pending then s else s.(pending := s.pending + {id}, queue := s.queue + [id])
  }

  // ---------------------------------------------------------------------
  // Subscription
  // ---------------------------------------------------------------------

  /** `r` differs from `s` at most in the registrations of `ev` on `id` and in the promise counter. */
  ghost predicate OnlyEntriesOf(s: State, r: State, id: Id, ev: string) {
    && r.props == s.props && r.queue == s.queue && r.pending == s.pending
    && r.trace == s.trace && r.nextId == s.nextId
    && forall c, ev' :: c != id || ev' != ev ==> Entries(r, c, ev') == Entries(s, c, ev')
  }

  /** `on(ev, cb)`: append a persistent registration. */
  function On(s: State, id: Id, ev: string, cb: Callback): (r: State)
    requires id in s.listeners
    ensures Entries(r, id, ev) == Entries(s, id, ev) + [Entry(cb, false)]
    ensures OnlyEntriesOf(s, r, id, ev) && r.nextWaiter == s.nextWaiter
  {
    WithEntries(s, id, ev, Entries(s, id, ev) + [Entry(cb, false)])
  }

  /** `once(ev, cb)`: append a one-shot registration. */
  function Once(s: State, id: Id, ev: string, cb: Callback): (r: State)
    requires id in s.listeners
    ensures Entries(r, id, ev) == Entries(s, id, ev) + [Entry(cb, true)]
    ensures OnlyEntriesOf(s, r, id, ev) && r.nextWaiter == s.nextWaiter
  {
    WithEntries(s, id, ev, Entries(s, id, ev) + [Entry(cb, true)])
  }

  /** `off(ev, cb)`: unregister every registration of `cb` for `ev`, keeping the others in order. */
  function Off(s: State, id: Id, ev: string, cb: Callback): (r: State)
    requires id in s.listeners
    ensures Entries(r, id, ev) == Without(Entries(s, id, ev), cb)
    ensures Count(Entries(r, id, ev), cb) == 0
    ensures OnlyEntriesOf(s, r, id, ev) && r.nextWaiter == s.nextWaiter
  {
    CountWithout(Entries(s, id, ev), cb, cb);
    WithEntries(s, id, ev, Without(Entries(s, id, ev), cb))
  }

  /** `wait(ev)`: a one-shot registration of the resolver of a new promise, numbered `s.nextWaiter`. */
  function Wait(s: State, id: Id, ev: string): (r: State)
    requires id in s.listeners
    ensures Entries(r, id, ev) == Entries(s, id, ev) + [Entry(Waiter(s.nextWaiter), true)]
    ensures OnlyEntriesOf(s, r, id, ev) && r.nextWaiter == s.nextWaiter + 1
  {
    Once(s, id, ev, Waiter(s.nextWaiter)).(nextWaiter := s.nextWaiter + 1)
  }

  // ---------------------------------------------------------------------
  // Property store and parent-child links
  // ---------------------------------------------------------------------

  /** Tear down the subscription that property `name` of `id` holds on a child channel, if any. */
  function Unlink(s: State, id: Id, name: string): State
    requires id in s.props
  {
    if name in s.props[id] && s.props[id][name].Ref? && s.props[id][name].id in s.listeners
    then Off(s, s.props[id][name].id, Update, Forward(id, name))
    else s
  }

  /** Subscribe `id` to the `update` of the channel `v`, if `v` is one. */
  function Link(s: State, id: Id, name: string, v: Value): State {
    if v.Ref? && v.id in s.listeners then On(s, v.id, Update, Forward(id, name)) else s
  }

  /** `obj[name] = v`: store, re-link, and signal a mutation even when the value is unchanged. */
  function Set(s: State, id: Id, name: string, v: Value): (r: State)
    requires id in s.props
    ensures r.props == s.props[id := s.props[id][name := v]]
    ensures r.queue == if id in s.pending then s.queue else s.queue + [id]
    ensures r.pending == s.pending + {id}
    ensures r.trace == s.trace && r.nextId == s.nextId && r.nextWaiter == s.nextWaiter
  {
    var s1 := Unlink(s, id, name);
    Schedule(Link(WithProps(s1, id, s1.props[id][name := v]), id, name, v), id)
  }

  /** `delete obj[name]`: remove the key entirely, tear down its link, and signal a mutation. */
  function Delete(s: State, id: Id, name: string): (r: State)
    requires id in s.props
    ensures r.props == s.props[id := s.props[id] - {name}]
    ensures r.queue == if id in s.pending then s.queue else s.queue + [id]
    ensures r.pending == s.pending + {id}
    ensures r.trace == s.trace && r.nextId == s.nextId && r.nextWaiter == s.nextWaiter
  {
    var s1 := Unlink(s, id, name);
    Schedule(WithProps(s1, id, s1.props[id] - {name}), id)
  }

  // ---------------------------------------------------------------------
  // Emission and flushing
  // ---------------------------------------------------------------------

  /** Call one callback: record the call; a forwarder also signals a mutation of its parent. */
  function Invoke(s: State, cb: Callback, args: seq<Value>): (r: State)
    ensures r.trace == s.trace + [Invocation(cb, args)]
    ensures r.props == s.props && r.listeners == s.listeners
    ensures r.nextId == s.nextId && r.nextWaiter == s.nextWaiter
  {
    var s1 := s.(trace := s.trace + [Invocation(cb, args)]);
    if cb.Forward? then Schedule(s1, cb.parent) else s1
  }

  /** Call the callbacks of `es` in order: exactly their invocations are recorded, and no registry or property changes. */
  function Dispatch(s: State, es: seq<Entry>, args: seq<Value>): (r: State)
    ensures r.trace == s.trace + Invocations(es, args)
    ensures r.props == s.props && r.listeners == s.listeners
    ensures r.nextId == s.nextId && r.nextWaiter == s.nextWaiter
    decreases |es|
  {
    if es == [] then s
    else
      DispatchStep(s, es, args);
      Dispatch(Invoke(s, es[0].cb, args), es[1..], args)
  }

  /** The first invocation of a dispatch, then the rest. */
  lemma DispatchStep(s: State, es: seq<Entry>, args: seq<Value>)
    requires es != []
    ensures s.trace + Invocations(es, args) == Invoke(s, es[0].cb, args).trace + Invocations(es[1..], args)
  {
    assert Invocations(es, args) == [Invocation(es[0].cb, args)] + Invocations(es[1..], args);
  }

  /**
   `emit(ev, ...args)`: the registrations present when the call starts are
   invoked in order with `args`; one-shot ones are unregistered before any of
   them runs.
   */
  function Emit(s: State, id: Id, ev: string, args: seq<Value>): (r: State)
    ensures r.trace == s.trace + Invocations(Entries(s, id, ev), args)
    ensures Entries(r, id, ev) == Persistent(Entries(s, id, ev))
    ensures r.props == s.props && r.nextId == s.nextId && r.nextWaiter == s.nextWaiter
  {
    var es := Entries(s, id, ev);
    if es == [] then s else Dispatch(WithEntries(s, id, ev, Persistent(es)), es, args)
  }

  /** Run the oldest deferred flush: clear the channel's pending flag first, then emit `update`. */
  function FlushOne(s: State): (r: State)
    requires s.queue != []
    ensures r.trace == s.trace + Invocations(Entries(s, s.queue[0], Update), [])
    ensures Entries(r, s.queue[0], Update) == Persistent(Entries(s, s.queue[0], Update))
    ensures r.props == s.props && r.nextId == s.nextId && r.nextWaiter == s.nextWaiter
  {
    var x := s.queue[0];
    Emit(s.(queue := s.queue[1..], pending := s.pending - {x}), x, Update, [])
  }

  // ---------------------------------------------------------------------
  // Structural view
  // ---------------------------------------------------------------------

  /**
   The channel `id` as `toEqual` sees it, expanding only channels in `avail`:
   a record of the own data properties, with child channels expanded in turn.
   */
  function ViewOf(s: State, id: Id, avail: set<Id>): (j: Json)
    ensures id in avail && id in s.props ==> j.JObject? && j.fields.Keys == s.props[id].Keys
    ensures id in avail && id in s.props ==>
      forall name :: name in s.props[id] && s.props[id][name].Plain? ==> j.fields[name] == JsonOf(s.props[id][name].p)
    decreases avail
  {
    if id in avail && id in s.props then
      var own := s.props[id];
      JObject(map name | name in own ::
        match own[name]
        case Plain(p) => JsonOf(p)
        case Ref(c) => ViewOf(s, c, avail - {id}))
    else JCircular
  }

  /** The structural value of channel `id`: nothing but its own data properties, expanded. */
  function View(s: State, id: Id): (j: Json)
    ensures id in s.props ==> j.JObject? && j.fields.Keys == s.props[id].Keys
    ensures id in s.props ==>
      forall name :: name in s.props[id] && s.props[id][name].Plain? ==> j.fields[name] == JsonOf(s.props[id][name].p)
  {
    ViewOf(s, id, s.props.Keys)
  }
}
