# modelly `Channel`: a verified model of the observable-object engine

modelly's `Channel` is a base class for observable model objects. A channel
keeps two kinds of state:

- Own data properties. These are what Jest's `toEqual` compares.
- Hidden bookkeeping:
  - a listener registry, one ordered list of registrations per event name, each registration marked persistent (`on`) or one-shot (`once`);
  - a pending-flush flag;
  - subscriptions to the channels it holds.

A write or a `delete` on a property signals a mutation. The first mutation
after a flush schedules a deferred flush. The later writes of the same
synchronous burst add nothing, so the whole burst yields one `update`. A flush
clears the flag and then emits `update`. When a channel is stored in a property
of another channel, the parent subscribes to the child's `update`. A flush of
the child then schedules a flush of the parent. `emit` calls the registrations
present when it starts, in order, and unregisters the one-shot ones before any
callback runs. `wait(ev)` is a one-shot registration that resolves the awaited
promise the next time `ev` is emitted.

Only the test suite `packages/modelly/src/channel.test.ts` pins this behaviour
down. The engine is rebuilt from it in three layers.

- **Specification** (modules `Values`, `Registry`, `Engine`):
  - a `State` datatype holding every live channel's properties, registries and pending flag;
  - the queue of deferred flushes, all of which run at each `await` of the test code;
  - a trace of every callback invocation;
  - one function per operation.

  Callbacks are data:
  - `Counter(k)` is the `k`-th `jest.fn`, and its calls are `CallsOf(trace, Counter(k))`;
  - `Waiter(w)` resolves the `w`-th promise returned by `wait`;
  - `Forward(p, name)` is the subscription of property `name` of `p` on a child.

  `View` is what `toEqual` sees: the own properties, with child channels expanded recursively.
- **Invariants and properties** (modules `Invariants`, `Settling`, `Properties`, `Bursts`, `Awaiting`):
  - `Wf`: the queue holds each pending channel exactly once, and each link has exactly one persistent forwarder.
  - `Settling.Settle` drains the queue; this is what one `await` lets run. It terminates when the links are acyclic: a `Ranked` depth map orders parents above children, and every queued channel is weighed by the flushes it can still cause.
  - The other modules prove coalescing, once-only delivery, forwarding from child to parent, the resolution of awaited promises and what the view shows.
- **The running engine** (module `Channels`): class `World`. Its methods update maps and sequences in place. `Dispatch` and `Settle` are `while` loops. Each method is proved to leave exactly the state its specification function computes.

Module `Scenarios` replays each of the nine tests on a fresh `World`. Each
scenario returns what the test observes (views, call lists, resolutions of the
awaited promises), and its postcondition is the test's expectations.

The domain methods `fetch` and `login` belong to classes that are not part of
this model. Each is scripted as two bursts of writes with a `Settle` between
them:

- `fetch` raises `fetching`, then lowers it and copies the mock user.
- `login` raises `fetching`, then builds the user channel, stores it in `currentUser` and lowers the flag.

## Model

| member | source | states |
|---|---|---|
| Engine.NewChannel | packages/modelly/src/channel.test.ts:11 | a new channel is live, has no own property and no registration, and gets a fresh identity |
| Engine.Set | packages/modelly/src/channel.test.ts:22-23 | a write stores the value under its name and changes no other property; a flush is queued only when none is pending, and no callback runs |
| Engine.Delete | packages/modelly/src/channel.test.ts:45-46 | `delete` removes the key entirely and signals a mutation like a write |
| Engine.On | packages/modelly/src/channel.test.ts:20 | `on` appends one persistent registration at the end of the event's list and changes nothing else |
| Engine.Once | packages/modelly/src/channel.test.ts:35 | `once` appends one one-shot registration at the end of the event's list and changes nothing else |
| Engine.Wait | packages/modelly/src/channel.test.ts:25 | `wait` appends a one-shot registration of a promise with the next fresh number and changes nothing else |
| Engine.Off | packages/modelly/src/channel.test.ts:93-96 | `off` removes every registration of the callback from the event's list, keeps the others in order, and changes no other list, property, queue or trace; the engine uses it to tear down a link when a property holding a channel is rewritten or deleted |
| Engine.Dispatch | packages/modelly/src/channel.test.ts:194-197 | calling the taken registrations records exactly their invocations, in order, with the payload, and changes no registry or property |
| Engine.Emit | packages/modelly/src/channel.test.ts:194-197 | `emit` records one invocation per registration present when it starts, in order, with the payload; afterwards only the persistent registrations of that event remain; no property changes |
| Engine.FlushOne | packages/modelly/src/channel.test.ts:25 | a flush emits `update` with no payload on the oldest queued channel, leaving only its persistent `update` registrations and changing no property |
| Engine.View | packages/modelly/src/channel.test.ts:13 | the record `toEqual` compares has exactly the channel's own property names, with plain values shown as themselves |
| Engine.ViewOf | packages/modelly/src/channel.test.ts:13 | the compared record has exactly the channel's own property names, with plain values shown as themselves |
| Properties.EmitInOrder | packages/modelly/src/channel.test.ts:194 | `emit` calls exactly the registrations present when it starts, in registration order, with the payload; it leaves only the persistent ones registered for that event and changes no other registry or property |
| Properties.EmitCalls | packages/modelly/src/channel.test.ts:194-197 | after an `emit`, a callback has its earlier calls followed by one call per registration it had, each with the payload |
| Properties.EmitCallsOnce | packages/modelly/src/channel.test.ts:193-197 | a callback registered once receives exactly one new call, carrying the payload |
| Properties.EmitUnregistersOnce | packages/modelly/src/channel.test.ts:35-51 | after an `emit`, a callback registered only one-shot is no longer registered for that event |
| Properties.WaitResolvesOnNextEmit | packages/modelly/src/channel.test.ts:25 | a fresh `wait` is unresolved, and the next emission of its event resolves it exactly once and unregisters it |
| Properties.SettleResolves | packages/modelly/src/channel.test.ts:25 | waiting on a pending channel's `update` and draining the queue resolves the promise exactly once and leaves nothing registered for it |
| Properties.AwaitUpdateCompletes | packages/modelly/src/channel.test.ts:25 | `await x.wait('update')` on a mutated channel completes: its promise is resolved exactly once |
| Properties.ChildUpdateSchedulesParent | packages/modelly/src/channel.test.ts:104-110 | an `update` of a held channel marks its parent pending |
| Properties.SettleAbove | packages/modelly/src/channel.test.ts:98-102 | draining flushes of channels above `id` never calls a callback registered only on `id` |
| Properties.SettleUnregistered | packages/modelly/src/channel.test.ts:127 | draining the queue never calls an unregistered callback, and it stays unregistered |
| Properties.SettleKeepsPersistent | packages/modelly/src/channel.test.ts:58-71 | draining the queue keeps every persistent registration of a callback where it was |
| Properties.SettleKeepsParents | packages/modelly/src/channel.test.ts:104-110 | draining the queue keeps every child-to-parent subscription |
| Properties.BookkeepingHidden | packages/modelly/src/channel.test.ts:13 | `on`, `once`, `off`, `wait`, `emit` and a flush never change any view: bookkeeping never shows in `toEqual` |
| Properties.ViewExpands | packages/modelly/src/channel.test.ts:84 | with acyclic links, a channel's view is the record of its own properties, with held channels replaced by their views |
| Properties.NestedView | packages/modelly/src/channel.test.ts:109 | the parent's view embeds the held child's current view under the property name |
| Properties.SetView | packages/modelly/src/channel.test.ts:22-27 | after a write, the view gains the written name with the written value and keeps every other field |
| Properties.DeleteView | packages/modelly/src/channel.test.ts:45-50 | after a `delete`, the view loses the name and keeps every other field unchanged |
| Settling.FlushDecreases | packages/modelly/src/channel.test.ts:25 | one flush keeps the invariant and the ranking, changes no property and strictly decreases the number of flushes still possible |
| Settling.Settle | packages/modelly/src/channel.test.ts:25 | after an `await` nothing is pending, no property has changed, and the invariant holds |
| Invariants.SetWf | packages/modelly/src/channel.test.ts:96 | a write keeps the invariant, including exactly one forwarder per held child after re-linking |
| Invariants.DeleteWf | packages/modelly/src/channel.test.ts:45-46 | a `delete` keeps the invariant and tears down the link it held |
| Invariants.EmitWf | packages/modelly/src/channel.test.ts:194 | `emit` keeps the invariant |
| Invariants.FlushOneWf | packages/modelly/src/channel.test.ts:25 | a flush keeps the invariant |
| Bursts.BurstCoalesces | packages/modelly/src/channel.test.ts:22-23 | a burst of writes queues the channel at most once, and only if it was not already pending; no callback runs |
| Bursts.BurstNotifiesOnce | packages/modelly/src/channel.test.ts:16-29 | a burst followed by an `await` calls a registered `update` listener exactly once with no payload; a one-shot listener is then unregistered |
| Bursts.SilentThroughBurst | packages/modelly/src/channel.test.ts:48-51 | a burst followed by an `await` never calls an unregistered listener |
| Bursts.ChildBurstNotifiesParent | packages/modelly/src/channel.test.ts:104-110 | a burst on a held child followed by an `await` calls the parent's `update` listener exactly once |
| Bursts.BurstKeepsUserEntries | packages/modelly/src/channel.test.ts:96 | writes and re-linking leave every non-forwarder registration unchanged |
| Awaiting.AwaitOwnUpdate | packages/modelly/src/channel.test.ts:37-43 | a burst followed by `await x.wait('update')` calls the channel's own listener exactly once; a one-shot listener is then unregistered |
| Awaiting.AwaitSilent | packages/modelly/src/channel.test.ts:123-127 | a burst followed by `await x.wait('update')` never calls an unregistered callback |
| Awaiting.AwaitBelow | packages/modelly/src/channel.test.ts:96-102 | a burst on a parent followed by an `await` never calls a listener registered only on a deeper channel |
| Awaiting.AwaitParent | packages/modelly/src/channel.test.ts:138-144 | a burst on a held child followed by `await parent.wait('update')` calls the parent's listener exactly once |
| Awaiting.AwaitOwnResolves | packages/modelly/src/channel.test.ts:25 | `await x.wait('update')` after a burst on `x` resolves exactly once |
| Awaiting.AwaitParentResolves | packages/modelly/src/channel.test.ts:140 | `await parent.wait('update')` after a burst on its held child resolves exactly once |
| Awaiting.AwaitKeepsPersistent | packages/modelly/src/channel.test.ts:58-71 | a burst followed by an `await` keeps every persistent registration of a listener |
| Channels.World.constructor | packages/modelly/src/channel.test.ts:17 | the engine starts with no channel, no registration and an empty queue |
| Channels.World.NewChannel | packages/modelly/src/channel.test.ts:17 | builds the channel `Engine.NewChannel` specifies, empty and with a fresh identity |
| Channels.World.Schedule | packages/modelly/src/channel.test.ts:22-23 | sets the pending flag and queues the channel only if it was not pending |
| Channels.World.Register | packages/modelly/src/channel.test.ts:20 | appends a registration to one event's list and changes nothing else |
| Channels.World.On | packages/modelly/src/channel.test.ts:20 | the state `Engine.On` specifies, and the invariant is kept |
| Channels.World.Once | packages/modelly/src/channel.test.ts:35 | the state `Engine.Once` specifies, and the invariant is kept |
| Channels.World.Unsubscribe | packages/modelly/src/channel.test.ts:96 | removes a callback's registrations from one list in place, to the state `Engine.Off` specifies; `Set` and `Delete` use it to tear down the link a property held |
| Channels.World.Off | packages/modelly/src/channel.test.ts:93-94 | `off` on a non-forwarder callback: the state `Engine.Off` specifies, and the invariant is kept |
| Channels.World.Wait | packages/modelly/src/channel.test.ts:25 | the state `Engine.Wait` specifies and the new promise's number |
| Channels.World.Set | packages/modelly/src/channel.test.ts:22-23 | the state `Engine.Set` specifies, with re-linking done in place |
| Channels.World.Delete | packages/modelly/src/channel.test.ts:45-46 | the state `Engine.Delete` specifies |
| Channels.World.Invoke | packages/modelly/src/channel.test.ts:196-197 | records the call and marks a forwarder's parent mutated |
| Channels.World.Dispatch | packages/modelly/src/channel.test.ts:194 | its loop over the taken registrations leaves the state `Engine.Emit` specifies |
| Channels.World.Emit | packages/modelly/src/channel.test.ts:194 | the state `Engine.Emit` specifies, and the invariant is kept |
| Channels.World.FlushOne | packages/modelly/src/channel.test.ts:25 | runs the oldest deferred flush as `Engine.FlushOne` specifies |
| Channels.World.Settle | packages/modelly/src/channel.test.ts:25 | its loop drains the queue to the state `Settling.Settle` specifies |
| Channels.World.AwaitUpdate | packages/modelly/src/channel.test.ts:25 | `await x.wait('update')`: a wait followed by a full drain |
| Scenarios.MockView | packages/modelly/src/channel.test.ts:13 | a channel holding the two mock fields equals the mock user |
| Scenarios.CreateAModel | packages/modelly/src/channel.test.ts:5-14 | a channel whose class initialises the two mock fields equals the mock user |
| Scenarios.UpdateAModel | packages/modelly/src/channel.test.ts:16-29 | two writes and an `await` give the mock user and exactly one `update` call; the awaited promise resolves once |
| Scenarios.UpdateAModelOneTime | packages/modelly/src/channel.test.ts:31-52 | the view is the mock user and then the empty record once both keys are deleted; the `once` listener is called once in total; each promise resolves once |
| Scenarios.AsyncUpdateAModel | packages/modelly/src/channel.test.ts:54-72 | the views are `{fetching: true}` and then `{fetching: false, ...mock}`, with one and then two `update` calls |
| Scenarios.CreateNestedModel | packages/modelly/src/channel.test.ts:74-85 | the parent equals `{currentUser: mock}` |
| Scenarios.AttachAndAwait | packages/modelly/src/channel.test.ts:96-98 | assigning the child to `currentUser` and awaiting the parent reach the named state of the test |
| Scenarios.WriteUserAndAwait | packages/modelly/src/channel.test.ts:104-107 | the child's writes and the `await` on the child reach the named state of the test |
| Scenarios.UpdateNestedModel | packages/modelly/src/channel.test.ts:87-112 | attaching gives `{currentUser: {}}` with one parent call and no child call; the child's writes then give `{currentUser: mock}`, two parent calls and one child call |
| Scenarios.LogInAndAwait | packages/modelly/src/channel.test.ts:129-130 | the continuation of `login` and the `await` that follows it reach the named state of the test |
| Scenarios.FetchUserAndAwait | packages/modelly/src/channel.test.ts:136-140 | subscribing on the child, the head of its `fetch` and the `await` reach the named state of the test |
| Scenarios.FinishUserAndAwait | packages/modelly/src/channel.test.ts:146-147 | the continuation of the child's `fetch` and the `await` reach the named state of the test |
| Scenarios.AsyncUpdateANestedModel | packages/modelly/src/channel.test.ts:114-155 | the four views asserted by the test, with parent counts 1, 2, 3, 4, child counts 0, 0, 1, 2 and each promise resolved once |
| Scenarios.CreateACustomChannel | packages/modelly/src/channel.test.ts:157-187 | the injected API client is an ordinary property: the views are `{api, fetching: true}` and `{api, fetching: false, ...mock}`, with one and then two `update` calls |
| Scenarios.TriggerACustomEvent | packages/modelly/src/channel.test.ts:189-198 | a `once` listener of a custom event is called exactly once, synchronously, with `'world'` |

## Left out

- The JavaScript `Proxy` that traps property access is not modelled. Writes and deletes are explicit `Set` and `Delete` calls.
- Promises, microtasks and `setTimeout` are not modelled:
  - the engine's deferred flushes are an explicit FIFO queue;
  - an `await` runs the queue to empty (`Settle`);
  - `await promise` on a domain method is the scripted continuation burst of that method;
  - the 100 ms timer of the injected API client is not modelled.
- Jest itself becomes data and functions:
  - `jest.fn` is a callback that only records its calls;
  - `toEqual` compares `View` results;
  - `toHaveBeenCalledTimes(n)` is the length of the recorded call list.
- The `User`, `Auth` and `InjectedUser` classes (`./test/base`, `./test/injection`) are not part of this model:
  - their `fetch` and `login` are scripted write bursts;
  - the injected API client is an opaque `Foreign` value that `toEqual` compares by identity.
- Scenarios.CreateACustomChannel: the call count of `api.getCurrentUser` is not modelled, because the client's method is not part of this model.
- Scenarios.AsyncUpdateAModel: the call counts are stated as lengths, because the test checks only how many calls there were. The same holds for the count-only outputs of Scenarios.UpdateNestedModel, Scenarios.AsyncUpdateANestedModel and Scenarios.CreateACustomChannel.
- Class-field initialisers (`displayName = User.mock.displayName`) are modelled as ordinary writes right after construction. They schedule one flush like any other write.
- The implementation file `packages/modelly/src/channel.ts` is not part of this model. Its behaviour is rebuilt from the suite:
  - a write signals a mutation even when the value is unchanged;
  - deleting an absent key also signals a mutation;
  - `off` removes every registration of a callback for an event; the suite never calls it directly, and the engine uses it to tear down links.
- Listener exceptions are not modelled; callbacks never fail.
- Reference cycles between channels are not modelled. `Settle` requires an acyclic `Ranked` depth map, and `View` shows a revisited channel as `JCircular`.
