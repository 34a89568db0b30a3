/**
 The suite's nine scenarios, run on a fresh world. Each method returns what
 its test observes (views, the calls a `jest.fn` received, the resolutions of
 the awaited promises) and its postcondition states the test's expectations.
 The mock user's display name and e-mail are parameters.

 Each step of a scenario is also named as a state of the specification
 (`Listened`, `Written`, `Updated`, ...): the lemmas beside it state what the
 test observes there, and the method follows the sequence of states.
 Channel 0 is always the first one built, channel 1 the second; callback
 `Counter(k)` is the `k`-th `jest.fn` a test creates.
 */
module Scenarios {
  import opened Values
  import opened Registry
  import opened Engine
  import opened Invariants
  import opened Settling
  import opened Properties
  import opened Bursts
  import opened Awaiting
  import opened Channels

  // ---------------------------------------------------------------------
  // The fixtures: the mock user and the scripted bodies of the async methods
  // ---------------------------------------------------------------------

  /** `User.mock`: the two fields the mock user has. */
  function Mock(displayName: string, email: string): Json {
    JObject(map["displayName" := JStr(displayName), "email" := JStr(email)])
  }

  /** The writes that copy the mock user onto a channel. */
  function MockWrites(displayName: string, email: string): seq<Write> {
    [Assign("displayName", Plain(Str(displayName))), Assign("email", Plain(Str(email)))]
  }

  /** The synchronous head of `fetch` and of `login`: raise the `fetching` flag. */
  function Begin(): seq<Write> {
    [Assign("fetching", Plain(Bool(true)))]
  }

  /** The continuation of `fetch` once the fetched user arrives: lower the flag, copy the mock user. */
  function FetchEnd(displayName: string, email: string): seq<Write> {
    [Assign("fetching", Plain(Bool(false))), Assign("displayName", Plain(Str(displayName))), Assign("email", Plain(Str(email)))]
  }

  /** The continuation of `login` with the new user channel `user`: hold it, lower the flag. */
  function LoginEnd(user: Id): seq<Write> {
    [Assign("currentUser", Ref(user)), Assign("fetching", Plain(Bool(false)))]
  }

  /** The one-level ranking of a world with one channel. */
  function Flat(): map<Id, nat> {
    map[0 := 0]
  }

  /** Channel 0 holds channel 1. */
  function Deep(): map<Id, nat> {
    Flat()[1 := 1]
  }

  // ---------------------------------------------------------------------
  // Writes the tests run as separate statements form one burst
  // ---------------------------------------------------------------------

  lemma OneWrite(s: State, depth: map<Id, nat>, id: Id, ws: seq<Write>)
    requires Wf(s) && Ranked(s, depth) && id in s.props && |ws| == 1 && Deeper(depth, id, ws[0])
    ensures Burst(s, id, ws) == Apply(s, id, ws[0])
    ensures RefsIn(s, ws) && Ranked(Burst(s, id, ws), depth) && Wf(Burst(s, id, ws))
  {
    BurstStep(s, id, ws);
    RankedBurst(s, depth, id, ws);
    BurstWf(s, id, ws);
  }

  lemma TwoWrites(s: State, depth: map<Id, nat>, id: Id, ws: seq<Write>)
    requires Wf(s) && Ranked(s, depth) && id in s.props && |ws| == 2
    requires Deeper(depth, id, ws[0]) && Deeper(depth, id, ws[1])
    ensures Burst(s, id, ws) == Apply(Apply(s, id, ws[0]), id, ws[1])
    ensures RefsIn(s, ws) && Ranked(Burst(s, id, ws), depth) && Wf(Burst(s, id, ws))
  {
    assert ws == [ws[0], ws[1]];
    BurstOfTwo(s, id, ws[0], ws[1]);
    RankedBurst(s, depth, id, ws);
    BurstWf(s, id, ws);
  }

  lemma ThreeWrites(s: State, depth: map<Id, nat>, id: Id, ws: seq<Write>)
    requires Wf(s) && Ranked(s, depth) && id in s.props && |ws| == 3
    requires Deeper(depth, id, ws[0]) && Deeper(depth, id, ws[1]) && Deeper(depth, id, ws[2])
    ensures Burst(s, id, ws) == Apply(Apply(Apply(s, id, ws[0]), id, ws[1]), id, ws[2])
    ensures RefsIn(s, ws) && Ranked(Burst(s, id, ws), depth) && Wf(Burst(s, id, ws))
  {
    BurstOfThree(s, id, ws);
    assert forall i :: 0 <= i < |ws| ==> Deeper(depth, id, ws[i]) by {
      forall i | 0 <= i < |ws| ensures Deeper(depth, id, ws[i]) {
        assert i == 0 || i == 1 || i == 2;
      }
    }
    RankedBurst(s, depth, id, ws);
    BurstWf(s, id, ws);
  }

  // ---------------------------------------------------------------------
  // Views of the channels the tests build
  // ---------------------------------------------------------------------

  /** The view of a channel holding plain values only, given field by field. */
  lemma PlainShows(s: State, id: Id, j: map<string, Json>)
    requires id in s.props && j.Keys == s.props[id].Keys
    requires forall n :: n in j ==> s.props[id][n].Plain? && j[n] == JsonOf(s.props[id][n].p)
    ensures View(s, id) == JObject(j)
  {
    assert View(s, id).fields == j;
  }

  /** The view of a channel given field by field, each plain value as itself and each child as its view. */
  lemma FieldsShow(s: State, depth: map<Id, nat>, id: Id, j: map<string, Json>)
    requires Ranked(s, depth) && id in s.props && j.Keys == s.props[id].Keys
    requires forall n :: n in j ==> j[n] == Shown(s, s.props[id][n])
    ensures View(s, id) == JObject(j)
  {
    ViewExpands(s, depth, id);
  }

  // ---------------------------------------------------------------------
  // create a model
  // ---------------------------------------------------------------------

  /** The own properties of the mock user. */
  function MockProps(displayName: string, email: string): map<string, Value> {
    map["displayName" := Plain(Str(displayName)), "email" := Plain(Str(email))]
  }

  /** A channel whose own properties are the mock user's. */
  lemma MockView(s: State, id: Id, displayName: string, email: string)
    requires id in s.props && s.props[id] == MockProps(displayName, email)
    ensures View(s, id) == Mock(displayName, email)
  {
    var j := View(s, id);
    assert j.fields.Keys == {"displayName", "email"};
    assert j.fields == Mock(displayName, email).fields;
  }

  /** `create a model`: field initialisers are data properties, and only they show. */
  method CreateAModel(displayName: string, email: string) returns (user: Json)
    ensures user == Mock(displayName, email)
  {
    var world := new World();
    var u := world.NewChannel();
    world.Set(u, "displayName", Plain(Str(displayName)));
    world.Set(u, "email", Plain(Str(email)));
    MockView(world.State(), u, displayName, email);
    user := View(world.State(), u);
  }

  // ---------------------------------------------------------------------
  // update a model
  // ---------------------------------------------------------------------

  /** The first channel of a fresh world, with `userFn` subscribed to its `update`. */
  function Listened(): State {
    On(NewChannel(Empty), 0, Update, Counter(0))
  }

  lemma ListenedFacts()
    ensures var s := Listened();
      && Wf(s) && 0 in s.props && s.props == map[0 := map[]] && s.queue == [] && s.trace == [] && s.nextWaiter == 0
      && Ranked(s, Flat()) && ListensTo(s, Counter(0), 0)
  {
    EmptyUnregistered(Counter(0));
    NewChannelWf(Empty);
    OnWf(NewChannel(Empty), 0, Update, Counter(0));
    OnFirst(NewChannel(Empty), 0, Counter(0));
  }

  /** After the two writes of the mock user, before any flush. */
  function Written(displayName: string, email: string): State {
    Set(Set(Listened(), 0, "displayName", Plain(Str(displayName))), 0, "email", Plain(Str(email)))
  }

  lemma WrittenFacts(displayName: string, email: string)
    ensures var s := Written(displayName, email);
      && Wf(s) && 0 in s.listeners && Ranked(s, Flat())
      && s == Burst(Listened(), 0, MockWrites(displayName, email))
      && RefsIn(Listened(), MockWrites(displayName, email))
  {
    var ws := MockWrites(displayName, email);
    ListenedFacts();
    TwoWrites(Listened(), Flat(), 0, ws);
  }

  /** After the writes and one `await user.wait('update')`. */
  ghost function Updated(displayName: string, email: string): State {
    ListenedFacts();
    WrittenFacts(displayName, email);
    BurstThenAwait(Listened(), Flat(), 0, MockWrites(displayName, email), 0)
  }

  lemma UpdatedCalls(displayName: string, email: string)
    ensures CallsOf(Updated(displayName, email).trace, Counter(0)) == [[]]
    ensures CallsOf(Updated(displayName, email).trace, Waiter(Listened().nextWaiter)) == [[]]
  {
    ListenedFacts();
    WrittenFacts(displayName, email);
    var ws := MockWrites(displayName, email);
    AwaitOwnUpdate(Listened(), Flat(), 0, ws, 0, Counter(0));
    AwaitOwnResolves(Listened(), Flat(), 0, ws);
  }

  lemma UpdatedView(displayName: string, email: string)
    ensures View(Updated(displayName, email), 0) == Mock(displayName, email)
  {
    ListenedFacts();
    WrittenFacts(displayName, email);
    MockWritesProps(Listened(), displayName, email);
    MockView(Updated(displayName, email), 0, displayName, email);
  }

  /** Copying the mock user onto the lone channel with no own data property. */
  lemma MockWritesProps(s: State, displayName: string, email: string)
    requires s.props == map[0 := map[]]
    ensures Set(Set(s, 0, "displayName", Plain(Str(displayName))), 0, "email", Plain(Str(email))).props[0]
      == MockProps(displayName, email)
  {
  }

  /** `update a model`: two writes, one `update`. */
  method UpdateAModel(displayName: string, email: string) returns (user: Json, userCalls: seq<seq<Value>>, awaited: seq<seq<Value>>)
    ensures user == Mock(displayName, email)
    ensures userCalls == [[]]
    ensures awaited == [[]]
  {
    var world := new World();
    var u := world.NewChannel();
    var userFn := Counter(0);
    world.On(u, Update, userFn);
    world.Set(u, "displayName", Plain(Str(displayName)));
    world.Set(u, "email", Plain(Str(email)));
    assert world.State() == Written(displayName, email);
    WrittenFacts(displayName, email);
    var w := world.AwaitUpdate(u, Flat());
    assert world.State() == Updated(displayName, email);
    UpdatedCalls(displayName, email);
    UpdatedView(displayName, email);
    user := View(world.State(), u);
    userCalls := CallsOf(world.trace, userFn);
    awaited := CallsOf(world.trace, Waiter(w));
  }

  // ---------------------------------------------------------------------
  // update a model one-time
  // ---------------------------------------------------------------------

  /** The first channel of a fresh world, with `userFn` registered once for its `update`. */
  function OnceListened(): State {
    Once(NewChannel(Empty), 0, Update, Counter(0))
  }

  lemma OnceListenedFacts()
    ensures var s := OnceListened();
      && Wf(s) && 0 in s.props && s.props[0] == map[] && s.queue == [] && s.trace == [] && s.nextWaiter == 0
      && Ranked(s, Flat())
      && Count(Entries(s, 0, Update), Counter(0)) == 1 && RegisteredOnlyAt(s, Counter(0), 0)
      && forall e :: e in Entries(s, 0, Update) && e.cb == Counter(0) ==> e.once
  {
    EmptyUnregistered(Counter(0));
    NewChannelWf(Empty);
    OnceWf(NewChannel(Empty), 0, Update, Counter(0));
    OnceFirst(NewChannel(Empty), 0, Counter(0));
  }

  /** After the two writes of the mock user, before any flush. */
  function OnceWritten(displayName: string, email: string): State {
    Set(Set(OnceListened(), 0, "displayName", Plain(Str(displayName))), 0, "email", Plain(Str(email)))
  }

  lemma OnceWrittenFacts(displayName: string, email: string)
    ensures var s := OnceWritten(displayName, email);
      && Wf(s) && 0 in s.listeners && Ranked(s, Flat())
      && s == Burst(OnceListened(), 0, MockWrites(displayName, email))
      && RefsIn(OnceListened(), MockWrites(displayName, email))
  {
    var ws := MockWrites(displayName, email);
    OnceListenedFacts();
    TwoWrites(OnceListened(), Flat(), 0, ws);
  }

  /** After the writes and the first `await user.wait('update')`. */
  ghost function OnceUpdated(displayName: string, email: string): State {
    OnceListenedFacts();
    OnceWrittenFacts(displayName, email);
    BurstThenAwait(OnceListened(), Flat(), 0, MockWrites(displayName, email), 0)
  }

  lemma OnceUpdatedFacts(displayName: string, email: string)
    ensures var s := OnceUpdated(displayName, email);
      && View(s, 0) == Mock(displayName, email)
      && CallsOf(s.trace, Counter(0)) == [[]] && Unregistered(s, Counter(0))
      && CallsOf(s.trace, Waiter(OnceListened().nextWaiter)) == [[]]
      && Ranked(s, Flat()) && s.props[0] == OnceWritten(displayName, email).props[0]
  {
    OnceListenedFacts();
    OnceWrittenFacts(displayName, email);
    var ws := MockWrites(displayName, email);
    AwaitOwnUpdate(OnceListened(), Flat(), 0, ws, 0, Counter(0));
    AwaitOwnResolves(OnceListened(), Flat(), 0, ws);
    MockView(OnceUpdated(displayName, email), 0, displayName, email);
  }

  /** The two deletes of the test. */
  function Clearing(): seq<Write> {
    [Remove("displayName"), Remove("email")]
  }

  /** After the deletes, before any flush. */
  ghost function Cleared(displayName: string, email: string): State {
    OnceListenedFacts();
    OnceWrittenFacts(displayName, email);
    Delete(Delete(OnceUpdated(displayName, email), 0, "displayName"), 0, "email")
  }

  lemma ClearedFacts(displayName: string, email: string)
    ensures var s := Cleared(displayName, email);
      && Wf(s) && 0 in s.listeners && Ranked(s, Flat())
      && s == Burst(OnceUpdated(displayName, email), 0, Clearing())
      && RefsIn(OnceUpdated(displayName, email), Clearing())
  {
    var ws := Clearing();
    OnceUpdatedFacts(displayName, email);
    TwoWrites(OnceUpdated(displayName, email), Flat(), 0, ws);
  }

  /** After the deletes and the second `await user.wait('update')`. */
  ghost function Cleaned(displayName: string, email: string): State {
    OnceUpdatedFacts(displayName, email);
    ClearedFacts(displayName, email);
    BurstThenAwait(OnceUpdated(displayName, email), Flat(), 0, Clearing(), 0)
  }

  lemma CleanedFacts(displayName: string, email: string)
    ensures var s := Cleaned(displayName, email);
      && View(s, 0) == JObject(map[])
      && CallsOf(s.trace, Counter(0)) == [[]]
      && CallsOf(s.trace, Waiter(OnceUpdated(displayName, email).nextWaiter)) == [[]]
  {
    var s0 := OnceUpdated(displayName, email);
    OnceUpdatedFacts(displayName, email);
    ClearedFacts(displayName, email);
    AwaitSilent(s0, Flat(), 0, Clearing(), 0, Counter(0));
    AwaitOwnResolves(s0, Flat(), 0, Clearing());
    PlainShows(Cleaned(displayName, email), 0, map[]);
  }

  /** `update a model one-time`: the `once` listener hears the first burst and not the second. */
  method UpdateAModelOneTime(displayName: string, email: string)
    returns (user: Json, userCalls: seq<seq<Value>>, cleared: Json, finalCalls: seq<seq<Value>>, awaited: seq<seq<seq<Value>>>)
    ensures user == Mock(displayName, email) && userCalls == [[]]
    ensures cleared == JObject(map[]) && finalCalls == [[]]
    ensures awaited == [[[]], [[]]]
  {
    var world := new World();
    var u := world.NewChannel();
    var userFn := Counter(0);
    world.Once(u, Update, userFn);
    world.Set(u, "displayName", Plain(Str(displayName)));
    world.Set(u, "email", Plain(Str(email)));
    assert world.State() == OnceWritten(displayName, email);
    OnceWrittenFacts(displayName, email);
    var w := world.AwaitUpdate(u, Flat());
    assert world.State() == OnceUpdated(displayName, email);
    OnceUpdatedFacts(displayName, email);
    user := View(world.State(), u);
    userCalls := CallsOf(world.trace, userFn);
    var first := CallsOf(world.trace, Waiter(w));
    world.Delete(u, "displayName");
    world.Delete(u, "email");
    assert world.State() == Cleared(displayName, email);
    ClearedFacts(displayName, email);
    w := world.AwaitUpdate(u, Flat());
    assert world.State() == Cleaned(displayName, email);
    CleanedFacts(displayName, email);
    cleared := View(world.State(), u);
    finalCalls := CallsOf(world.trace, userFn);
    var second := CallsOf(world.trace, Waiter(w));
    awaited := [first, second];
  }

  // ---------------------------------------------------------------------
  // async update a model
  // ---------------------------------------------------------------------

  /** `{fetching: false, ...User.mock}`. */
  function Fetched(displayName: string, email: string): Json {
    JObject(Mock(displayName, email).fields["fetching" := JBool(false)])
  }

  /** The synchronous head of `user.fetch()`. */
  function Started(): State {
    Set(Listened(), 0, "fetching", Plain(Bool(true)))
  }

  lemma StartedFacts()
    ensures var s := Started();
      && Wf(s) && 0 in s.listeners && Ranked(s, Flat())
      && s == Burst(Listened(), 0, Begin()) && RefsIn(Listened(), Begin())
      && s.props == map[0 := map["fetching" := Plain(Bool(true))]]
  {
    ListenedFacts();
    BeginFacts(Listened());
  }

  /** The head of `fetch` on a lone channel with no own data property. */
  lemma BeginFacts(s: State)
    requires Wf(s) && 0 in s.listeners && Ranked(s, Flat()) && s.props == map[0 := map[]]
    ensures var t := Set(s, 0, "fetching", Plain(Bool(true)));
      && Wf(t) && 0 in t.listeners && Ranked(t, Flat())
      && t == Burst(s, 0, Begin()) && RefsIn(s, Begin())
      && t.props == map[0 := map["fetching" := Plain(Bool(true))]]
  {
    OneWrite(s, Flat(), 0, Begin());
    SetWf(s, 0, "fetching", Plain(Bool(true)));
  }

  /** After the first `await user.wait('update')`. */
  ghost function Begun(): State {
    ListenedFacts();
    StartedFacts();
    BurstThenAwait(Listened(), Flat(), 0, Begin(), 0)
  }

  lemma BegunFacts()
    ensures var s := Begun();
      && CallsOf(s.trace, Counter(0)) == [[]] && ListensTo(s, Counter(0), 0)
      && CallsOf(s.trace, Waiter(Listened().nextWaiter)) == [[]]
      && Ranked(s, Flat()) && s.props == map[0 := map["fetching" := Plain(Bool(true))]]
  {
    ListenedFacts();
    StartedFacts();
    AwaitOwnUpdate(Listened(), Flat(), 0, Begin(), 0, Counter(0));
    AwaitOwnResolves(Listened(), Flat(), 0, Begin());
    AwaitKeepsListener(Listened(), Flat(), 0, Begin(), 0, Counter(0), 0);
  }

  /** A channel holding only the raised flag shows `{fetching: true}`. */
  lemma PendingShows(s: State, id: Id)
    requires id in s.props && s.props[id] == map["fetching" := Plain(Bool(true))]
    ensures View(s, id) == JObject(map["fetching" := JBool(true)])
  {
    PlainShows(s, id, map["fetching" := JBool(true)]);
  }

  lemma BegunView()
    ensures View(Begun(), 0) == JObject(map["fetching" := JBool(true)])
  {
    BegunFacts();
    PendingShows(Begun(), 0);
  }

  /** `await promise`: the continuation of `fetch`, before any flush. */
  ghost function Finished(displayName: string, email: string): State {
    BegunFacts();
    Set(Set(Set(Begun(), 0, "fetching", Plain(Bool(false))), 0, "displayName", Plain(Str(displayName))), 0, "email", Plain(Str(email)))
  }

  lemma FinishedFacts(displayName: string, email: string)
    ensures var s := Finished(displayName, email);
      && Wf(s) && 0 in s.listeners && Ranked(s, Flat())
      && s == Burst(Begun(), 0, FetchEnd(displayName, email)) && RefsIn(Begun(), FetchEnd(displayName, email))
  {
    BegunFacts();
    LoneFetchEndFacts(Begun(), displayName, email);
  }

  /** A world of two live channels, numbered 0 and 1, as one map display. */
  lemma TwoChannels(m: map<Id, map<string, Value>>, a: map<string, Value>, b: map<string, Value>)
    requires m.Keys == {0, 1} && m[0] == a && m[1] == b
    ensures m == map[0 := a, 1 := b]
  {
  }

  /** The properties the continuation of `fetch` leaves. */
  function FetchedProps(displayName: string, email: string): map<string, Value> {
    map["fetching" := Plain(Bool(false)), "displayName" := Plain(Str(displayName)), "email" := Plain(Str(email))]
  }

  /** The continuation of `fetch` turns the raised flag into the fetched record. */
  lemma FetchEndProps(s: State, displayName: string, email: string)
    requires s.props == map[0 := map["fetching" := Plain(Bool(true))]]
    ensures Set(Set(Set(s, 0, "fetching", Plain(Bool(false))), 0, "displayName", Plain(Str(displayName))), 0, "email", Plain(Str(email))).props
      == map[0 := FetchedProps(displayName, email)]
  {
    var s1 := Set(s, 0, "fetching", Plain(Bool(false)));
    assert s1.props[0] == map["fetching" := Plain(Bool(false))];
    var s2 := Set(s1, 0, "displayName", Plain(Str(displayName)));
    var s3 := Set(s2, 0, "email", Plain(Str(email)));
    assert s3.props[0] == FetchedProps(displayName, email);
  }

  lemma FetchedPlain(displayName: string, email: string)
    ensures forall n :: n in FetchedProps(displayName, email) ==> FetchedProps(displayName, email)[n].Plain?
  {
  }

  lemma FinishedProps(displayName: string, email: string)
    ensures Finished(displayName, email).props == map[0 := FetchedProps(displayName, email)]
  {
    BegunFacts();
    FetchEndProps(Begun(), displayName, email);
  }

  /** A channel holding the fetched record shows `{fetching: false, ...User.mock}`. */
  lemma FetchedShows(s: State, id: Id, displayName: string, email: string)
    requires id in s.props && s.props[id] == FetchedProps(displayName, email)
    ensures View(s, id) == Fetched(displayName, email)
  {
    PlainShows(s, id, Fetched(displayName, email).fields);
  }

  /** After the second `await user.wait('update')`. */
  ghost function Done(displayName: string, email: string): State {
    BegunFacts();
    FinishedFacts(displayName, email);
    BurstThenAwait(Begun(), Flat(), 0, FetchEnd(displayName, email), 0)
  }

  lemma DoneCalls(displayName: string, email: string)
    ensures CallsOf(Done(displayName, email).trace, Counter(0)) == CallsOf(Begun().trace, Counter(0)) + [[]]
    ensures |CallsOf(Done(displayName, email).trace, Counter(0))| == 2
  {
    BegunFacts();
    FinishedFacts(displayName, email);
    AwaitOwnUpdate(Begun(), Flat(), 0, FetchEnd(displayName, email), 0, Counter(0));
  }

  lemma DoneResolves(displayName: string, email: string)
    ensures CallsOf(Done(displayName, email).trace, Waiter(Begun().nextWaiter)) == [[]]
  {
    BegunFacts();
    FinishedFacts(displayName, email);
    AwaitOwnResolves(Begun(), Flat(), 0, FetchEnd(displayName, email));
  }

  lemma DoneView(displayName: string, email: string)
    ensures View(Done(displayName, email), 0) == Fetched(displayName, email)
  {
    FinishedFacts(displayName, email);
    FinishedProps(displayName, email);
    FetchedShows(Done(displayName, email), 0, displayName, email);
  }

  /** `async update a model`: one `update` per synchronous burst of `fetch`. */
  method AsyncUpdateAModel(displayName: string, email: string)
    returns (pending: Json, pendingCalls: seq<seq<Value>>, user: Json, userCalls: seq<seq<Value>>, awaited: seq<seq<seq<Value>>>)
    ensures pending == JObject(map["fetching" := JBool(true)]) && |pendingCalls| == 1
    ensures user == Fetched(displayName, email) && |userCalls| == 2
    ensures awaited == [[[]], [[]]]
  {
    var world := new World();
    var u := world.NewChannel();
    var userFn := Counter(0);
    world.On(u, Update, userFn);
    world.Set(u, "fetching", Plain(Bool(true)));
    assert world.State() == Started();
    StartedFacts();
    var w := world.AwaitUpdate(u, Flat());
    assert world.State() == Begun();
    BegunFacts();
    BegunView();
    pending := View(world.State(), u);
    pendingCalls := CallsOf(world.trace, userFn);
    var first := CallsOf(world.trace, Waiter(w));
    world.Set(u, "fetching", Plain(Bool(false)));
    world.Set(u, "displayName", Plain(Str(displayName)));
    world.Set(u, "email", Plain(Str(email)));
    assert world.State() == Finished(displayName, email);
    FinishedFacts(displayName, email);
    w := world.AwaitUpdate(u, Flat());
    assert world.State() == Done(displayName, email);
    DoneCalls(displayName, email);
    DoneResolves(displayName, email);
    DoneView(displayName, email);
    user := View(world.State(), u);
    userCalls := CallsOf(world.trace, userFn);
    var second := CallsOf(world.trace, Waiter(w));
    awaited := [first, second];
  }

  // ---------------------------------------------------------------------
  // create a nested model
  // ---------------------------------------------------------------------

  /** `{currentUser: User.mock}`. */
  function HoldingMock(displayName: string, email: string): Json {
    JObject(map["currentUser" := Mock(displayName, email)])
  }

  /** Channel 0 holding, as `currentUser`, channel 1 with the mock user's properties. */
  lemma HoldingMockShows(s: State, displayName: string, email: string)
    requires s.props == map[0 := map["currentUser" := Ref(1)], 1 := MockProps(displayName, email)]
    ensures View(s, 0) == HoldingMock(displayName, email)
  {
    assert Ranked(s, Deep());
    MockView(s, 1, displayName, email);
    FieldsShow(s, Deep(), 0, HoldingMock(displayName, email).fields);
  }

  /** Two fresh channels: 0 for `auth`, then 1 for the user. */
  function Pair(): State {
    NewChannel(NewChannel(Empty))
  }

  lemma PairFacts()
    ensures var s := Pair();
      && Wf(s) && s.props == map[0 := map[], 1 := map[]] && s.listeners == map[0 := map[], 1 := map[]]
      && s.queue == [] && s.trace == [] && s.nextWaiter == 0 && Ranked(s, Deep())
  {
    NewChannelWf(Empty);
    NewChannelWf(NewChannel(Empty));
  }

  /** After the initialisers of the user and the assignment to `currentUser`. */
  function Nested(displayName: string, email: string): State {
    PairFacts();
    Set(Set(Set(Pair(), 1, "displayName", Plain(Str(displayName))), 1, "email", Plain(Str(email))), 0, "currentUser", Ref(1))
  }

  /** Copying the mock user onto channel 1 and storing it in channel 0. */
  lemma HoldMockProps(s: State, displayName: string, email: string)
    requires s.props == map[0 := map[], 1 := map[]]
    ensures Set(Set(Set(s, 1, "displayName", Plain(Str(displayName))), 1, "email", Plain(Str(email))), 0, "currentUser", Ref(1)).props
      == map[0 := map["currentUser" := Ref(1)], 1 := MockProps(displayName, email)]
  {
    var s2 := Set(Set(s, 1, "displayName", Plain(Str(displayName))), 1, "email", Plain(Str(email)));
    assert s2.props[1] == MockProps(displayName, email);
  }

  lemma NestedProps(displayName: string, email: string)
    ensures Nested(displayName, email).props == map[0 := map["currentUser" := Ref(1)], 1 := MockProps(displayName, email)]
  {
    PairFacts();
    HoldMockProps(Pair(), displayName, email);
  }

  /** `create a nested model`: a child channel shows inside its parent as its own data. */
  method CreateNestedModel(displayName: string, email: string) returns (auth: Json)
    ensures auth == HoldingMock(displayName, email)
  {
    var world := new World();
    var a := world.NewChannel();
    var u := world.NewChannel();
    world.Set(u, "displayName", Plain(Str(displayName)));
    world.Set(u, "email", Plain(Str(email)));
    world.Set(a, "currentUser", Ref(u));
    assert world.State() == Nested(displayName, email);
    NestedProps(displayName, email);
    HoldingMockShows(world.State(), displayName, email);
    auth := View(world.State(), a);
  }

  // ---------------------------------------------------------------------
  // update a nested model
  // ---------------------------------------------------------------------

  /** No registration at all in a world of listener-free channels. */
  lemma BareUnregistered(s: State, cb: Callback)
    requires forall c :: c in s.listeners ==> s.listeners[c] == map[]
    ensures Unregistered(s, cb)
  {
    forall c, ev ensures Count(Entries(s, c, ev), cb) == 0 {
      assert Entries(s, c, ev) == [];
    }
  }

  /** `auth` and `user` built, `authFn` on the first and `userFn` on the second. */
  function PairListened(): State {
    PairFacts();
    On(On(Pair(), 0, Update, Counter(0)), 1, Update, Counter(1))
  }

  lemma PairListenedFacts()
    ensures var s := PairListened();
      && Wf(s) && s.props == map[0 := map[], 1 := map[]] && s.queue == [] && s.trace == []
      && Ranked(s, Deep()) && ListensTo(s, Counter(0), 0) && ListensTo(s, Counter(1), 1)
  {
    PairFacts();
    var s0 := Pair();
    var s1 := On(s0, 0, Update, Counter(0));
    BareUnregistered(s0, Counter(0));
    BareUnregistered(s0, Counter(1));
    OnWf(s0, 0, Update, Counter(0));
    OnFirst(s0, 0, Counter(0));
    OnOther(s0, 0, Update, Counter(0), Counter(1));
    OnWf(s1, 1, Update, Counter(1));
    OnFirst(s1, 1, Counter(1));
    OnKeepsListener(s1, 1, Update, Counter(1), Counter(0), 0);
  }

  /** `auth.currentUser = user`. */
  function Hold(): seq<Write> {
    [Assign("currentUser", Ref(1))]
  }

  function Attached(): State {
    PairListenedFacts();
    Set(PairListened(), 0, "currentUser", Ref(1))
  }

  lemma AttachedFacts()
    ensures var s := Attached();
      && Wf(s) && Ranked(s, Deep()) && s == Burst(PairListened(), 0, Hold()) && RefsIn(PairListened(), Hold())
      && s.props == map[0 := map["currentUser" := Ref(1)], 1 := map[]]
  {
    PairListenedFacts();
    OneWrite(PairListened(), Deep(), 0, Hold());
    HoldProps(PairListened());
  }

  /** Storing channel 1 in channel 0. */
  lemma HoldProps(s: State)
    requires s.props == map[0 := map[], 1 := map[]]
    ensures Set(s, 0, "currentUser", Ref(1)).props == map[0 := map["currentUser" := Ref(1)], 1 := map[]]
  {
  }

  /** After `await auth.wait('update')`. */
  ghost function AttachedAwaited(): State {
    PairListenedFacts();
    AttachedFacts();
    BurstThenAwait(PairListened(), Deep(), 0, Hold(), 0)
  }

  lemma AttachedAwaitedCalls()
    ensures var s := AttachedAwaited();
      && CallsOf(s.trace, Counter(0)) == [[]] && CallsOf(s.trace, Counter(1)) == []
      && CallsOf(s.trace, Waiter(PairListened().nextWaiter)) == [[]]
  {
    PairListenedFacts();
    AttachedFacts();
    AwaitOwnUpdate(PairListened(), Deep(), 0, Hold(), 0, Counter(0));
    AwaitBelow(PairListened(), Deep(), 0, Hold(), 0, Counter(1), 1);
    AwaitOwnResolves(PairListened(), Deep(), 0, Hold());
  }

  lemma AttachedAwaitedFacts()
    ensures var s := AttachedAwaited();
      && Ranked(s, Deep()) && s.props == map[0 := map["currentUser" := Ref(1)], 1 := map[]]
      && ListensTo(s, Counter(0), 0) && ListensTo(s, Counter(1), 1)
  {
    PairListenedFacts();
    AttachedFacts();
    AwaitKeepsListener(PairListened(), Deep(), 0, Hold(), 0, Counter(0), 0);
    AwaitKeepsListener(PairListened(), Deep(), 0, Hold(), 0, Counter(1), 1);
  }

  /** `{currentUser: {}}`. */
  function HoldingEmpty(): Json {
    JObject(map["currentUser" := JObject(map[])])
  }

  lemma HoldingEmptyShows(s: State)
    requires s.props == map[0 := map["currentUser" := Ref(1)], 1 := map[]]
    ensures View(s, 0) == HoldingEmpty()
  {
    assert Ranked(s, Deep());
    PlainShows(s, 1, map[]);
    FieldsShow(s, Deep(), 0, HoldingEmpty().fields);
  }

  /** Copying the mock user onto the held channel 1. */
  lemma UserMockProps(s: State, displayName: string, email: string)
    requires s.props == map[0 := map["currentUser" := Ref(1)], 1 := map[]]
    ensures Set(Set(s, 1, "displayName", Plain(Str(displayName))), 1, "email", Plain(Str(email))).props
      == map[0 := map["currentUser" := Ref(1)], 1 := MockProps(displayName, email)]
  {
  }

  /** Only channel 0 holds channel 1. */
  lemma OnlyAuthHolds(s: State, displayName: string, email: string)
    requires s.props == map[0 := map["currentUser" := Ref(1)], 1 := MockProps(displayName, email)]
    ensures Linked(s, 0, "currentUser", 1)
    ensures forall q, n :: Linked(s, q, n, 1) ==> q == 0
  {
  }

  /** The user's two writes. */
  ghost function UserWritten(displayName: string, email: string): State {
    AttachedAwaitedFacts();
    Set(Set(AttachedAwaited(), 1, "displayName", Plain(Str(displayName))), 1, "email", Plain(Str(email)))
  }

  lemma UserWrittenFacts(displayName: string, email: string)
    ensures var s := UserWritten(displayName, email);
      && Wf(s) && Ranked(s, Deep()) && 1 in s.listeners
      && s == Burst(AttachedAwaited(), 1, MockWrites(displayName, email)) && RefsIn(AttachedAwaited(), MockWrites(displayName, email))
      && s.props == map[0 := map["currentUser" := Ref(1)], 1 := MockProps(displayName, email)]
      && forall q :: q in UpdateParents(s.listeners, 1) ==> q == 0
  {
    AttachedAwaitedFacts();
    TwoWrites(AttachedAwaited(), Deep(), 1, MockWrites(displayName, email));
    var s := UserWritten(displayName, email);
    UserMockProps(AttachedAwaited(), displayName, email);
    OnlyAuthHolds(s, displayName, email);
    HeldOnlyBy(s, 0, 1);
  }

  /** After `await user.wait('update')`. */
  ghost function UserAwaited(displayName: string, email: string): State {
    AttachedAwaitedFacts();
    UserWrittenFacts(displayName, email);
    BurstThenAwait(AttachedAwaited(), Deep(), 1, MockWrites(displayName, email), 1)
  }

  lemma UserAwaitedCalls(displayName: string, email: string)
    ensures var s := UserAwaited(displayName, email);
      && CallsOf(s.trace, Counter(0)) == CallsOf(AttachedAwaited().trace, Counter(0)) + [[]]
      && CallsOf(s.trace, Counter(1)) == CallsOf(AttachedAwaited().trace, Counter(1)) + [[]]
      && CallsOf(s.trace, Waiter(AttachedAwaited().nextWaiter)) == [[]]
  {
    AttachedAwaitedFacts();
    UserWrittenFacts(displayName, email);
    var ws := MockWrites(displayName, email);
    OnlyAuthHolds(UserWritten(displayName, email), displayName, email);
    AwaitParent(AttachedAwaited(), Deep(), 0, "currentUser", 1, ws, 1, Counter(0));
    AwaitOwnUpdate(AttachedAwaited(), Deep(), 1, ws, 1, Counter(1));
    AwaitOwnResolves(AttachedAwaited(), Deep(), 1, ws);
  }

  lemma UserAwaitedView(displayName: string, email: string)
    ensures View(UserAwaited(displayName, email), 0) == HoldingMock(displayName, email)
  {
    UserWrittenFacts(displayName, email);
    HoldingMockShows(UserAwaited(displayName, email), displayName, email);
  }

  /** What the test observes after its second `await`. */
  lemma UserAwaitedObserved(displayName: string, email: string)
    ensures View(UserAwaited(displayName, email), 0) == HoldingMock(displayName, email)
    ensures CallsOf(UserAwaited(displayName, email).trace, Waiter(AttachedAwaited().nextWaiter)) == [[]]
  {
    UserAwaitedCalls(displayName, email);
    UserAwaitedView(displayName, email);
  }

  lemma UserAwaitedCounted(displayName: string, email: string)
    ensures |CallsOf(UserAwaited(displayName, email).trace, Counter(0))| == 2
    ensures CallsOf(UserAwaited(displayName, email).trace, Counter(1)) == [[]]
  {
    AttachedAwaitedCalls();
    UserAwaitedCalls(displayName, email);
  }

  /** `auth.currentUser = user`, then `await auth.wait('update')`. */
  method AttachAndAwait(world: World, a: Id, u: Id) returns (w: nat)
    requires world.Valid() && world.State() == PairListened() && a == 0 && u == 1
    modifies world
    ensures world.Valid() && world.State() == AttachedAwaited() && w == PairListened().nextWaiter
  {
    PairListenedFacts();
    world.Set(a, "currentUser", Ref(u));
    assert world.State() == Attached();
    AttachedFacts();
    w := world.AwaitUpdate(a, Deep());
  }

  /** The two writes to the user, then `await user.wait('update')`. */
  method WriteUserAndAwait(world: World, u: Id, displayName: string, email: string) returns (w: nat)
    requires world.Valid() && world.State() == AttachedAwaited() && u == 1
    modifies world
    ensures world.Valid() && world.State() == UserAwaited(displayName, email) && w == AttachedAwaited().nextWaiter
  {
    AttachedAwaitedFacts();
    world.Set(u, "displayName", Plain(Str(displayName)));
    world.Set(u, "email", Plain(Str(email)));
    assert world.State() == UserWritten(displayName, email);
    UserWrittenFacts(displayName, email);
    w := world.AwaitUpdate(u, Deep());
  }

  /** `update a nested model`: a write to the child is an `update` of the parent too. */
  method UpdateNestedModel(displayName: string, email: string)
    returns (attached: Json, authCalls: seq<seq<Value>>, userCalls: seq<seq<Value>>,
             auth: Json, authCallsAfter: seq<seq<Value>>, userCallsAfter: seq<seq<Value>>,
             awaited: seq<seq<seq<Value>>>)
    ensures attached == HoldingEmpty() && authCalls == [[]] && userCalls == []
    ensures auth == HoldingMock(displayName, email) && |authCallsAfter| == 2 && userCallsAfter == [[]]
    ensures awaited == [[[]], [[]]]
  {
    var world := new World();
    var a := world.NewChannel();
    var u := world.NewChannel();
    var authFn := Counter(0);
    var userFn := Counter(1);
    world.On(a, Update, authFn);
    world.On(u, Update, userFn);
    assert world.State() == PairListened();
    var w := AttachAndAwait(world, a, u);
    AttachedAwaitedCalls();
    AttachedAwaitedFacts();
    HoldingEmptyShows(world.State());
    attached := View(world.State(), a);
    authCalls := CallsOf(world.trace, authFn);
    userCalls := CallsOf(world.trace, userFn);
    var first := CallsOf(world.trace, Waiter(w));
    w := WriteUserAndAwait(world, u, displayName, email);
    UserAwaitedObserved(displayName, email);
    UserAwaitedCounted(displayName, email);
    auth := View(world.State(), a);
    authCallsAfter := CallsOf(world.trace, authFn);
    userCallsAfter := CallsOf(world.trace, userFn);
    var second := CallsOf(world.trace, Waiter(w));
    awaited := [first, second];
  }

  // ---------------------------------------------------------------------
  // async update a nested model
  // ---------------------------------------------------------------------

  /** `userFn` is not registered anywhere while `auth` alone listens. */
  lemma ListenedSilent()
    ensures Unregistered(Listened(), Counter(1)) && Listened().nextId == 1
  {
    EmptyUnregistered(Counter(1));
    NewChannelWf(Empty);
    NewChannelKeeps(Empty, Counter(1));
    OnOther(NewChannel(Empty), 0, Update, Counter(0), Counter(1));
  }

  /** Through the head of `login` and its `await`, `userFn` stays unregistered and uncalled. */
  lemma BegunSilent()
    ensures Unregistered(Begun(), Counter(1)) && CallsOf(Begun().trace, Counter(1)) == []
    ensures Begun().nextId == 1 && Wf(Begun())
  {
    ListenedFacts();
    ListenedSilent();
    StartedFacts();
    AwaitSilent(Listened(), Flat(), 0, Begin(), 0, Counter(1));
  }

  /** The continuation of `login` builds the user channel first. */
  ghost function Opened(): State {
    NewChannel(Begun())
  }

  lemma OpenedFacts()
    ensures var s := Opened();
      && Wf(s) && Ranked(s, Deep()) && s.queue == []
      && s.props == map[0 := map["fetching" := Plain(Bool(true))], 1 := map[]]
      && ListensTo(s, Counter(0), 0) && Unregistered(s, Counter(1))
  {
    BegunFacts();
    BegunSilent();
    NewChannelWf(Begun());
    RankedNew(Begun(), Flat(), 1);
    NewChannelKeepsListener(Begun(), Counter(0), 0);
    NewChannelKeeps(Begun(), Counter(1));
  }

  lemma OpenedCalls()
    ensures CallsOf(Opened().trace, Counter(0)) == [[]] && CallsOf(Opened().trace, Counter(1)) == []
  {
    BegunFacts();
    BegunSilent();
  }

  /** What `auth` holds once logged in. */
  function LoggedInProps(): map<string, Value> {
    map["fetching" := Plain(Bool(false)), "currentUser" := Ref(1)]
  }

  lemma LoginEndProps(s: State)
    requires s.props == map[0 := map["fetching" := Plain(Bool(true))], 1 := map[]]
    ensures Set(Set(s, 0, "currentUser", Ref(1)), 0, "fetching", Plain(Bool(false))).props == map[0 := LoggedInProps(), 1 := map[]]
  {
    var s2 := Set(Set(s, 0, "currentUser", Ref(1)), 0, "fetching", Plain(Bool(false)));
    assert s2.props[0] == LoggedInProps();
    TwoChannels(s2.props, LoggedInProps(), map[]);
  }

  /** The rest of `login`, before any flush. */
  ghost function LoggedIn(): State {
    OpenedFacts();
    Set(Set(Opened(), 0, "currentUser", Ref(1)), 0, "fetching", Plain(Bool(false)))
  }

  lemma LoggedInFacts()
    ensures var s := LoggedIn();
      && Wf(s) && Ranked(s, Deep()) && s == Burst(Opened(), 0, LoginEnd(1)) && RefsIn(Opened(), LoginEnd(1))
      && s.props == map[0 := LoggedInProps(), 1 := map[]]
  {
    OpenedFacts();
    LoginEndFacts(Opened());
  }

  /** The rest of `login` on a pending `auth` next to a fresh user channel. */
  lemma LoginEndFacts(s: State)
    requires Wf(s) && Ranked(s, Deep()) && s.props == map[0 := map["fetching" := Plain(Bool(true))], 1 := map[]]
    ensures var t := Set(Set(s, 0, "currentUser", Ref(1)), 0, "fetching", Plain(Bool(false)));
      && Wf(t) && Ranked(t, Deep()) && t == Burst(s, 0, LoginEnd(1)) && RefsIn(s, LoginEnd(1))
      && t.props == map[0 := LoggedInProps(), 1 := map[]]
  {
    TwoWrites(s, Deep(), 0, LoginEnd(1));
    LoginEndProps(s);
  }

  /** After `await loginPromise` and `await auth.wait('update')`. */
  ghost function LoginAwaited(): State {
    OpenedFacts();
    LoggedInFacts();
    BurstThenAwait(Opened(), Deep(), 0, LoginEnd(1), 0)
  }

  lemma LoginAwaitedCalls()
    ensures var s := LoginAwaited();
      && CallsOf(s.trace, Counter(0)) == CallsOf(Opened().trace, Counter(0)) + [[]]
      && CallsOf(s.trace, Counter(1)) == CallsOf(Opened().trace, Counter(1))
      && CallsOf(s.trace, Waiter(Opened().nextWaiter)) == [[]]
  {
    OpenedFacts();
    LoggedInFacts();
    AwaitOwnUpdate(Opened(), Deep(), 0, LoginEnd(1), 0, Counter(0));
    AwaitSilent(Opened(), Deep(), 0, LoginEnd(1), 0, Counter(1));
    AwaitOwnResolves(Opened(), Deep(), 0, LoginEnd(1));
  }

  lemma LoginAwaitedFacts()
    ensures var s := LoginAwaited();
      && Wf(s) && Ranked(s, Deep()) && s.queue == [] && s.props == map[0 := LoggedInProps(), 1 := map[]]
      && ListensTo(s, Counter(0), 0) && Unregistered(s, Counter(1))
  {
    OpenedFacts();
    LoggedInFacts();
    AwaitKeepsListener(Opened(), Deep(), 0, LoginEnd(1), 0, Counter(0), 0);
    AwaitSilent(Opened(), Deep(), 0, LoginEnd(1), 0, Counter(1));
  }

  /** `auth` logged in, its user shown as `child`. */
  function LoggedInView(child: Json): Json {
    JObject(map["fetching" := JBool(false), "currentUser" := child])
  }

  lemma LoggedInShows(s: State, own: map<string, Value>, child: Json)
    requires s.props == map[0 := LoggedInProps(), 1 := own] && forall n :: n in own ==> own[n].Plain?
    requires View(s, 1) == child
    ensures View(s, 0) == LoggedInView(child)
  {
    assert Ranked(s, Deep());
    FieldsShow(s, Deep(), 0, LoggedInView(child).fields);
  }

  lemma LoggedInEmptyShows(s: State)
    requires s.props == map[0 := LoggedInProps(), 1 := map[]]
    ensures View(s, 0) == LoggedInView(JObject(map[]))
  {
    PlainShows(s, 1, map[]);
    LoggedInShows(s, map[], JObject(map[]));
  }

  lemma LoginAwaitedView()
    ensures View(LoginAwaited(), 0) == LoggedInView(JObject(map[]))
  {
    LoginAwaitedFacts();
    LoggedInEmptyShows(LoginAwaited());
  }

  /** Once logged in, `auth` holds its user and nothing else does while the user holds plain values. */
  lemma OnlyLoggedInHolds(s: State, own: map<string, Value>)
    requires Wf(s) && s.props == map[0 := LoggedInProps(), 1 := own] && forall n :: n in own ==> own[n].Plain?
    ensures Linked(s, 0, "currentUser", 1)
    ensures forall q :: q in UpdateParents(s.listeners, 1) ==> q == 0
  {
    HeldOnlyBy(s, 0, 1);
  }

  /** `auth.currentUser.on('update', userFn)`. */
  ghost function UserListened(): State {
    LoginAwaitedFacts();
    On(LoginAwaited(), 1, Update, Counter(1))
  }

  lemma UserListenedFacts()
    ensures var s := UserListened();
      && Wf(s) && Ranked(s, Deep()) && s.queue == [] && s.props == map[0 := LoggedInProps(), 1 := map[]]
      && s.trace == LoginAwaited().trace
      && ListensTo(s, Counter(0), 0) && ListensTo(s, Counter(1), 1)
  {
    LoginAwaitedFacts();
    OnWf(LoginAwaited(), 1, Update, Counter(1));
    OnFirst(LoginAwaited(), 1, Counter(1));
    OnKeepsListener(LoginAwaited(), 1, Update, Counter(1), Counter(0), 0);
  }

  lemma UserBeginProps(s: State)
    requires s.props == map[0 := LoggedInProps(), 1 := map[]]
    ensures Set(s, 1, "fetching", Plain(Bool(true))).props == map[0 := LoggedInProps(), 1 := map["fetching" := Plain(Bool(true))]]
  {
  }

  /** The head of `fetch` on the user held by a logged-in `auth`. */
  lemma UserBeginFacts(s: State)
    requires Wf(s) && Ranked(s, Deep()) && s.props == map[0 := LoggedInProps(), 1 := map[]]
    ensures var t := Set(s, 1, "fetching", Plain(Bool(true)));
      && Wf(t) && Ranked(t, Deep()) && t == Burst(s, 1, Begin()) && RefsIn(s, Begin())
      && Linked(t, 0, "currentUser", 1) && forall q :: q in UpdateParents(t.listeners, 1) ==> q == 0
  {
    OneWrite(s, Deep(), 1, Begin());
    UserBeginProps(s);
    OnlyLoggedInHolds(Set(s, 1, "fetching", Plain(Bool(true))), map["fetching" := Plain(Bool(true))]);
  }

  /** The head of `auth.currentUser.fetch()`. */
  ghost function UserStarted(): State {
    UserListenedFacts();
    Set(UserListened(), 1, "fetching", Plain(Bool(true)))
  }

  lemma UserStartedFacts()
    ensures var s := UserStarted();
      && Wf(s) && Ranked(s, Deep()) && s == Burst(UserListened(), 1, Begin()) && RefsIn(UserListened(), Begin())
      && Linked(s, 0, "currentUser", 1) && forall q :: q in UpdateParents(s.listeners, 1) ==> q == 0
  {
    UserListenedFacts();
    UserBeginFacts(UserListened());
  }

  /** After `await auth.wait('update')`. */
  ghost function UserBegun(): State {
    UserListenedFacts();
    UserStartedFacts();
    BurstThenAwait(UserListened(), Deep(), 1, Begin(), 0)
  }

  lemma UserBegunAuthCalls()
    ensures CallsOf(UserBegun().trace, Counter(0)) == CallsOf(UserListened().trace, Counter(0)) + [[]]
  {
    UserListenedFacts();
    UserStartedFacts();
    AwaitParent(UserListened(), Deep(), 0, "currentUser", 1, Begin(), 0, Counter(0));
  }

  lemma UserBegunUserCalls()
    ensures CallsOf(UserBegun().trace, Counter(1)) == CallsOf(UserListened().trace, Counter(1)) + [[]]
  {
    UserListenedFacts();
    UserStartedFacts();
    AwaitOwnUpdate(UserListened(), Deep(), 1, Begin(), 0, Counter(1));
  }

  lemma UserBegunResolves()
    ensures CallsOf(UserBegun().trace, Waiter(UserListened().nextWaiter)) == [[]]
  {
    UserListenedFacts();
    UserStartedFacts();
    AwaitParentResolves(UserListened(), Deep(), 0, "currentUser", 1, Begin());
  }

  lemma UserBegunFacts()
    ensures var s := UserBegun();
      && Wf(s) && Ranked(s, Deep()) && s.queue == []
      && s.props == map[0 := LoggedInProps(), 1 := map["fetching" := Plain(Bool(true))]]
      && ListensTo(s, Counter(0), 0) && ListensTo(s, Counter(1), 1)
  {
    UserListenedFacts();
    UserStartedFacts();
    UserBeginProps(UserListened());
    AwaitKeepsListener(UserListened(), Deep(), 1, Begin(), 0, Counter(0), 0);
    AwaitKeepsListener(UserListened(), Deep(), 1, Begin(), 0, Counter(1), 1);
  }

  lemma UserPendingShows(s: State)
    requires s.props == map[0 := LoggedInProps(), 1 := map["fetching" := Plain(Bool(true))]]
    ensures View(s, 0) == LoggedInView(JObject(map["fetching" := JBool(true)]))
  {
    PendingShows(s, 1);
    LoggedInShows(s, map["fetching" := Plain(Bool(true))], JObject(map["fetching" := JBool(true)]));
  }

  lemma UserBegunView()
    ensures View(UserBegun(), 0) == LoggedInView(JObject(map["fetching" := JBool(true)]))
  {
    UserBegunFacts();
    UserPendingShows(UserBegun());
  }

  lemma UserFetchEndProps(s: State, displayName: string, email: string)
    requires s.props == map[0 := LoggedInProps(), 1 := map["fetching" := Plain(Bool(true))]]
    ensures Set(Set(Set(s, 1, "fetching", Plain(Bool(false))), 1, "displayName", Plain(Str(displayName))), 1, "email", Plain(Str(email))).props
      == map[0 := LoggedInProps(), 1 := FetchedProps(displayName, email)]
  {
    var s1 := Set(s, 1, "fetching", Plain(Bool(false)));
    assert s1.props[1] == map["fetching" := Plain(Bool(false))];
    var s2 := Set(s1, 1, "displayName", Plain(Str(displayName)));
    var s3 := Set(s2, 1, "email", Plain(Str(email)));
    assert s3.props[1] == FetchedProps(displayName, email);
  }

  /** The rest of `fetch` on the user held by a logged-in `auth`. */
  lemma UserFetchEndFacts(s: State, displayName: string, email: string)
    requires Wf(s) && Ranked(s, Deep()) && s.props == map[0 := LoggedInProps(), 1 := map["fetching" := Plain(Bool(true))]]
    ensures var t := Set(Set(Set(s, 1, "fetching", Plain(Bool(false))), 1, "displayName", Plain(Str(displayName))), 1, "email", Plain(Str(email)));
      && Wf(t) && Ranked(t, Deep())
      && t == Burst(s, 1, FetchEnd(displayName, email)) && RefsIn(s, FetchEnd(displayName, email))
      && t.props == map[0 := LoggedInProps(), 1 := FetchedProps(displayName, email)]
  {
    ThreeWrites(s, Deep(), 1, FetchEnd(displayName, email));
    UserFetchEndProps(s, displayName, email);
  }

  lemma UserFetchEndHeld(s: State, displayName: string, email: string)
    requires Wf(s) && s.props == map[0 := LoggedInProps(), 1 := map["fetching" := Plain(Bool(true))]]
    ensures var t := Set(Set(Set(s, 1, "fetching", Plain(Bool(false))), 1, "displayName", Plain(Str(displayName))), 1, "email", Plain(Str(email)));
      Linked(t, 0, "currentUser", 1) && forall q :: q in UpdateParents(t.listeners, 1) ==> q == 0
  {
    var t1 := Set(s, 1, "fetching", Plain(Bool(false)));
    var t2 := Set(t1, 1, "displayName", Plain(Str(displayName)));
    var t3 := Set(t2, 1, "email", Plain(Str(email)));
    SetWf(s, 1, "fetching", Plain(Bool(false)));
    SetWf(t1, 1, "displayName", Plain(Str(displayName)));
    SetWf(t2, 1, "email", Plain(Str(email)));
    UserFetchEndProps(s, displayName, email);
    FetchedPlain(displayName, email);
    OnlyLoggedInHolds(t3, FetchedProps(displayName, email));
  }

  /** The rest of `auth.currentUser.fetch()`, before any flush. */
  ghost function UserFinished(displayName: string, email: string): State {
    UserBegunFacts();
    Set(Set(Set(UserBegun(), 1, "fetching", Plain(Bool(false))), 1, "displayName", Plain(Str(displayName))), 1, "email", Plain(Str(email)))
  }

  lemma UserFinishedFacts(displayName: string, email: string)
    ensures var s := UserFinished(displayName, email);
      && Wf(s) && Ranked(s, Deep())
      && s == Burst(UserBegun(), 1, FetchEnd(displayName, email)) && RefsIn(UserBegun(), FetchEnd(displayName, email))
      && s.props == map[0 := LoggedInProps(), 1 := FetchedProps(displayName, email)]
      && Linked(s, 0, "currentUser", 1) && forall q :: q in UpdateParents(s.listeners, 1) ==> q == 0
  {
    UserBegunFacts();
    UserFetchEndFacts(UserBegun(), displayName, email);
    UserFetchEndHeld(UserBegun(), displayName, email);
  }

  /** After `await fetchPromise` and `await auth.wait('update')`. */
  ghost function UserDone(displayName: string, email: string): State {
    UserBegunFacts();
    UserFinishedFacts(displayName, email);
    BurstThenAwait(UserBegun(), Deep(), 1, FetchEnd(displayName, email), 0)
  }

  lemma UserDoneAuthCalls(displayName: string, email: string)
    ensures CallsOf(UserDone(displayName, email).trace, Counter(0)) == CallsOf(UserBegun().trace, Counter(0)) + [[]]
  {
    UserBegunFacts();
    UserFinishedFacts(displayName, email);
    AwaitParent(UserBegun(), Deep(), 0, "currentUser", 1, FetchEnd(displayName, email), 0, Counter(0));
  }

  lemma UserDoneUserCalls(displayName: string, email: string)
    ensures CallsOf(UserDone(displayName, email).trace, Counter(1)) == CallsOf(UserBegun().trace, Counter(1)) + [[]]
  {
    UserBegunFacts();
    UserFinishedFacts(displayName, email);
    AwaitOwnUpdate(UserBegun(), Deep(), 1, FetchEnd(displayName, email), 0, Counter(1));
  }

  lemma UserDoneResolves(displayName: string, email: string)
    ensures CallsOf(UserDone(displayName, email).trace, Waiter(UserBegun().nextWaiter)) == [[]]
  {
    UserBegunFacts();
    UserFinishedFacts(displayName, email);
    AwaitParentResolves(UserBegun(), Deep(), 0, "currentUser", 1, FetchEnd(displayName, email));
  }

  lemma UserDoneView(displayName: string, email: string)
    ensures View(UserDone(displayName, email), 0) == LoggedInView(Fetched(displayName, email))
  {
    UserFinishedFacts(displayName, email);
    UserFetchedShows(UserDone(displayName, email), displayName, email);
  }

  lemma UserFetchedShows(s: State, displayName: string, email: string)
    requires s.props == map[0 := LoggedInProps(), 1 := FetchedProps(displayName, email)]
    ensures View(s, 0) == LoggedInView(Fetched(displayName, email))
  {
    FetchedShows(s, 1, displayName, email);
    LoggedInShows(s, FetchedProps(displayName, email), Fetched(displayName, email));
  }

  // What the test observes at each `await`, and what its next step needs.

  lemma BegunObserved()
    ensures View(Begun(), 0) == JObject(map["fetching" := JBool(true)])
    ensures CallsOf(Begun().trace, Counter(0)) == [[]] && CallsOf(Begun().trace, Counter(1)) == []
    ensures CallsOf(Begun().trace, Waiter(Listened().nextWaiter)) == [[]]
    ensures 0 in Opened().props
  {
    BegunFacts();
    BegunSilent();
    BegunView();
    OpenedFacts();
  }

  lemma LoggedInReady()
    ensures 0 in LoggedIn().listeners && Ranked(LoggedIn(), Deep()) && LoggedIn() == Burst(Opened(), 0, LoginEnd(1))
  {
    LoggedInFacts();
  }

  lemma LoginAwaitedObserved()
    ensures View(LoginAwaited(), 0) == LoggedInView(JObject(map[]))
    ensures |CallsOf(LoginAwaited().trace, Counter(0))| == 2 && CallsOf(LoginAwaited().trace, Counter(1)) == []
    ensures CallsOf(LoginAwaited().trace, Waiter(Opened().nextWaiter)) == [[]]
    ensures 1 in LoginAwaited().listeners && 1 in UserListened().props
  {
    OpenedCalls();
    LoginAwaitedCalls();
    LoginAwaitedFacts();
    LoginAwaitedView();
    UserListenedFacts();
  }

  lemma UserStartedReady()
    ensures 0 in UserStarted().listeners && Ranked(UserStarted(), Deep()) && UserStarted() == Burst(UserListened(), 1, Begin())
  {
    UserStartedFacts();
  }

  lemma UserBegunObserved()
    ensures View(UserBegun(), 0) == LoggedInView(JObject(map["fetching" := JBool(true)]))
    ensures |CallsOf(UserBegun().trace, Counter(0))| == 3 && |CallsOf(UserBegun().trace, Counter(1))| == 1
    ensures CallsOf(UserBegun().trace, Waiter(UserListened().nextWaiter)) == [[]]
    ensures 1 in UserBegun().props
  {
    LoginAwaitedObserved();
    UserListenedFacts();
    UserBegunAuthCalls();
    UserBegunUserCalls();
    UserBegunResolves();
    UserBegunFacts();
    UserBegunView();
  }

  lemma UserFinishedReady(displayName: string, email: string)
    ensures 0 in UserFinished(displayName, email).listeners && Ranked(UserFinished(displayName, email), Deep())
    ensures UserFinished(displayName, email) == Burst(UserBegun(), 1, FetchEnd(displayName, email))
  {
    UserFinishedFacts(displayName, email);
  }

  lemma UserDoneObserved(displayName: string, email: string)
    ensures View(UserDone(displayName, email), 0) == LoggedInView(Fetched(displayName, email))
    ensures CallsOf(UserDone(displayName, email).trace, Waiter(UserBegun().nextWaiter)) == [[]]
  {
    UserDoneResolves(displayName, email);
    UserDoneView(displayName, email);
  }

  lemma UserDoneAuthCounted(displayName: string, email: string)
    ensures |CallsOf(UserDone(displayName, email).trace, Counter(0))| == 4
  {
    UserBegunObserved();
    UserDoneAuthCalls(displayName, email);
  }

  lemma UserDoneUserCounted(displayName: string, email: string)
    ensures |CallsOf(UserDone(displayName, email).trace, Counter(1))| == 2
  {
    UserBegunObserved();
    UserDoneUserCalls(displayName, email);
  }

  /** `await loginPromise`: the continuation of `login()` stores a new user and lowers the flag. */
  method LogInAndAwait(world: World, a: Id) returns (w: nat)
    requires world.Valid() && world.State() == Begun() && a == 0
    modifies world
    ensures world.Valid() && world.State() == LoginAwaited() && w == Opened().nextWaiter
  {
    BegunObserved();
    var u := world.NewChannel();
    assert world.State() == Opened();
    world.Set(a, "currentUser", Ref(u));
    world.Set(a, "fetching", Plain(Bool(false)));
    assert world.State() == LoggedIn();
    LoggedInReady();
    w := world.AwaitUpdate(a, Deep());
  }

  /** `auth.currentUser.on('update', userFn)`, then the head of `fetch()` and an `await`. */
  method FetchUserAndAwait(world: World, a: Id, u: Id, userFn: Callback) returns (w: nat)
    requires world.Valid() && world.State() == LoginAwaited() && a == 0 && u == 1 && userFn == Counter(1)
    modifies world
    ensures world.Valid() && world.State() == UserBegun() && w == UserListened().nextWaiter
  {
    LoginAwaitedObserved();
    world.On(u, Update, userFn);
    assert world.State() == UserListened();
    world.Set(u, "fetching", Plain(Bool(true)));
    assert world.State() == UserStarted();
    UserStartedReady();
    w := world.AwaitUpdate(a, Deep());
  }

  /** `await fetchPromise`: the continuation of `fetch()` stores the profile and lowers the flag. */
  method FinishUserAndAwait(world: World, a: Id, u: Id, displayName: string, email: string) returns (w: nat)
    requires world.Valid() && world.State() == UserBegun() && a == 0 && u == 1
    modifies world
    ensures world.Valid() && world.State() == UserDone(displayName, email) && w == UserBegun().nextWaiter
  {
    UserBegunObserved();
    world.Set(u, "fetching", Plain(Bool(false)));
    world.Set(u, "displayName", Plain(Str(displayName)));
    world.Set(u, "email", Plain(Str(email)));
    assert world.State() == UserFinished(displayName, email);
    UserFinishedReady(displayName, email);
    w := world.AwaitUpdate(a, Deep());
  }

  /** `async update a nested model`: the parent's `update` follows every burst of its child. */
  method AsyncUpdateANestedModel(displayName: string, email: string)
    returns (pending: Json, authCalls: seq<seq<Value>>, userCalls: seq<seq<Value>>,
             loggedIn: Json, loggedInAuthCalls: seq<seq<Value>>, loggedInUserCalls: seq<seq<Value>>,
             fetching: Json, fetchingAuthCalls: seq<seq<Value>>, fetchingUserCalls: seq<seq<Value>>,
             fetched: Json, fetchedAuthCalls: seq<seq<Value>>, fetchedUserCalls: seq<seq<Value>>,
             awaited: seq<seq<seq<Value>>>)
    ensures pending == JObject(map["fetching" := JBool(true)]) && |authCalls| == 1 && userCalls == []
    ensures loggedIn == LoggedInView(JObject(map[])) && |loggedInAuthCalls| == 2 && loggedInUserCalls == []
    ensures fetching == LoggedInView(JObject(map["fetching" := JBool(true)]))
    ensures |fetchingAuthCalls| == 3 && |fetchingUserCalls| == 1
    ensures fetched == LoggedInView(Fetched(displayName, email)) && |fetchedAuthCalls| == 4 && |fetchedUserCalls| == 2
    ensures awaited == [[[]], [[]], [[]], [[]]]
  {
    var world := new World();
    var a := world.NewChannel();
    var authFn := Counter(0);
    var userFn := Counter(1);
    world.On(a, Update, authFn);
    // login(): the synchronous head
    world.Set(a, "fetching", Plain(Bool(true)));
    assert world.State() == Started();
    StartedFacts();
    var w := world.AwaitUpdate(a, Flat());
    assert world.State() == Begun();
    BegunObserved();
    pending := View(world.State(), a);
    authCalls := CallsOf(world.trace, authFn);
    userCalls := CallsOf(world.trace, userFn);
    var first := CallsOf(world.trace, Waiter(w));
    // await loginPromise
    w := LogInAndAwait(world, a);
    LoginAwaitedObserved();
    loggedIn := View(world.State(), a);
    loggedInAuthCalls := CallsOf(world.trace, authFn);
    loggedInUserCalls := CallsOf(world.trace, userFn);
    var second := CallsOf(world.trace, Waiter(w));
    // auth.currentUser.fetch()
    w := FetchUserAndAwait(world, a, 1, userFn);
    UserBegunObserved();
    fetching := View(world.State(), a);
    fetchingAuthCalls := CallsOf(world.trace, authFn);
    fetchingUserCalls := CallsOf(world.trace, userFn);
    var third := CallsOf(world.trace, Waiter(w));
    // await fetchPromise
    w := FinishUserAndAwait(world, a, 1, displayName, email);
    UserDoneObserved(displayName, email);
    UserDoneAuthCounted(displayName, email);
    UserDoneUserCounted(displayName, email);
    fetched := View(world.State(), a);
    fetchedAuthCalls := CallsOf(world.trace, authFn);
    fetchedUserCalls := CallsOf(world.trace, userFn);
    var fourth := CallsOf(world.trace, Waiter(w));
    awaited := [first, second, third, fourth];
  }

  // ---------------------------------------------------------------------
  // create a custom channel
  // ---------------------------------------------------------------------

  /** The injected API client, an outside object `toEqual` compares by identity. */
  function Api(): Prim {
    Foreign(0)
  }

  /** `new InjectedUser(api)` with `userFn` subscribed: the constructor's write is still pending. */
  function Injected(): State {
    NewChannelWf(Empty);
    On(Set(NewChannel(Empty), 0, "api", Plain(Api())), 0, Update, Counter(0))
  }

  lemma InjectedFacts()
    ensures var s := Injected();
      && Wf(s) && 0 in s.props && s.props == map[0 := map["api" := Plain(Api())]] && OnlyScheduled(s, 0)
      && s.trace == [] && Ranked(s, Flat()) && ListensTo(s, Counter(0), 0)
  {
    ApiStored();
    ListenOnFresh(Set(NewChannel(Empty), 0, "api", Plain(Api())));
  }

  /** The constructor's write of the API client, before `userFn` subscribes. */
  lemma ApiStored()
    ensures var s1 := Set(NewChannel(Empty), 0, "api", Plain(Api()));
      && Wf(s1) && 0 in s1.listeners && Unregistered(s1, Counter(0))
      && s1.props == map[0 := map["api" := Plain(Api())]] && s1.queue == [0] && s1.trace == []
  {
    NewChannelWf(Empty);
    var s0 := NewChannel(Empty);
    var s1 := Set(s0, 0, "api", Plain(Api()));
    SetWf(s0, 0, "api", Plain(Api()));
    BareUnregistered(s1, Counter(0));
  }

  /** Subscribing the first `jest.fn` on channel 0 of a world where it is not registered. */
  lemma ListenOnFresh(s1: State)
    requires Wf(s1) && 0 in s1.listeners && Unregistered(s1, Counter(0))
    requires s1.props == map[0 := map["api" := Plain(Api())]] && s1.queue == [0] && s1.trace == []
    ensures var s := On(s1, 0, Update, Counter(0));
      && Wf(s) && 0 in s.props && s.props == map[0 := map["api" := Plain(Api())]] && OnlyScheduled(s, 0)
      && s.trace == [] && Ranked(s, Flat()) && ListensTo(s, Counter(0), 0)
  {
    OnWf(s1, 0, Update, Counter(0));
    OnFirst(s1, 0, Counter(0));
    PlainRanked(On(s1, 0, Update, Counter(0)));
  }

  /** A lone channel whose own properties are all plain is ranked flat. */
  lemma PlainRanked(s: State)
    requires s.props.Keys == {0} && forall n :: n in s.props[0] ==> s.props[0][n].Plain?
    ensures Ranked(s, Flat())
  {
  }

  /** The props after raising the flag next to the API client. */
  function ApiPendingProps(): map<string, Value> {
    map["api" := Plain(Api()), "fetching" := Plain(Bool(true))]
  }

  lemma ApiBeginProps(s: State)
    requires s.props == map[0 := map["api" := Plain(Api())]]
    ensures Set(s, 0, "fetching", Plain(Bool(true))).props == map[0 := ApiPendingProps()]
  {
    assert Set(s, 0, "fetching", Plain(Bool(true))).props[0] == ApiPendingProps();
  }

  /** The synchronous head of `user.fetch()`. */
  function InjectedStarted(): State {
    InjectedFacts();
    Set(Injected(), 0, "fetching", Plain(Bool(true)))
  }

  lemma InjectedStartedFacts()
    ensures var s := InjectedStarted();
      && Wf(s) && 0 in s.listeners && Ranked(s, Flat()) && s == Burst(Injected(), 0, Begin()) && RefsIn(Injected(), Begin())
  {
    InjectedFacts();
    OneWrite(Injected(), Flat(), 0, Begin());
  }

  /** After the first `await user.wait('update')`: the constructor's write and the flag in one flush. */
  ghost function InjectedBegun(): State {
    InjectedFacts();
    InjectedStartedFacts();
    BurstThenAwait(Injected(), Flat(), 0, Begin(), 0)
  }

  lemma InjectedBegunFacts()
    ensures var s := InjectedBegun();
      && CallsOf(s.trace, Counter(0)) == [[]] && CallsOf(s.trace, Waiter(Injected().nextWaiter)) == [[]]
      && Wf(s) && Ranked(s, Flat()) && ListensTo(s, Counter(0), 0) && s.props == map[0 := ApiPendingProps()]
  {
    InjectedFacts();
    InjectedStartedFacts();
    AwaitOwnUpdate(Injected(), Flat(), 0, Begin(), 0, Counter(0));
    AwaitOwnResolves(Injected(), Flat(), 0, Begin());
    AwaitKeepsListener(Injected(), Flat(), 0, Begin(), 0, Counter(0), 0);
    ApiBeginProps(Injected());
  }

  /** `{api, fetching: true}`. */
  function ApiPending(): Json {
    JObject(map["api" := JsonOf(Api()), "fetching" := JBool(true)])
  }

  lemma ApiPendingShows(s: State)
    requires s.props == map[0 := ApiPendingProps()]
    ensures View(s, 0) == ApiPending()
  {
    PlainShows(s, 0, ApiPending().fields);
  }

  /** The props after the continuation of `fetch` next to the API client. */
  function ApiFetchedProps(displayName: string, email: string): map<string, Value> {
    map["api" := Plain(Api()), "fetching" := Plain(Bool(false)),
        "displayName" := Plain(Str(displayName)), "email" := Plain(Str(email))]
  }

  lemma ApiFetchEndProps(s: State, displayName: string, email: string)
    requires s.props == map[0 := ApiPendingProps()]
    ensures Set(Set(Set(s, 0, "fetching", Plain(Bool(false))), 0, "displayName", Plain(Str(displayName))), 0, "email", Plain(Str(email))).props
      == map[0 := ApiFetchedProps(displayName, email)]
  {
    var s1 := Set(s, 0, "fetching", Plain(Bool(false)));
    assert s1.props[0] == map["api" := Plain(Api()), "fetching" := Plain(Bool(false))];
    var s2 := Set(s1, 0, "displayName", Plain(Str(displayName)));
    var s3 := Set(s2, 0, "email", Plain(Str(email)));
    assert s3.props[0] == ApiFetchedProps(displayName, email);
  }

  /** `await promise`: the continuation of `fetch`. */
  ghost function InjectedFinished(displayName: string, email: string): State {
    InjectedBegunFacts();
    Set(Set(Set(InjectedBegun(), 0, "fetching", Plain(Bool(false))), 0, "displayName", Plain(Str(displayName))), 0, "email", Plain(Str(email)))
  }

  lemma InjectedFinishedFacts(displayName: string, email: string)
    ensures var s := InjectedFinished(displayName, email);
      && Wf(s) && 0 in s.listeners && Ranked(s, Flat())
      && s == Burst(InjectedBegun(), 0, FetchEnd(displayName, email)) && RefsIn(InjectedBegun(), FetchEnd(displayName, email))
  {
    InjectedBegunFacts();
    LoneFetchEndFacts(InjectedBegun(), displayName, email);
  }

  /** The rest of `fetch` on a lone channel. */
  lemma LoneFetchEndFacts(s: State, displayName: string, email: string)
    requires Wf(s) && Ranked(s, Flat()) && 0 in s.props
    ensures var t := Set(Set(Set(s, 0, "fetching", Plain(Bool(false))), 0, "displayName", Plain(Str(displayName))), 0, "email", Plain(Str(email)));
      && Wf(t) && 0 in t.listeners && Ranked(t, Flat())
      && t == Burst(s, 0, FetchEnd(displayName, email)) && RefsIn(s, FetchEnd(displayName, email))
  {
    ThreeWrites(s, Flat(), 0, FetchEnd(displayName, email));
  }

  /** After the second `await user.wait('update')`. */
  ghost function InjectedDone(displayName: string, email: string): State {
    InjectedBegunFacts();
    InjectedFinishedFacts(displayName, email);
    BurstThenAwait(InjectedBegun(), Flat(), 0, FetchEnd(displayName, email), 0)
  }

  lemma InjectedDoneCalls(displayName: string, email: string)
    ensures CallsOf(InjectedDone(displayName, email).trace, Counter(0)) == CallsOf(InjectedBegun().trace, Counter(0)) + [[]]
    ensures |CallsOf(InjectedDone(displayName, email).trace, Counter(0))| == 2
    ensures CallsOf(InjectedDone(displayName, email).trace, Waiter(InjectedBegun().nextWaiter)) == [[]]
  {
    InjectedBegunFacts();
    InjectedFinishedFacts(displayName, email);
    AwaitOwnUpdate(InjectedBegun(), Flat(), 0, FetchEnd(displayName, email), 0, Counter(0));
    AwaitOwnResolves(InjectedBegun(), Flat(), 0, FetchEnd(displayName, email));
  }

  /** `{api, fetching: false, ...User.mock}`. */
  function ApiFetched(displayName: string, email: string): Json {
    JObject(Fetched(displayName, email).fields["api" := JsonOf(Api())])
  }

  lemma ApiFetchedShows(s: State, displayName: string, email: string)
    requires s.props == map[0 := ApiFetchedProps(displayName, email)]
    ensures View(s, 0) == ApiFetched(displayName, email)
  {
    PlainShows(s, 0, ApiFetched(displayName, email).fields);
  }

  lemma InjectedDoneView(displayName: string, email: string)
    ensures View(InjectedDone(displayName, email), 0) == ApiFetched(displayName, email)
  {
    InjectedBegunFacts();
    InjectedFinishedFacts(displayName, email);
    ApiFetchEndProps(InjectedBegun(), displayName, email);
    ApiFetchedShows(InjectedDone(displayName, email), displayName, email);
  }

  /** `create a custom channel`: a channel built with an injected dependency holds it as data. */
  method CreateACustomChannel(displayName: string, email: string)
    returns (pending: Json, pendingCalls: seq<seq<Value>>, user: Json, userCalls: seq<seq<Value>>, awaited: seq<seq<seq<Value>>>)
    ensures pending == ApiPending() && pendingCalls == [[]]
    ensures user == ApiFetched(displayName, email) && |userCalls| == 2
    ensures awaited == [[[]], [[]]]
  {
    var world := new World();
    var u := world.NewChannel();
    world.Set(u, "api", Plain(Api()));
    var userFn := Counter(0);
    world.On(u, Update, userFn);
    assert world.State() == Injected();
    world.Set(u, "fetching", Plain(Bool(true)));
    assert world.State() == InjectedStarted();
    InjectedStartedFacts();
    var w := world.AwaitUpdate(u, Flat());
    assert world.State() == InjectedBegun();
    InjectedBegunFacts();
    ApiPendingShows(world.State());
    pending := View(world.State(), u);
    pendingCalls := CallsOf(world.trace, userFn);
    var first := CallsOf(world.trace, Waiter(w));
    world.Set(u, "fetching", Plain(Bool(false)));
    world.Set(u, "displayName", Plain(Str(displayName)));
    world.Set(u, "email", Plain(Str(email)));
    assert world.State() == InjectedFinished(displayName, email);
    InjectedFinishedFacts(displayName, email);
    w := world.AwaitUpdate(u, Flat());
    assert world.State() == InjectedDone(displayName, email);
    InjectedDoneCalls(displayName, email);
    InjectedDoneView(displayName, email);
    user := View(world.State(), u);
    userCalls := CallsOf(world.trace, userFn);
    var second := CallsOf(world.trace, Waiter(w));
    awaited := [first, second];
  }

  // ---------------------------------------------------------------------
  // trigger a custom event
  // ---------------------------------------------------------------------

  /** `user.once('hello', userFn)` on a fresh channel. */
  function Hailed(): State {
    Once(NewChannel(Empty), 0, "hello", Counter(0))
  }

  lemma HailedFacts()
    ensures Entries(Hailed(), 0, "hello") == [Entry(Counter(0), true)] && Hailed().trace == []
  {
  }

  /** `user.emit('hello', 'world')`: one call with the emitted argument, and the one-shot registration is gone. */
  lemma HelloCalls()
    ensures var s := Emit(Hailed(), 0, "hello", [Plain(Str("world"))]);
      && CallsOf(s.trace, Counter(0)) == [[Plain(Str("world"))]]
      && Count(Entries(s, 0, "hello"), Counter(0)) == 0
  {
    var args := [Plain(Str("world"))];
    HailedFacts();
    EmitCalls(Hailed(), 0, "hello", args, Counter(0));
    EmitUnregistersOnce(Hailed(), 0, "hello", args, Counter(0));
    var calls := CallsOf(Emit(Hailed(), 0, "hello", args).trace, Counter(0));
    assert |calls| == 1 && calls[0] == args;
    assert calls == [args];
  }

  /** `trigger a custom event`: `emit` calls a `once` listener synchronously with its arguments. */
  method TriggerACustomEvent() returns (userCalls: seq<seq<Value>>)
    ensures userCalls == [[Plain(Str("world"))]]
  {
    var world := new World();
    var u := world.NewChannel();
    var userFn := Counter(0);
    world.Once(u, "hello", userFn);
    world.Emit(u, "hello", [Plain(Str("world"))]);
    assert world.State() == Emit(Hailed(), 0, "hello", [Plain(Str("world"))]);
    HelloCalls();
    userCalls := CallsOf(world.trace, userFn);
  }
}
