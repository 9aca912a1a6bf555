/** The kernel's read-through cache.  Calls overlap at the provider, and searches share the store; still
    every call gets what it would get without a cache, and a provider is asked again only for answers
    older than the time to live. */
module KernelCache {
  import opened Optional

  datatype ModelResponse = ModelResponse(
    text: string, provider: string, model: string, promptTokens: int, completionTokens: int, raw: map<string, string>)

  datatype Answer = Response(response: ModelResponse) | Raised

  datatype Result = Done(response: ModelResponse) | Rejected | UnknownProvider | ProviderFailed

  datatype Call = Call(prompt: string, provider: Option<string>, useCache: bool)

  datatype Metric = Metric(provider: string, model: string, latency: real, tokens: int, cost: real)

  datatype Entry = Entry(value: string, expires: Option<real>)

  type Store = map<string, Entry>

  /** What is fixed while the kernel runs.  Providers are functions of the prompt; `encode` and `decode`
      are the JSON form of a response. */
  datatype Config = Config(
    defaultProvider: string, useCache: bool, ttl: int,
    providers: map<string, string -> Answer>, accepts: string -> bool,
    digest: string -> string, encode: ModelResponse -> string, decode: string -> ModelResponse,
    cost: (string, int) -> real)

  function Name(k: Config, call: Call): string {
    if call.provider.None? || call.provider.value == "" then k.defaultProvider else call.provider.value
  }

  function Key(k: Config, call: Call): string {
    "complete:" + Name(k, call) + ":" + k.digest(call.prompt)
  }

  function SearchKey(rest: string): string {
    "search:" + rest
  }

  predicate CachedMode(k: Config, call: Call) {
    call.useCache && k.useCache
  }

  function MetricOf(k: Config, r: ModelResponse, latency: real): Metric {
    var tokens := r.promptTokens + r.completionTokens;
    Metric(r.provider, r.model, latency, tokens, k.cost(r.provider, tokens))
  }

  // ---------- the store ----------

  predicate Expired(entry: Entry, now: real) {
    entry.expires.Some? && entry.expires.value < now
  }

  function Found(store: Store, key: string, now: real): Option<string> {
    if key in store && !Expired(store[key], now) then Some(store[key].value) else None
  }

  function Swept(store: Store, key: string, now: real): Store {
    if key in store && Expired(store[key], now) then store - {key} else store
  }

  class InMemoryCache {
    var store: Store
    var now: real

    constructor ()
      ensures store == map[]
    {
      store, now := map[], 0.0;
    }

    /** A reading of the monotonic clock. */
    method Monotonic() returns (time: real)
      modifies this`now
      ensures time == now >= old(now)
    {
      time := *;
      if time < now {
        time := now;
      }
      now := time;
    }

    method Get(key: string) returns (value: Option<string>)
      modifies this
      ensures now >= old(now)
      ensures value == if key in old(store)
                          && (old(store)[key].expires.None? || now <= old(store)[key].expires.value)
                       then Some(old(store)[key].value) else None
      ensures store == if value == None then old(store) - {key} else old(store)
    {
      if key !in store {
        return None;
      }
      var entry := store[key];
      if entry.expires.Some? {
        var time := Monotonic();
        if entry.expires.value < time {
          store := store - {key};
          return None;
        }
      }
      value := Some(entry.value);
    }

    method Set(key: string, value: string, ttl: Option<int>)
      modifies this
      ensures now >= old(now)
      ensures store == old(store)[key := Entry(value, if ttl.Some? then Some(now + ttl.value as real) else None)]
    {
      var expires: Option<real> := None;
      if ttl.Some? {
        var time := Monotonic();
        expires := Some(time + ttl.value as real);
      }
      store := store[key := Entry(value, expires)];
    }

    method Delete(key: string)
      modifies this`store
      ensures store == old(store) - {key}
    {
      store := store - {key};
    }

    method Exists(key: string) returns (found: bool)
      modifies this
      ensures now >= old(now)
      ensures found <==> key in old(store)
                         && (old(store)[key].expires.None? || now <= old(store)[key].expires.value)
      ensures store == if found then old(store) else old(store) - {key}
    {
      var value := Get(key);
      found := value.Some?;
    }
  }

  // ---------- a call without a cache ----------

  function Uncached(k: Config, call: Call): Result {
    if !k.accepts(call.prompt) then Rejected
    else if Name(k, call) !in k.providers then UnknownProvider
    else match k.providers[Name(k, call)](call.prompt)
      case Raised => ProviderFailed
      case Response(r) => Done(r)
  }

  // ---------- overlapping calls ----------

  /** `calls` are the calls begun so far; `waiting` those of them that await their provider. */
  datatype State = State(store: Store, calls: map<nat, Call>, waiting: set<nat>, results: map<nat, Result>,
                         metrics: seq<Metric>)

  /** `Begin` runs a call up to its provider; `End` runs it from the provider's answer on.  The two search
      events are what a connector search does to the shared store. */
  datatype Event =
    | Begin(id: nat, call: Call, now: real)
    | End(id: nat, now: real, latency: real)
    | SearchGet(rest: string, now: real)
    | SearchSet(rest: string, value: string, now: real)

  function Started(k: Config, s: State, id: nat, call: Call, now: real): State {
    var begun := s.(calls := s.calls[id := call]);
    if !k.accepts(call.prompt) then begun.(results := s.results[id := Rejected])
    else
      var found := if CachedMode(k, call) then Found(s.store, Key(k, call), now) else None;
      var store := if CachedMode(k, call) then Swept(s.store, Key(k, call), now) else s.store;
      if found.Some? then begun.(results := s.results[id := Done(k.decode(found.value))])
      else if Name(k, call) !in k.providers then begun.(store := store, results := s.results[id := UnknownProvider])
      else begun.(store := store, waiting := s.waiting + {id})
  }

  function Ended(k: Config, s: State, id: nat, now: real, latency: real): State
    requires id in s.calls
  {
    var call := s.calls[id];
    var arrived := s.(waiting := s.waiting - {id}, results := s.results[id := Uncached(k, call)]);
    match Uncached(k, call)
    case Done(r) =>
      arrived.(metrics := s.metrics + [MetricOf(k, r, latency)],
               store := if CachedMode(k, call)
                        then s.store[Key(k, call) := Entry(k.encode(r), Some(now + k.ttl as real))]
                        else s.store)
    case _ => arrived
  }

  function Happen(k: Config, s: State, e: Event): State {
    match e
    case Begin(id, call, now) => if id in s.calls then s else Started(k, s, id, call, now)
    case End(id, now, latency) => if id in s.waiting && id in s.calls then Ended(k, s, id, now, latency) else s
    case SearchGet(rest, now) => s.(store := Swept(s.store, SearchKey(rest), now))
    case SearchSet(rest, value, now) => s.(store := s.store[SearchKey(rest) := Entry(value, Some(now + k.ttl as real))])
  }

  function After(k: Config, events: seq<Event>): State {
    if events == [] then State(map[], map[], {}, map[], [])
    else Happen(k, After(k, events[..|events| - 1]), events[|events| - 1])
  }

  lemma {:induction false} AfterNext(k: Config, events: seq<Event>, n: nat)
    requires n < |events|
    ensures After(k, events[..n + 1]) == Happen(k, After(k, events[..n]), events[n])
  {
    assert events[..n + 1][..n] == events[..n];
  }

  // ---------- when the cache cannot be noticed ----------

  ghost predicate RoundTrips(k: Config) {
    forall r :: k.decode(k.encode(r)) == r
  }

  /** Accepted calls that share a key share their answer. */
  ghost predicate KeysAgree(k: Config) {
    forall c: Call, d: Call ::
        k.accepts(c.prompt) && k.accepts(d.prompt) && Key(k, c) == Key(k, d) && Uncached(k, c).Done? ==>
      Uncached(k, d) == Uncached(k, c)
  }

  lemma {:induction false} KeyParts(a: string, x: string, b: string, y: string)
    requires |x| == |y| && "complete:" + a + ":" + x == "complete:" + b + ":" + y
    ensures a == b && x == y
  {
    var s, t := "complete:" + a + ":" + x, "complete:" + b + ":" + y;
    assert |a| == |b|;
    assert s[9..9 + |a|] == a && t[9..9 + |b|] == b;
    assert s[10 + |a|..] == x && t[10 + |b|..] == y;
  }

  /** A digest of fixed length without collisions makes the keys agree, whatever the providers are named. */
  lemma {:induction false} DigestAgrees(k: Config)
    requires forall p, q :: |k.digest(p)| == |k.digest(q)|
    requires forall p, q :: k.digest(p) == k.digest(q) ==> p == q
    ensures KeysAgree(k)
  {
    forall c: Call, d: Call | k.accepts(c.prompt) && k.accepts(d.prompt) && Key(k, c) == Key(k, d)
        && Uncached(k, c).Done?
      ensures Uncached(k, d) == Uncached(k, c)
    {
      KeyParts(Name(k, c), k.digest(c.prompt), Name(k, d), k.digest(d.prompt));
    }
  }

  /** Every entry under a call's key is the answer to each accepted call with that key. */
  ghost predicate Honest(k: Config, store: Store) {
    forall c: Call :: k.accepts(c.prompt) && Key(k, c) in store
        ==> Uncached(k, c) == Done(k.decode(store[Key(k, c)].value))
  }

  ghost predicate Transparent(k: Config, s: State) {
    && s.results.Keys <= s.calls.Keys
    && (forall id :: id in s.results ==> s.results[id] == Uncached(k, s.calls[id]))
    && s.waiting == s.calls.Keys - s.results.Keys
  }

  lemma {:induction false} StartedHonest(k: Config, s: State, id: nat, call: Call, now: real)
    requires Honest(k, s.store)
    ensures Honest(k, Started(k, s, id, call, now).store)
  {
    assert Honest(k, Swept(s.store, Key(k, call), now));
    hide Honest, Key, Found, Swept, Name;
  }

  lemma {:induction false} StartedResult(k: Config, s: State, id: nat, call: Call, now: real)
    requires Honest(k, s.store) && Transparent(k, s) && id !in s.calls
    ensures var t := Started(k, s, id, call, now);
            && t.calls == s.calls[id := call]
            && ((t.waiting == s.waiting + {id} && t.results == s.results)
                || (t.waiting == s.waiting && t.results == s.results[id := Uncached(k, call)]))
  {
    var found := Found(s.store, Key(k, call), now);
    if k.accepts(call.prompt) && found.Some? {
      assert Done(k.decode(found.value)) == Uncached(k, call);
    }
    hide Honest, Transparent, Key, Found, Swept;
  }

  lemma {:induction false} StartedOk(k: Config, s: State, id: nat, call: Call, now: real)
    requires Honest(k, s.store) && Transparent(k, s) && id !in s.calls
    ensures Honest(k, Started(k, s, id, call, now).store) && Transparent(k, Started(k, s, id, call, now))
  {
    hide Honest, Started, Uncached;
    StartedHonest(k, s, id, call, now);
    StartedResult(k, s, id, call, now);
    assert Started(k, s, id, call, now).calls.Keys == s.calls.Keys + {id};
  }

  ghost predicate WaitingAccepted(k: Config, s: State) {
    forall id :: id in s.waiting ==> id in s.calls && k.accepts(s.calls[id].prompt)
  }

  lemma {:induction false} WaitingWasAccepted(k: Config, events: seq<Event>)
    ensures WaitingAccepted(k, After(k, events))
  {
    if events != [] {
      var n := |events| - 1;
      WaitingWasAccepted(k, events[..n]);
      HappenAccepted(k, After(k, events[..n]), events[n]);
    }
  }

  lemma {:induction false} HappenAccepted(k: Config, s: State, e: Event)
    requires WaitingAccepted(k, s)
    ensures WaitingAccepted(k, Happen(k, s, e))
  {
    hide Key, Found, Swept, SearchKey, Name;
  }

  lemma {:induction false} StoredHonest(k: Config, store: Store, call: Call, r: ModelResponse, expires: Option<real>)
    requires KeysAgree(k) && RoundTrips(k) && Honest(k, store) && k.accepts(call.prompt) && Uncached(k, call) == Done(r)
    ensures Honest(k, store[Key(k, call) := Entry(k.encode(r), expires)])
  {
    hide Key, Uncached;
  }

  lemma {:induction false} EndedOk(k: Config, s: State, id: nat, now: real, latency: real)
    requires KeysAgree(k) && RoundTrips(k)
    requires Honest(k, s.store) && Transparent(k, s) && id in s.waiting && k.accepts(s.calls[id].prompt)
    ensures Honest(k, Ended(k, s, id, now, latency).store) && Transparent(k, Ended(k, s, id, now, latency))
  {
    hide Key, Uncached, Honest, KeysAgree, RoundTrips;
    var call := s.calls[id];
    if Uncached(k, call).Done? {
      StoredHonest(k, s.store, call, Uncached(k, call).response, Some(now + k.ttl as real));
    }
  }

  lemma {:induction false} SearchOk(k: Config, store: Store, rest: string, entry: Entry)
    requires Honest(k, store)
    ensures Honest(k, store[SearchKey(rest) := entry]) && Honest(k, store - {SearchKey(rest)})
  {
    forall c ensures Key(k, c) != SearchKey(rest) {
      assert Key(k, c)[0] == 'c' && SearchKey(rest)[0] == 's';
    }
    hide Key, SearchKey, Uncached;
  }

  lemma {:induction false} RunOk(k: Config, events: seq<Event>)
    requires KeysAgree(k) && RoundTrips(k)
    ensures Honest(k, After(k, events).store) && Transparent(k, After(k, events))
  {
    if events != [] {
      var before, e := events[..|events| - 1], events[|events| - 1];
      var s := After(k, before);
      RunOk(k, before);
      WaitingWasAccepted(k, before);
      hide Honest, Started, Ended;
      match e
      case Begin(id, call, now) => if id !in s.calls { StartedOk(k, s, id, call, now); }
      case End(id, now, latency) => if id in s.waiting { EndedOk(k, s, id, now, latency); }
      case SearchGet(rest, now) => SearchOk(k, s.store, rest, Entry("", None));
      case SearchSet(rest, value, now) => SearchOk(k, s.store, rest, Entry(value, Some(now + k.ttl as real)));
    }
  }

  ghost predicate AlwaysTransparent(k: Config) {
    forall events :: Transparent(k, After(k, events))
  }

  /** A hit that gives the first call's answer to the second. */
  ghost function Confusion(c: Call, d: Call): seq<Event> {
    [Begin(0, c.(useCache := true), 0.0), End(0, 0.0, 0.0), Begin(1, d.(useCache := true), 0.0)]
  }

  lemma {:induction false} ConfusionShows(k: Config, c: Call, d: Call)
    requires RoundTrips(k) && k.useCache && k.ttl >= 0
    requires k.accepts(c.prompt) && k.accepts(d.prompt) && Key(k, c) == Key(k, d) && Uncached(k, c).Done?
    requires Transparent(k, After(k, Confusion(c, d)))
    ensures Uncached(k, d) == Uncached(k, c)
  {
    var c', d' := c.(useCache := true), d.(useCache := true);
    assert Key(k, c') == Key(k, c) && Key(k, d') == Key(k, d);
    hide Key;
    var events := Confusion(c, d);
    AfterNext(k, events, 0);
    AfterNext(k, events, 1);
    AfterNext(k, events, 2);
    assert events[..0] == [] && events[..3] == events;
    assert After(k, []) == State(map[], map[], {}, map[], []);
    var s1 := After(k, events[..1]);
    assert s1 == Started(k, After(k, []), 0, c', 0.0);
    assert s1.store == map[] && s1.waiting == {0} && s1.calls == map[0 := c'];
    var s2 := After(k, events[..2]);
    assert s2 == Ended(k, s1, 0, 0.0, 0.0);
    assert After(k, events) == Started(k, s2, 1, d', 0.0);
    assert After(k, events).results[1] == Uncached(k, c);
  }

  /** With the cache on, no run of overlapping calls and searches shows it exactly when calls that share
      a key share their answer. */
  lemma {:induction false} TransparentIff(k: Config)
    requires RoundTrips(k) && k.useCache && k.ttl >= 0
    ensures AlwaysTransparent(k) <==> KeysAgree(k)
  {
    if KeysAgree(k) {
      forall events ensures Transparent(k, After(k, events)) { RunOk(k, events); }
    }
    if AlwaysTransparent(k) {
      forall c: Call, d: Call | k.accepts(c.prompt) && k.accepts(d.prompt) && Key(k, c) == Key(k, d)
          && Uncached(k, c).Done?
        ensures Uncached(k, d) == Uncached(k, c)
      {
        assert Transparent(k, After(k, Confusion(c, d)));
        ConfusionShows(k, c, d);
      }
    }
  }

  /** In particular with SHA-256 taken to be free of collisions. */
  lemma {:induction false} EveryRunIsTransparent(k: Config, events: seq<Event>)
    requires RoundTrips(k)
    requires forall p, q :: |k.digest(p)| == |k.digest(q)|
    requires forall p, q :: k.digest(p) == k.digest(q) ==> p == q
    ensures Transparent(k, After(k, events))
  {
    DigestAgrees(k);
    RunOk(k, events);
  }

  // ---------- metrics ----------

  /** Event `n` brings a provider's answer. */
  ghost predicate Answered(k: Config, events: seq<Event>, n: nat) {
    && n < |events| && events[n].End?
    && var s := After(k, events[..n]);
       events[n].id in s.waiting && events[n].id in s.calls && Uncached(k, s.calls[events[n].id]).Done?
  }

  ghost function Answers(k: Config, events: seq<Event>): set<nat> {
    set n: nat | n < |events| && Answered(k, events, n)
  }

  lemma {:induction false} AnswersGrow(k: Config, events: seq<Event>)
    requires events != []
    ensures var n := |events| - 1;
            Answers(k, events) == Answers(k, events[..n]) + (if Answered(k, events, n) then {n} else {})
  {
    var n := |events| - 1;
    forall m: nat | m < n ensures Answered(k, events, m) <==> Answered(k, events[..n], m) {
      assert events[..n][..m] == events[..m];
    }
  }

  /** The recorded metrics number exactly the provider calls that were answered, hits and failures none. */
  lemma {:induction false} OneMetricPerAnswer(k: Config, events: seq<Event>)
    ensures |After(k, events).metrics| == |Answers(k, events)|
  {
    if events != [] {
      var n := |events| - 1;
      OneMetricPerAnswer(k, events[..n]);
      AnswersGrow(k, events);
      MetricNext(k, After(k, events[..n]), events[n]);
      hide Happen, Uncached;
      assert n !in Answers(k, events[..n]);
    } else {
      assert Answers(k, events) == {};
    }
  }

  lemma {:induction false} MetricNext(k: Config, s: State, e: Event)
    ensures |Happen(k, s, e).metrics| == |s.metrics| +
              if e.End? && e.id in s.waiting && e.id in s.calls && Uncached(k, s.calls[e.id]).Done? then 1 else 0
  {
    hide Key, Found, Swept, SearchKey, Uncached;
  }

  // ---------- how often a provider is asked ----------

  ghost predicate WellTimed(events: seq<Event>) {
    forall i, j :: 0 <= i <= j < |events| ==> events[i].now <= events[j].now
  }

  /** Event `n` puts a call's answer into the cache. */
  ghost predicate Stores(k: Config, events: seq<Event>, n: nat, key: string) {
    && Answered(k, events, n)
    && var call := After(k, events[..n]).calls[events[n].id];
       CachedMode(k, call) && Key(k, call) == key
  }

  /** Event `n` finds nothing in the cache for a call and sends it to its provider. */
  ghost predicate Asks(k: Config, events: seq<Event>, n: nat, key: string) {
    && n < |events| && events[n].Begin?
    && CachedMode(k, events[n].call) && Key(k, events[n].call) == key
    && events[n].id !in After(k, events[..n]).calls
    && events[n].id in After(k, events[..n + 1]).waiting
  }

  ghost predicate Held(store: Store, key: string, until: real) {
    key in store && store[key].expires.Some? && store[key].expires.value >= until
  }

  lemma {:induction false} HappenHeld(k: Config, s: State, e: Event, key: string, until: real)
    requires Held(s.store, key, until) && e.now <= until && e.now + k.ttl as real >= until
    ensures Held(Happen(k, s, e).store, key, until)
  {
  }

  lemma {:induction false} StoredHolds(k: Config, s: State, id: nat, now: real, latency: real)
    requires id in s.calls && Uncached(k, s.calls[id]).Done? && CachedMode(k, s.calls[id])
    ensures Held(Ended(k, s, id, now, latency).store, Key(k, s.calls[id]), now + k.ttl as real)
  {
  }

  lemma {:induction false} KeptUntil(k: Config, events: seq<Event>, i: nat, n: nat, key: string)
    requires WellTimed(events) && i < n <= |events| && Stores(k, events, i, key)
    requires events[n - 1].now <= events[i].now + k.ttl as real
    ensures Held(After(k, events[..n]).store, key, events[i].now + k.ttl as real)
    decreases n
  {
    hide Held, After, Key, Uncached, Ended;
    AfterNext(k, events, n - 1);
    if i < n - 1 {
      hide Happen, Stores;
      KeptUntil(k, events, i, n - 1, key);
      HappenHeld(k, After(k, events[..n - 1]), events[n - 1], key, events[i].now + k.ttl as real);
    } else {
      var e := events[i];
      StoredHolds(k, After(k, events[..i]), e.id, e.now, e.latency);
    }
  }

  lemma {:induction false} WaitingBegan(k: Config, events: seq<Event>)
    ensures After(k, events).waiting <= After(k, events).calls.Keys
  {
    WaitingWasAccepted(k, events);
  }

  /** A provider is asked for a key in cached mode only when every answer stored for it before is older
      than the time to live. */
  lemma {:induction false} AskedAgainOnlyAfterTtl(k: Config, events: seq<Event>, i: nat, j: nat, key: string)
    requires WellTimed(events) && i < j < |events| && Stores(k, events, i, key) && Asks(k, events, j, key)
    ensures events[j].now > events[i].now + k.ttl as real
  {
    if events[j].now <= events[i].now + k.ttl as real {
      hide Held, After, Key, Stores, Started;
      var e := events[j];
      KeptUntil(k, events, i, j, key);
      AfterNext(k, events, j);
      WaitingBegan(k, events[..j]);
      assert false;
    }
  }

  /** Event `i` stored this entry under the key. */
  ghost predicate StoredBy(k: Config, events: seq<Event>, i: nat, key: string, entry: Entry) {
    Stores(k, events, i, key) && entry.expires == Some(events[i].now + k.ttl as real)
  }

  lemma {:induction false} StoresStay(k: Config, events: seq<Event>, n: nat, i: nat, key: string)
    requires n <= |events| && i < n
    ensures Stores(k, events[..n], i, key) <==> Stores(k, events, i, key)
  {
    assert events[..n][..i] == events[..i];
  }

  /** An entry under the key of a call after one more event was there before, or is from an answer. */
  lemma {:induction false} HappenStores(k: Config, s: State, e: Event, c: Call)
    requires Key(k, c) in Happen(k, s, e).store
    ensures var key, store := Key(k, c), Happen(k, s, e).store;
            || (key in s.store && store[key] == s.store[key])
            || (e.End? && e.id in s.waiting && e.id in s.calls && Uncached(k, s.calls[e.id]).Done?
                && CachedMode(k, s.calls[e.id]) && Key(k, s.calls[e.id]) == key
                && store[key].expires == Some(e.now + k.ttl as real))
  {
    if e.SearchGet? || e.SearchSet? { assert Key(k, c)[0] == 'c' && SearchKey(e.rest)[0] == 's'; }
    hide Key, SearchKey, Uncached, Found;
  }

  /** Whatever lies under the key of a call is from an answer that was stored. */
  lemma {:induction false} EntryWasStored(k: Config, events: seq<Event>, c: Call) returns (i: nat)
    requires Key(k, c) in After(k, events).store
    ensures i < |events| && StoredBy(k, events, i, Key(k, c), After(k, events).store[Key(k, c)])
  {
    hide Key, Happen, Uncached;
    var n := |events| - 1;
    var s := After(k, events[..n]);
    HappenStores(k, s, events[n], c);
    if Key(k, c) in s.store && After(k, events).store[Key(k, c)] == s.store[Key(k, c)] {
      i := EntryWasStored(k, events[..n], c);
      StoresStay(k, events, n, i, Key(k, c));
    } else {
      i := n;
    }
  }

  /** A call that finds nothing is waiting for its provider, and one that finds something is not. */
  lemma {:induction false} BegunWaits(k: Config, s: State, id: nat, call: Call, now: real)
    requires id !in s.calls && id !in s.waiting && call.useCache && k.useCache && k.accepts(call.prompt)
    requires Name(k, call) in k.providers
    ensures id in Happen(k, s, Begin(id, call, now)).waiting <==>
            !(Key(k, call) in s.store
              && (s.store[Key(k, call)].expires == None || s.store[Key(k, call)].expires.value >= now))
  {
    hide Key, Swept;
  }

  /** With the cache on, a call goes to its provider exactly when every answer stored for its key before is
      older than the time to live. */
  lemma {:induction false} AsksIff(k: Config, events: seq<Event>, j: nat)
    requires WellTimed(events) && j < |events| && events[j].Begin?
    requires events[j].id !in After(k, events[..j]).calls
    requires var call := events[j].call;
             call.useCache && k.useCache && k.accepts(call.prompt) && Name(k, call) in k.providers
    ensures events[j].id in After(k, events[..j + 1]).waiting <==>
            forall i :: 0 <= i < j && Stores(k, events, i, Key(k, events[j].call)) ==>
                          events[j].now > events[i].now + k.ttl as real
  {
    hide Held, After, Key, Stores, Happen, Uncached, Name;
    var call, key, s := events[j].call, Key(k, events[j].call), After(k, events[..j]);
    AfterNext(k, events, j);
    WaitingBegan(k, events[..j]);
    BegunWaits(k, s, events[j].id, call, events[j].now);
    if key in s.store {
      var i := EntryWasStored(k, events[..j], call);
      StoresStay(k, events, j, i, key);
      assert s.store[key].expires == Some(events[i].now + k.ttl as real);
    }
    forall i | 0 <= i < j && Stores(k, events, i, key) && events[j].now <= events[i].now + k.ttl as real
      ensures Held(s.store, key, events[j].now)
    {
      KeptUntil(k, events, i, j, key);
      HeldLess(s.store, key, events[i].now + k.ttl as real, events[j].now);
    }
    HeldIs(s.store, key, events[j].now);
  }

  lemma {:induction false} HeldIs(store: Store, key: string, now: real)
    ensures Held(store, key, now) <==>
            key in store && store[key].expires.Some? && store[key].expires.value >= now
  {
  }

  lemma {:induction false} HeldLess(store: Store, key: string, until: real, now: real)
    requires Held(store, key, until) && now <= until
    ensures Held(store, key, now)
  {
  }

  // ---------- one call ----------

  /** A call that nothing overlaps: which provider is asked and when, what comes back, and what is left behind.
      The lookup is at time `looked`, the storing at `stored`. */
  ghost predicate OneCall(k: Config, call: Call, looked: real, stored: real, latency: real,
                          before: Store, metrics: seq<Metric>, result: Result, after: Store, newMetrics: seq<Metric>) {
    var name := if call.provider.Some? && call.provider.value != "" then call.provider.value else k.defaultProvider;
    var key := "complete:" + name + ":" + k.digest(call.prompt);
    var cached := call.useCache && k.useCache;
    var hit := cached && key in before && (before[key].expires.None? || looked <= before[key].expires.value);
    if !k.accepts(call.prompt) then
      result == Rejected && after == before && newMetrics == metrics
    else if hit then
      result == Done(k.decode(before[key].value)) && after == before && newMetrics == metrics
    else if name !in k.providers then
      result == UnknownProvider && after == (if cached then before - {key} else before) && newMetrics == metrics
    else match k.providers[name](call.prompt)
      case Raised =>
        result == ProviderFailed && after == (if cached then before - {key} else before) && newMetrics == metrics
      case Response(r) =>
        var tokens := r.promptTokens + r.completionTokens;
        && result == Done(r)
        && after == (if cached then before[key := Entry(k.encode(r), Some(stored + k.ttl as real))] else before)
        && newMetrics == metrics + [Metric(r.provider, r.model, latency, tokens, k.cost(r.provider, tokens))]
  }

  lemma {:induction false} NameAndKey(k: Config, call: Call)
    ensures var name := if call.provider.Some? && call.provider.value != "" then call.provider.value
                        else k.defaultProvider;
            Name(k, call) == name && Key(k, call) == "complete:" + name + ":" + k.digest(call.prompt)
  {
  }

  lemma {:induction false} BeginAlone(k: Config, call: Call, looked: real, before: Store, metrics: seq<Metric>)
    ensures var t := Happen(k, State(before, map[], {}, map[], metrics), Begin(0, call, looked));
            var name, key, cached := Name(k, call), Key(k, call), CachedMode(k, call);
            var hit := cached && key in before && (before[key].expires.None? || looked <= before[key].expires.value);
            && t.calls == map[0 := call] && t.metrics == metrics
            && t.store == (if k.accepts(call.prompt) && cached && !hit then before - {key} else before)
            && t.waiting == (if k.accepts(call.prompt) && !hit && name in k.providers then {0} else {})
            && (!k.accepts(call.prompt) ==> t.results == map[0 := Rejected])
            && (k.accepts(call.prompt) && hit ==> t.results == map[0 := Done(k.decode(before[key].value))])
            && (k.accepts(call.prompt) && !hit ==>
                  t.results == if name in k.providers then map[] else map[0 := UnknownProvider])
  {
    hide Key, Name;
  }

  lemma {:induction false} EndAlone(k: Config, s: State, stored: real, latency: real)
    requires 0 in s.calls && s.waiting == {0} && s.results == map[]
    ensures var t := Happen(k, s, End(0, stored, latency));
            var call, outcome := s.calls[0], Uncached(k, s.calls[0]);
            && t.waiting == {} && t.results == map[0 := outcome]
            && t.metrics == s.metrics + (if outcome.Done? then [MetricOf(k, outcome.response, latency)] else [])
            && t.store == if outcome.Done? && CachedMode(k, call)
                          then s.store[Key(k, call) :=
                                         Entry(k.encode(outcome.response), Some(stored + k.ttl as real))]
                          else s.store
  {
    hide Key, Uncached;
  }

  lemma {:induction false} StoreAgain(store: Store, key: string, entry: Entry)
    ensures (store - {key})[key := entry] == store[key := entry]
  {
  }

  /** Such a call is a `Begin` followed by an `End`. */
  lemma {:induction false} OneCallIsEvents(k: Config, call: Call, looked: real, stored: real, latency: real,
                                           before: Store,
                                           metrics: seq<Metric>, result: Result, after: Store, newMetrics: seq<Metric>)
    requires OneCall(k, call, looked, stored, latency, before, metrics, result, after, newMetrics)
    ensures var s := State(before, map[], {}, map[], metrics);
            var t := Happen(k, Happen(k, s, Begin(0, call, looked)), End(0, stored, latency));
            t.waiting == {} && t.results == map[0 := result] && t.store == after && t.metrics == newMetrics
  {
    hide Happen, Key, Name;
    NameAndKey(k, call);
    BeginAlone(k, call, looked, before, metrics);
    var t := Happen(k, State(before, map[], {}, map[], metrics), Begin(0, call, looked));
    if t.waiting == {0} {
      EndAlone(k, t, stored, latency);
      if result.Done? {
        StoreAgain(before, Key(k, call), Entry(k.encode(result.response), Some(stored + k.ttl as real)));
      }
    } else {
      EndNothing(k, t, stored, latency);
    }
  }

  lemma {:induction false} EndNothing(k: Config, s: State, stored: real, latency: real)
    requires s.waiting == {}
    ensures Happen(k, s, End(0, stored, latency)) == s
  {
  }

  // ---------- the kernel ----------

  class TmisKernel {
    const config: Config
    const cache: InMemoryCache
    var metrics: seq<Metric>

    constructor (config: Config, cache: InMemoryCache)
      ensures this.config == config && this.cache == cache && metrics == []
    {
      this.config, this.cache, metrics := config, cache, [];
    }

    /** Validation, key, lookup, provider, store and metric, in this order: a call that nothing overlaps
        is a `Begin` followed by an `End`. */
    method Complete(call: Call) returns (result: Result, ghost looked: real, ghost stored: real, ghost latency: real)
      modifies this, cache
      ensures old(cache.now) <= looked <= stored <= cache.now
      ensures var s := State(old(cache.store), map[], {}, map[], old(metrics));
              var t := Happen(config, Happen(config, s, Begin(0, call, looked)), End(0, stored, latency));
              t.results == map[0 := result] && t.waiting == {} && t.store == cache.store && t.metrics == metrics
      ensures OneCall(config, call, looked, stored, latency, old(cache.store), old(metrics), result, cache.store,
                      metrics)
    {
      hide Happen, Key, Name;
      NameAndKey(config, call);
      ghost var before, measured := cache.store, metrics;
      looked, stored, latency := cache.now, cache.now, 0.0;
      if !config.accepts(call.prompt) {
        OneCallIsEvents(config, call, looked, stored, latency, before, measured, Rejected, cache.store, metrics);
        return Rejected, looked, stored, latency;
      }
      var name := Name(config, call);
      var key := Key(config, call);
      if call.useCache && config.useCache {
        var cached := cache.Get(key);
        looked, stored := cache.now, cache.now;
        if cached.Some? {
          result := Done(config.decode(cached.value));
          OneCallIsEvents(config, call, looked, stored, latency, before, measured, result, cache.store, metrics);
          return;
        }
      }
      if name !in config.providers {
        OneCallIsEvents(config, call, looked, stored, latency, before, measured, UnknownProvider, cache.store, metrics);
        return UnknownProvider, looked, stored, latency;
      }
      var answer := config.providers[name](call.prompt);
      if answer.Raised? {
        OneCallIsEvents(config, call, looked, stored, latency, before, measured, ProviderFailed, cache.store, metrics);
        return ProviderFailed, looked, stored, latency;
      }
      if call.useCache && config.useCache {
        cache.Set(key, config.encode(answer.response), Some(config.ttl));
        stored := cache.now;
      }
      var elapsed: real := *;
      latency := elapsed;
      metrics := metrics + [MetricOf(config, answer.response, elapsed)];
      result := Done(answer.response);
      OneCallIsEvents(config, call, looked, stored, latency, before, measured, result, cache.store, metrics);
    }
  }
}
