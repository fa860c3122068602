/** What the cache holds over a run: every credited hit is a prefix that an earlier prefill of the same session
    stored, and bytes are conserved. */
module CacheHits {
  import opened Numbers
  import opened Simulation
  import opened Cluster
  import opened Requests
  import opened Tiers
  import opened Machine
  import opened Lifecycle
  import ED = EventDriven
  import opened Traces
  import opened Cache
  import opened Lru
  import opened Placement
  import opened CacheRunner
  import CL = CacheLifecycle
  import opened CacheMoves
  import opened CacheLedger

  // ---- policies ----

  /** Under a fresh id, and on a cache in order, the policy does nothing but remove objects and store the new one. */
  ghost predicate Honest<T(!new)>(x: Setup<T>) {
    forall t: T, top: Topology, c: State, j: Job :: Coherent(c) && j.kvId !in c.objects ==>
      HasEffect(c, j, x.place(t, top, c, j).out, x.place(t, top, c, j).cache)
  }

  /** A refusal leaves the cache as it was. */
  ghost predicate Careful<T(!new)>(x: Setup<T>) {
    forall t: T, top: Topology, c: State, j: Job :: Coherent(c) && j.kvId !in c.objects ==>
      (x.place(t, top, c, j).out.Refused? ==> x.place(t, top, c, j).cache == c)
  }

  // ---- what has been stored ----

  /** The event stored the KV of a prompt: a prefill ended and its placement was not refused. */
  predicate Stores<T>(w: World<T>, e: Ev, w': World<T>, book: map<u64, Request>) {
    && e.kind.PrefillDone? && e.kind.id in book && book[e.kind.id].promptTokens > 0
    && w'.counters.placementErrors == w.counters.placementErrors
  }

  /** Session and length of the prompts stored by the first `n` events. */
  function StoredKeys<T>(worlds: seq<World<T>>, events: seq<Ev>, n: nat, book: map<u64, Request>): set<(u64, u32)>
    requires n <= |events| < |worlds|
  {
    if n == 0 then {}
    else
      StoredKeys(worlds, events, n - 1, book)
      + if Stores(worlds[n-1], events[n-1], worlds[n], book)
        then {(book[events[n-1].kind.id].session, book[events[n-1].kind.id].promptTokens)} else {}
  }

  /** The bytes of those prompts' KV. */
  function PlacedBytes<T>(x: Setup<T>, worlds: seq<World<T>>, events: seq<Ev>, n: nat, book: map<u64, Request>): nat
    requires n <= |events| < |worlds|
  {
    if n == 0 then 0
    else
      PlacedBytes(x, worlds, events, n - 1, book)
      + if Stores(worlds[n-1], events[n-1], worlds[n], book) then x.kvBytes(book[events[n-1].kind.id].promptTokens) else 0
  }

  // ---- the cache between events ----

  /** The cache is in order, ids are fresh, and at most `i` were given out. */
  ghost predicate InOrder(c: State, i: nat) {
    Coherent(c) && Numbered(c) && c.nextKvId <= i
  }

  ghost predicate AllStored(c: State, keys: set<(u64, u32)>) {
    forall id | id in c.objects :: c.objects[id].Key() in keys
  }

  lemma UpdateAccessKeeps(c: State, id: u64, now: u64, i: nat, keys: set<(u64, u32)>)
    requires InOrder(c, i) && AllStored(c, keys)
    ensures InOrder(UpdateAccess(c, id, now), i) && AllStored(UpdateAccess(c, id, now), keys)
    ensures TotalBytes(UpdateAccess(c, id, now).objects) == TotalBytes(c.objects)
  {
    UpdateAccessCoherent(c, id, now);
    hide Coherent;
    var c' := UpdateAccess(c, id, now);
    if id in c.objects {
      TotalOf(c.objects, id);
      TotalOf(c'.objects, id);
      assert c'.objects - {id} == c.objects - {id};
    }
  }

  /** The job a finished prefill hands to the policy, on the cache after the id was allocated. */
  function JobOf<T>(w: World<T>, x: Setup<T>, r: Request): Job {
    Job(w.cache.nextKvId, r.session, r.promptTokens, x.kvBytes(r.promptTokens), w.core.Now())
  }

  lemma AllocKeeps(c: State, i: nat)
    requires InOrder(c, i) && i < MAX64
    ensures AllocKvId(c).0 == c.nextKvId && c.nextKvId !in c.objects
    ensures InOrder(AllocKvId(c).1, i + 1) && AllocKvId(c).1.objects == c.objects
    ensures AllocKvId(c).1.nextKvId == c.nextKvId + 1
  {
    AllocFresh(c);
    assert Cache.Accounted(AllocKvId(c).1) by {
      forall s: Slot ensures Charges(AllocKvId(c).1, s) { assert Charges(c, s); }
    }
  }

  lemma EffectKeeps(c: State, j: Job, out: Outcome, c': State, i: nat, keys: set<(u64, u32)>)
    requires InOrder(c, i) && AllStored(c, keys) && HasEffect(c, j, out, c') && j.kvId !in c.objects
             && j.kvId < c.nextKvId
    ensures InOrder(c', i)
    ensures AllStored(c', if out.Placed? then keys + {(j.session, j.prefixTokens)} else keys)
  {
    EffectCoherent(c, j, out, c');
    hide Coherent, HasEffect;
  }

  /** Storing the KV of a finished prefill keeps the cache in order and adds at most that prompt. */
  lemma StoreKvKeeps<T(!new)>(w: World<T>, x: Setup<T>, id: u64, i: nat, keys: set<(u64, u32)>)
    requires InOrder(w.cache, i) && AllStored(w.cache, keys) && i < MAX64 && Honest(x)
    requires id in w.core.inFlight && w.core.inFlight[id].req.promptTokens > 0
    ensures var w', r := StoreKv(w, x, id), w.core.inFlight[id].req;
            && InOrder(w'.cache, i + 1)
            && (w'.counters.placementErrors == w.counters.placementErrors || w'.counters.placementErrors == w.counters.placementErrors + 1)
            && AllStored(w'.cache, if w'.counters.placementErrors == w.counters.placementErrors
                                   then keys + {(r.session, r.promptTokens)} else keys)
  {
    var r := w.core.inFlight[id].req;
    var (kvId, cache) := AllocKvId(w.cache);
    var j := JobOf(w, x, r);
    var p := x.place(w.transfer, w.core.cluster, cache, j);
    AllocKeeps(w.cache, i);
    assert Coherent(cache) && j.kvId !in cache.objects;
    assert HasEffect(cache, j, p.out, p.cache);
    assert AllStored(cache, keys);
    hide InOrder, AllStored, HasEffect, Honest, AllocKvId;
    EffectKeeps(cache, j, p.out, p.cache, i + 1, keys);
  }

  // ---- each turn ----

  /** Pending fetches are for stored prompts. */
  ghost predicate FetchesStored(c: Core, keys: set<(u64, u32)>, book: map<u64, Request>) {
    forall id | id in Fetching(c.sim.pending) :: id in book && (book[id].session, book[id].ReusedTokens()) in keys
  }

  /** The cache's side of the loop invariant. */
  ghost predicate Cached<T>(w: World<T>, i: nat, keys: set<(u64, u32)>, book: map<u64, Request>) {
    InOrder(w.cache, i) && AllStored(w.cache, keys) && FetchesStored(w.core, keys, book)
  }

  /** A prefix that is found has been stored. */
  lemma FoundIsStored(c: State, i: nat, keys: set<(u64, u32)>, r: Request, kv: KvObject)
    requires InOrder(c, i) && AllStored(c, keys) && FindPrefix(c, r) == Some(kv)
    ensures (r.session, r.ReusedTokens()) in keys && r.ReusedTokens() > 0
  {
    hide Cache.Accounted;
    assert IndexSound(c);
  }

  lemma ArrivalCached<T>(w: World<T>, x: Setup<T>, id: u64, w': World<T>, i: nat, keys: set<(u64, u32)>,
                         book: map<u64, Request>)
    requires Cached(w, i, keys, book) && ArrivalMoved(w, x, id, w') && OfBook(w.core, book)
    ensures Cached(w', i, keys, book) && TotalBytes(w'.cache.objects) == TotalBytes(w.cache.objects)
    ensures w'.counters.evictedBytes == w.counters.evictedBytes
    ensures w.counters.Hits() < w'.counters.Hits() ==> id in book && (book[id].session, book[id].ReusedTokens()) in keys
  {
    hide InOrder, AllStored, Arriving, Fetching, UpdateAccess, FindPrefix, Proceeds;
    if Missed(w, x, id, w') {
      var f := w.core.inFlight[id];
      ProceedsKinds(x.engine, w.core, w'.core, id, f.req.promptTokens, f.fetchTier);
    } else if FetchFailed(w, x, id, w') {
      ProceedsKinds(x.engine, w.core, w'.core, id, w.core.inFlight[id].req.promptTokens, None);
    } else if kv :| HitNow(w, x, id, kv, w') {
      var f := w.core.inFlight[id];
      ProceedsKinds(x.engine, w.core, w'.core, id, RestOf(f), f.fetchTier);
      FoundIsStored(w.cache, i, keys, f.req, kv);
      UpdateAccessKeeps(w.cache, kv.kvId, w.core.Now(), i, keys);
    } else {
      var kv :| FetchStarted(w, x, id, kv, w');
      AwaitKinds(w, x, id, kv, w');
      FoundIsStored(w.cache, i, keys, w.core.inFlight[id].req, kv);
    }
  }

  lemma PoppedCached<T>(w0: World<T>, w: World<T>, e: Ev, i: nat, keys: set<(u64, u32)>, book: map<u64, Request>)
    requires Cached(w0, i, keys, book) && Opened(w, w0, e)
    ensures Cached(w, i, keys, book) && w.cache == w0.cache && w.counters == w0.counters
            && w.core.inFlight == w0.core.inFlight
  {
    hide InOrder, AllStored, Arriving, Fetching;
  }

  lemma LaterCached<T>(w: World<T>, i: nat, keys: set<(u64, u32)>, book: map<u64, Request>)
    requires Cached(w, i, keys, book)
    ensures Cached(w, i + 1, keys, book)
  {
    hide Coherent, Numbered, AllStored, FetchesStored;
  }

  /** The keys after the turn. */
  function KeysAfter<T>(w: World<T>, e: Ev, w': World<T>, keys: set<(u64, u32)>, book: map<u64, Request>): set<(u64,
                        u32)> {
    keys + if Stores(w, e, w', book) then {(book[e.kind.id].session, book[e.kind.id].promptTokens)} else {}
  }

  lemma NothingStored<T>(w: World<T>, e: Ev, w': World<T>, keys: set<(u64, u32)>, book: map<u64, Request>)
    requires !Stores(w, e, w', book)
    ensures KeysAfter(w, e, w', keys, book) == keys
  {}

  lemma FetchEndCached<T>(w0: World<T>, w: World<T>, x: Setup<T>, e: Ev, w': World<T>, i: nat, keys: set<(u64, u32)>,
                          book: map<u64, Request>)
    requires Cached(w0, i, keys, book) && Opened(w, w0, e) && e.kind.FetchDone? && FetchEnded(w, x, e.kind.id, w')
    ensures Cached(w', i, keys, book) && w'.cache == w0.cache && w'.counters.evictedBytes == w0.counters.evictedBytes
    ensures e.kind.id in book && (book[e.kind.id].session, book[e.kind.id].ReusedTokens()) in keys
  {
    hide InOrder, AllStored, Arriving, Fetching, Proceeds;
    ProceedsKinds(x.engine, w.core, w'.core, e.kind.id, RestOf(w.core.inFlight[e.kind.id]), None);
  }

  lemma CalmCached<T>(m: Engine, w: World<T>, a: Core, w': World<T>, i: nat, i': nat, keys: set<(u64, u32)>,
                      keys': set<(u64, u32)>, book: map<u64, Request>)
    requires Cached(w, i, keys, book) && Calm(m, a, w'.core) && a.sim.pending == w.core.sim.pending
    requires InOrder(w'.cache, i') && AllStored(w'.cache, keys') && keys <= keys'
    ensures Cached(w', i', keys', book)
  {
    hide InOrder, AllStored, Arriving, Fetching;
  }

  lemma DecodeDoneCached<T>(w: World<T>, x: Setup<T>, e: Ev, i: nat, keys: set<(u64, u32)>, book: map<u64, Request>)
    requires Cached(w, i, keys, book) && e.kind.DecodeDone? && CanServe(w.core, e)
    ensures var w' := OnDecodeDone(w, x, e.kind.id, e.kind.gpu);
            Cached(w', i, keys, book) && w'.cache == w.cache && w'.counters == w.counters
  {
    var id, g := e.kind.id, e.kind.gpu;
    hide InOrder, AllStored, FetchesStored, ED.OnDecodeDone, Calm, Distinct, HasGpu;
    DecodeDoneCalm(w.core, x.engine, id, g);
    CalmCached(x.engine, w, Finish(w.core, id), OnDecodeDone(w, x, id, g), i, i, keys, keys, book);
  }

  /** Storing, told with the state before the event. */
  lemma StoreCached<T(!new)>(w: World<T>, x: Setup<T>, e: Ev, i: nat, keys: set<(u64, u32)>, book: map<u64, Request>)
    requires InOrder(w.cache, i) && AllStored(w.cache, keys) && i < MAX64 && Honest(x) && OfBook(w.core, book)
    requires e.kind.PrefillDone? && e.kind.id in w.core.inFlight
    ensures var w' := StoreKv(w, x, e.kind.id);
            InOrder(w'.cache, i + 1) && AllStored(w'.cache, KeysAfter(w, e, w', keys, book))
  {
    var id := e.kind.id;
    if w.core.inFlight[id].req.promptTokens > 0 {
      hide InOrder, AllStored, Honest, StoreKv;
      StoreKvKeeps(w, x, id, i, keys);
      var w' := StoreKv(w, x, id);
      if !Stores(w, e, w', book) { NothingStored(w, e, w', keys, book); }
    } else {
      NothingStored(w, e, w, keys, book);
    }
  }

  lemma PrefillDoneCached<T(!new)>(w: World<T>, x: Setup<T>, e: Ev, i: nat, keys: set<(u64, u32)>, book: map<u64,
                                   Request>)
    requires Cached(w, i, keys, book) && i < MAX64 && Honest(x) && OfBook(w.core, book)
    requires e.kind.PrefillDone? && CanServe(w.core, e) && e.kind.id in w.core.inFlight
    ensures var w' := OnPrefillDone(w, x, e.kind.id, e.kind.gpu);
            Cached(w', i + 1, KeysAfter(w, e, w', keys, book), book) && w'.counters.Hits() == w.counters.Hits()
  {
    var id, g := e.kind.id, e.kind.gpu;
    var w1 := w.(core := Release(w.core, g));
    assert w1.core.inFlight == w.core.inFlight && w1.cache == w.cache;
    assert OfBook(w1.core, book);
    hide InOrder, AllStored, FetchesStored, Honest, StoreKv, ED.OnPrefillDone, Calm, Distinct, HasGpu, Release,
      DispatchDecode, AssignPrefill, AssignDecode, OfBook;
    StoreKvBooks(w1, x, id);
    StoreCached(w1, x, e, i, keys, book);
    CL.PrefillDoneCore(w, x, id, g);
    PrefillDoneCalm(w.core, x.engine, id, g);
    CalmCached(x.engine, w, w.core, OnPrefillDone(w, x, id, g), i, i + 1, keys,
               KeysAfter(w, e, OnPrefillDone(w, x, id, g), keys, book), book);
  }

  /** Every turn keeps the cache's side of the invariant, and credits only hits on stored prompts. */
  lemma ServeCached<T(!new)>(w0: World<T>, w: World<T>, x: Setup<T>, e: Ev, i: nat, keys: set<(u64, u32)>,
                             credited: set<u64>,
                             book: map<u64, Request>)
    requires Cached(w0, i, keys, book) && Opened(w, w0, e) && i < MAX64 && Honest(x) && OfBook(w0.core, book)
    requires CanServe(w.core, e) && e.kind.id in w.core.inFlight
    ensures var w' := Serve(w, x, e);
            && Cached(w', i + 1, KeysAfter(w0, e, w', keys, book), book)
            && (w0.counters.Hits() < w'.counters.Hits() ==>
                  e.kind.id in book && (book[e.kind.id].session, book[e.kind.id].ReusedTokens()) in keys)
  {
    hide Cached, Honest, OnArrival, OnPrefillDone, OnFetchDone, OnDecodeDone, ArrivalMoved, FetchEnded, Opened,
      KeysAfter, Distinct;
    PoppedCached(w0, w, e, i, keys, book);
    OfBookSame(w0.core, w.core, book);
    var w' := Serve(w, x, e);
    match e.kind {
      case RequestArrival(id) =>
        ArrivalMoves(w, x, id);
        ArrivalCached(w, x, id, w', i, keys, book);
        LaterCached(w', i, keys, book);
        NothingStored(w0, e, w', keys, book);
      case PrefillDone(id, g) =>
        PrefillDoneCached(w, x, e, i, keys, book);
        SameKeysAfter(w0, w, e, w', keys, book);
      case DecodeDone(id, g) =>
        DecodeDoneCached(w, x, e, i, keys, book);
        LaterCached(w', i, keys, book);
        NothingStored(w0, e, w', keys, book);
      case FetchDone(id) =>
        FetchDoneMoves(w, x, id);
        FetchEndCached(w0, w, x, e, w', i, keys, book);
        LaterCached(w', i, keys, book);
        NothingStored(w0, e, w', keys, book);
    }
  }

  lemma OfBookSame(a: Core, b: Core, book: map<u64, Request>)
    requires OfBook(a, book) && b.inFlight == a.inFlight
    ensures OfBook(b, book)
  {}

  lemma SameKeysAfter<T>(w0: World<T>, w: World<T>, e: Ev, w': World<T>, keys: set<(u64, u32)>, book: map<u64, Request>)
    requires w.counters == w0.counters
    ensures KeysAfter(w0, e, w', keys, book) == KeysAfter(w, e, w', keys, book)
  {}

  // ---- runs ----

  /** The loop invariant with the cache. */
  ghost predicate InCache<T>(w: World<T>, i: nat, keys: set<(u64, u32)>, book: map<u64, Request>, total: int) {
    CL.SteadyWithin(i, w.core, book, total) && Cached(w, i, keys, book) && total < MAX64
  }

  lemma WithinParts(c: Core, i: nat, book: map<u64, Request>, total: int)
    requires CL.SteadyWithin(i, c, book, total)
    ensures CL.Steady(c) && OfBook(c, book) && i <= total
  {
    hide CL.Steady;
  }

  lemma TurnCached<T(!new)>(x: Setup<T>, i: nat, w: World<T>, e: Ev, w': World<T>, keys: set<(u64, u32)>,
                            book: map<u64, Request>, total: int)
    requires InCache(w, i, keys, book, total) && Turns(x)(w, e, w') && Honest(x)
    ensures InCache(w', i + 1, KeysAfter(w, e, w', keys, book), book, total)
    ensures w.counters.Hits() < w'.counters.Hits() ==>
              e.kind.id in book && (book[e.kind.id].session, book[e.kind.id].ReusedTokens()) in keys
  {
    hide CL.SteadyWithin, CL.Steady, Cached, Honest, Serve, KeysAfter, OfBook, Opened;
    CL.TurnSteady(x, i, w, e, w', book, total);
    WithinParts(w.core, i, book, total);
    assert Turn(w, x, e, w');
    TurnOpens(w, x, e, w');
    ServeCached(w, PopWorld(w, e), x, e, i, keys, {}, book);
  }

  lemma {:induction false} RunCached<T(!new)>(x: Setup<T>, worlds: seq<World<T>>, events: seq<Ev>, n: nat,
                                              book: map<u64, Request>, total: int)
    requires IsTrace(Turns(x), worlds, events) && InCache(worlds[0], 0, {}, book, total) && Honest(x) && n <= |events|
    ensures InCache(worlds[n], n, StoredKeys(worlds, events, n, book), book, total)
  {
    hide Turns, InCache, Honest, IsTrace;
    if n > 0 {
      TraceStep(Turns(x), worlds, events, n - 1);
      RunCached(x, worlds, events, n - 1, book, total);
      var keys := StoredKeys(worlds, events, n - 1, book);
      TurnCached(x, n - 1, worlds[n-1], events[n-1], worlds[n], keys, book, total);
      assert StoredKeys(worlds, events, n, book) == KeysAfter(worlds[n-1], events[n-1], worlds[n], keys, book);
    }
  }

  /** An empty cache with its capacities set. */
  ghost predicate Cold(c: State) {
    c.objects == map[] && c.index == map[] && c.nextKvId == 0 && forall s: Slot :: c.Usage(s) == 0
  }

  lemma ColdInOrder(c: State)
    requires Cold(c)
    ensures InOrder(c, 0) && AllStored(c, {}) && TotalBytes(c.objects) == 0
  {
    forall s: Slot ensures Charges(c, s) {}
  }

  lemma BeginCached<T>(t: Topology, rs: seq<Request>, cache: State, transfer: T)
    requires ED.Servable(t, rs) && UniqueIds(rs) && Cold(cache) && 4 * |rs| < MAX64
    ensures InCache(Begin(t, rs, cache, transfer), 0, {}, Book(rs), 4 * |rs|)
  {
    hide CL.SteadyWithin, ED.Servable, InOrder, AllStored, Cold, Loaded, Book, Fetching, Arriving, UniqueIds;
    CL.LoadedSteady(t, rs);
    LoadedArriving(t, rs);
    ColdInOrder(cache);
  }

  /** Hit soundness: from an empty cache and with any honest policy, a hit is credited only to a request whose reused
      prefix, of exactly that length and of the same session, is a prompt that an earlier prefill stored. */
  lemma HitsWereStored<T(!new)>(t: Topology, rs: seq<Request>, x: Setup<T>, cache: State, transfer: T,
                                worlds: seq<World<T>>, events: seq<Ev>, i: nat)
    requires ED.Servable(t, rs) && UniqueIds(rs) && Cold(cache) && 4 * |rs| < MAX64 && Honest(x)
    requires IsTrace(Turns(x), worlds, events) && worlds[0] == Begin(t, rs, cache, transfer) && i < |events|
    requires worlds[i].counters.Hits() < worlds[i+1].counters.Hits()
    ensures var id, book := events[i].kind.id, Book(rs);
            id in book && (book[id].session, book[id].ReusedTokens()) in StoredKeys(worlds, events, i, book)
  {
    hide Turns, InCache, Honest, Begin, Cold, ED.Servable, UniqueIds, Book, StoredKeys, Counters.Hits;
    BeginCached(t, rs, cache, transfer);
    RunCached(x, worlds, events, i, Book(rs), 4 * |rs|);
    TurnCached(x, i, worlds[i], events[i], worlds[i+1], StoredKeys(worlds, events, i, Book(rs)), Book(rs), 4 * |rs|);
  }

  // ---- bytes ----

  /** What was placed is what is there plus what was reported evicted, up to the end of the eviction counter. */
  ghost predicate Conserved<T>(w: World<T>, placed: nat) {
    TotalBytes(w.cache.objects) <= placed && w.counters.evictedBytes == Cap(placed - TotalBytes(w.cache.objects))
  }

  lemma {:induction false} AddEvictedSum(exact: nat, evicted: seq<EvictedKv>)
    ensures AddEvicted(Cap(exact), evicted) == Cap(exact + SumBytes(evicted))
  {
    if evicted != [] { AddEvictedSum(exact, evicted[..|evicted|-1]); }
  }

  /** The bytes placed after the turn. */
  function PlacedAfter<T>(x: Setup<T>, w: World<T>, e: Ev, w': World<T>, placed: nat, book: map<u64, Request>): nat {
    placed + if Stores(w, e, w', book) then x.kvBytes(book[e.kind.id].promptTokens) else 0
  }

  lemma NothingPlaced<T>(x: Setup<T>, w: World<T>, e: Ev, w': World<T>, placed: nat, book: map<u64, Request>)
    requires !Stores(w, e, w', book)
    ensures PlacedAfter(x, w, e, w', placed, book) == placed
  {}

  /** One call of the policy, on the counters. */
  lemma PlaceConserves(before: State, c: State, j: Job, out: Outcome, c': State, evictedBytes: u64, placed: nat)
    requires HasEffect(c, j, out, c') && j.kvId !in c.objects && c.objects == before.objects && (out.Refused? ==> c' == c)
    requires TotalBytes(before.objects) <= placed && evictedBytes == Cap(placed - TotalBytes(before.objects))
    ensures out.Placed? ==> TotalBytes(c'.objects) <= placed + j.bytes
                            && AddEvicted(evictedBytes, out.evicted) == Cap(placed + j.bytes - TotalBytes(c'.objects))
    ensures out.Refused? ==> TotalBytes(c'.objects) == TotalBytes(before.objects)
  {
    EffectBytes(c, j, out, c');
    hide HasEffect;
    if out.Placed? { AddEvictedSum(placed - TotalBytes(c.objects), out.evicted); }
  }

  lemma StoreConserves<T(!new)>(w: World<T>, x: Setup<T>, e: Ev, i: nat, placed: nat, book: map<u64, Request>)
    requires InOrder(w.cache, i) && i < MAX64 && Honest(x) && Careful(x) && OfBook(w.core, book) && Conserved(w, placed)
    requires e.kind.PrefillDone? && e.kind.id in w.core.inFlight
    ensures var w' := StoreKv(w, x, e.kind.id); Conserved(w', PlacedAfter(x, w, e, w', placed, book))
  {
    var id := e.kind.id;
    if w.core.inFlight[id].req.promptTokens > 0 {
      var (kvId, cache) := AllocKvId(w.cache);
      var j := JobOf(w, x, w.core.inFlight[id].req);
      var p := x.place(w.transfer, w.core.cluster, cache, j);
      AllocKeeps(w.cache, i);
      assert Coherent(cache) && j.kvId !in cache.objects;
      assert HasEffect(cache, j, p.out, p.cache) && (p.out.Refused? ==> p.cache == cache);
      hide InOrder, HasEffect, Honest, Careful, AllocKvId, AddEvicted, TotalBytes;
      PlaceConserves(w.cache, cache, j, p.out, p.cache, w.counters.evictedBytes, placed);
    }
  }

  lemma ServeConserves<T(!new)>(w0: World<T>, w: World<T>, x: Setup<T>, e: Ev, i: nat, keys: set<(u64, u32)>,
                                placed: nat,
                                book: map<u64, Request>)
    requires Cached(w0, i, keys, book) && Opened(w, w0, e) && i < MAX64 && Honest(x) && Careful(x)
             && OfBook(w0.core, book)
    requires CanServe(w.core, e) && e.kind.id in w.core.inFlight && Conserved(w0, placed)
    ensures var w' := Serve(w, x, e); Conserved(w', PlacedAfter(x, w0, e, w', placed, book))
  {
    hide Cached, Honest, Careful, OnArrival, OnPrefillDone, OnFetchDone, OnDecodeDone, ArrivalMoved, FetchEnded,
      Opened, PlacedAfter, Distinct, TotalBytes;
    PoppedCached(w0, w, e, i, keys, book);
    OfBookSame(w0.core, w.core, book);
    var w' := Serve(w, x, e);
    match e.kind {
      case RequestArrival(id) =>
        ArrivalMoves(w, x, id);
        ArrivalCached(w, x, id, w', i, keys, book);
        NothingPlaced(x, w0, e, w', placed, book);
      case PrefillDone(id, g) =>
        PrefillDoneConserves(w, x, e, i, keys, placed, book);
        SamePlacedAfter(x, w0, w, e, w', placed, book);
      case DecodeDone(id, g) =>
        DecodeDoneCached(w, x, e, i, keys, book);
        NothingPlaced(x, w0, e, w', placed, book);
      case FetchDone(id) =>
        FetchDoneMoves(w, x, id);
        FetchEndCached(w0, w, x, e, w', i, keys, book);
        NothingPlaced(x, w0, e, w', placed, book);
    }
  }

  lemma SamePlacedAfter<T>(x: Setup<T>, w0: World<T>, w: World<T>, e: Ev, w': World<T>, placed: nat, book: map<u64,
                           Request>)
    requires w.counters == w0.counters
    ensures PlacedAfter(x, w0, e, w', placed, book) == PlacedAfter(x, w, e, w', placed, book)
  {}

  lemma PrefillDoneConserves<T(!new)>(w: World<T>, x: Setup<T>, e: Ev, i: nat, keys: set<(u64, u32)>, placed: nat,
                                      book: map<u64, Request>)
    requires Cached(w, i, keys, book) && i < MAX64 && Honest(x) && Careful(x) && OfBook(w.core, book)
             && Conserved(w, placed)
    requires e.kind.PrefillDone? && CanServe(w.core, e) && e.kind.id in w.core.inFlight
    ensures var w' := OnPrefillDone(w, x, e.kind.id, e.kind.gpu); Conserved(w', PlacedAfter(x, w, e, w', placed, book))
  {
    var w1 := w.(core := Release(w.core, e.kind.gpu));
    assert w1.core.inFlight == w.core.inFlight && InOrder(w.cache, i);
    OfBookSame(w.core, w1.core, book);
    hide InOrder, Honest, Careful, StoreKv, Distinct, HasGpu, Release, DispatchDecode, AssignPrefill, AssignDecode,
      OfBook, TotalBytes;
    StoreConserves(w1, x, e, i, placed, book);
  }

  /** The loop invariant with cache and bytes. */
  ghost predicate InBytes<T>(w: World<T>, i: nat, keys: set<(u64, u32)>, book: map<u64, Request>, total: int,
                             placed: nat) {
    InCache(w, i, keys, book, total) && Conserved(w, placed)
  }

  lemma TurnConserves<T(!new)>(x: Setup<T>, i: nat, w: World<T>, e: Ev, w': World<T>, keys: set<(u64, u32)>,
                               book: map<u64, Request>, total: int, placed: nat)
    requires InBytes(w, i, keys, book, total, placed) && Turns(x)(w, e, w') && Honest(x) && Careful(x)
    ensures InBytes(w', i + 1, KeysAfter(w, e, w', keys, book), book, total, PlacedAfter(x, w, e, w', placed, book))
  {
    TurnCached(x, i, w, e, w', keys, book, total);
    hide CL.SteadyWithin, CL.Steady, Cached, Honest, Careful, Serve, KeysAfter, OfBook, Opened, PlacedAfter,
      Conserved;
    WithinParts(w.core, i, book, total);
    assert Turn(w, x, e, w');
    TurnOpens(w, x, e, w');
    ServeConserves(w, PopWorld(w, e), x, e, i, keys, placed, book);
  }

  lemma {:induction false} RunConserves<T(!new)>(x: Setup<T>, worlds: seq<World<T>>, events: seq<Ev>, n: nat,
                                                 book: map<u64, Request>, total: int)
    requires IsTrace(Turns(x), worlds, events) && InBytes(worlds[0], 0, {}, book, total, 0) && Honest(x) && Careful(x)
    requires n <= |events|
    ensures InBytes(worlds[n], n, StoredKeys(worlds, events, n, book), book, total, PlacedBytes(x, worlds, events, n, book))
  {
    hide Turns, InBytes, Honest, Careful, IsTrace;
    if n > 0 {
      TraceStep(Turns(x), worlds, events, n - 1);
      RunConserves(x, worlds, events, n - 1, book, total);
      var keys, placed := StoredKeys(worlds, events, n - 1, book), PlacedBytes(x, worlds, events, n - 1, book);
      TurnConserves(x, n - 1, worlds[n-1], events[n-1], worlds[n], keys, book, total, placed);
      assert StoredKeys(worlds, events, n, book) == KeysAfter(worlds[n-1], events[n-1], worlds[n], keys, book);
      assert PlacedBytes(x, worlds, events, n, book) == PlacedAfter(x, worlds[n-1], events[n-1], worlds[n], placed, book);
    }
  }

  /** Byte conservation: from an empty cache and with a policy that leaves the cache alone when it refuses, at every
      moment the bytes stored so far are the bytes there plus the bytes evicted; the eviction counter is exact up to
      its end. */
  lemma BytesConserved<T(!new)>(t: Topology, rs: seq<Request>, x: Setup<T>, cache: State, transfer: T,
                                worlds: seq<World<T>>, events: seq<Ev>, n: nat)
    requires ED.Servable(t, rs) && UniqueIds(rs) && Cold(cache) && 4 * |rs| < MAX64 && Honest(x) && Careful(x)
    requires IsTrace(Turns(x), worlds, events) && worlds[0] == Begin(t, rs, cache, transfer) && n <= |events|
    ensures var placed, there := PlacedBytes(x, worlds, events, n, Book(rs)), TotalBytes(worlds[n].cache.objects);
            && there <= placed && worlds[n].counters.evictedBytes == Cap(placed - there)
            && (placed <= MAX64 ==> there + worlds[n].counters.evictedBytes == placed)
  {
    hide Turns, InCache, Honest, Careful, Loaded, ED.Servable, UniqueIds, Book, StoredKeys, PlacedBytes, TotalBytes;
    BeginCached(t, rs, cache, transfer);
    ColdInOrder(cache);
    hide Cold;
    RunConserves(x, worlds, events, n, Book(rs), 4 * |rs|);
  }
}
