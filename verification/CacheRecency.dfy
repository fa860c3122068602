/** When objects were last used: a hit touches exactly the object found, which protects it from eviction, and over a run
    an object's access time is the later of its store and its last hit on the GPU. */
module CacheRecency {
  import opened Numbers
  import opened Simulation
  import opened Cluster
  import opened Requests
  import opened Tiers
  import opened Machine
  import opened Lifecycle
  import ED = EventDriven
  import opened Traces
  import opened Cache
  import opened Lru
  import opened Placement
  import opened CacheRunner
  import CL = CacheLifecycle
  import CT = CacheTieFree
  import opened CacheMoves
  import opened CacheLedger
  import opened CacheHits
  import opened CacheArrivals

  // ---- one hit ----

  /** After a hit on the GPU the object found was last used now; nothing else in the cache has changed. */
  lemma HitTouches<T>(w: World<T>, x: Setup<T>, id: u64)
    requires Distinct(w.core.cluster) && id in w.core.inFlight && Coherent(w.cache)
    requires OnGpu(Prefix(w.cache, w.core.inFlight[id].req))
    ensures var c, c', o := w.cache, OnArrival(w, x, id).cache, Prefix(w.cache, w.core.inFlight[id].req).value;
            && o.kvId in c.objects && c.objects[o.kvId] == o
            && c'.objects == c.objects[
                 o.kvId := KvObject(o.kvId, o.session, o.prefixTokens, o.bytes, o.location, w.core.Now())]
            && c'.index == c.index && c'.capacities == c.capacities && c'.usage == c.usage && c'.nextKvId == c.nextKvId
  {
    ArrivalSplits(w, x, id);
    var r := w.core.inFlight[id].req;
    LookupSound(w.cache, r.session, r.promptTokens - r.newPromptTokens);
    hide OnArrival, Proceeds, IndexSound, Cache.Accounted, Distinct;
    var o := Prefix(w.cache, r).value;
    UpdateAccessExactly(w.cache, o.kvId, w.core.Now());
  }

  /** An arrival that is not a hit on the GPU leaves the cache alone. */
  lemma OthersDoNotTouch<T>(w: World<T>, x: Setup<T>, id: u64)
    requires Distinct(w.core.cluster) && id in w.core.inFlight
    requires !OnGpu(Prefix(w.cache, w.core.inFlight[id].req))
    ensures OnArrival(w, x, id).cache == w.cache
  {
    var found := Prefix(w.cache, w.core.inFlight[id].req);
    SomewhereOrUnusable(found);
    ArrivalSplits(w, x, id);
    hide OnArrival, Prefix, Proceeds, Away, Distinct, AwaitFetch;
    if path, tier :| Away(found, path, tier) {
      assert FetchedOrFailed(w, x, id, found.value, path, tier, OnArrival(w, x, id));
    }
  }

  /** A hit protects: while an object of the slot that was used earlier survives an eviction run, the object just touched
      is not among the victims. */
  lemma HitProtects(c: State, o: u64, now: u64, s: Slot, bytes: u64, ids: seq<u64>, k: u64)
    requires o in c.objects && EvictRun(UpdateAccess(c, o, now), s, bytes, ids)
    requires k != o && k in After(UpdateAccess(c, o, now), ids).InTier(s) && AccessOf(c, k) < now
    ensures o !in ids
  {
    var c' := UpdateAccess(c, o, now);
    EvictLeastRecent(c', s, bytes, ids);
    assert AccessOf(c', o) == now && AccessOf(c', k) == AccessOf(c, k);
    hide EvictRun, UpdateAccess, AccessOf;
    forall i | 0 <= i < |ids| ensures ids[i] != o {
      assert AccessOf(c', ids[i]) <= AccessOf(c', k);
    }
  }

  // ---- the trace's view ----

  /** When the objects were stored, after one more event. */
  function StoresAfter<T>(w: World<T>, e: Ev, w': World<T>, stored: map<u64, u64>, book: map<u64, Request>): map<u64, u64> {
    if Stores(w, e, w', book) then stored[w.cache.nextKvId := w'.core.Now()] else stored
  }

  /** When the objects were last hit on the GPU, after one more event. */
  function HitsAfter<T>(w: World<T>, e: Ev, w': World<T>, hits: map<u64, u64>, book: map<u64, Request>): map<u64, u64> {
    if e.kind.RequestArrival? && e.kind.id in book && OnGpu(Prefix(w.cache, book[e.kind.id]))
    then hits[Prefix(w.cache, book[e.kind.id]).value.kvId := w'.core.Now()] else hits
  }

  /** For each object stored by the first `n` events, the time of the event that stored it. */
  function StoreTimes<T>(worlds: seq<World<T>>, events: seq<Ev>, n: nat, book: map<u64, Request>): map<u64, u64>
    requires n <= |events| < |worlds|
  {
    if n == 0 then map[]
    else StoresAfter(worlds[n-1], events[n-1], worlds[n], StoreTimes(worlds, events, n - 1, book), book)
  }

  /** For each object found on the GPU by one of the first `n` events, the time of the last of them. */
  function HitTimes<T>(worlds: seq<World<T>>, events: seq<Ev>, n: nat, book: map<u64, Request>): map<u64, u64>
    requires n <= |events| < |worlds|
  {
    if n == 0 then map[]
    else HitsAfter(worlds[n-1], events[n-1], worlds[n], HitTimes(worlds, events, n - 1, book), book)
  }

  // ---- the invariant ----

  /** The later of the store and the last hit, if there was one. */
  function LastUse(id: u64, stored: map<u64, u64>, hits: map<u64, u64>): u64
    requires id in stored
  {
    if id in hits then Later(stored[id], hits[id]) else stored[id]
  }

  ghost predicate Recent(c: State, now: u64, stored: map<u64, u64>, hits: map<u64, u64>) {
    && (forall id | id in c.objects :: id in stored && c.objects[id].lastAccess == LastUse(id, stored, hits))
    && (forall id | id in stored :: stored[id] <= now)
    && (forall id | id in hits :: id < c.nextKvId && hits[id] <= now)
  }

  lemma RecentLater(c: State, now: u64, later: u64, stored: map<u64, u64>, hits: map<u64, u64>)
    requires Recent(c, now, stored, hits) && now <= later
    ensures Recent(c, later, stored, hits)
  {}

  /** A hit. */
  lemma TouchRecent(c: State, c': State, id: u64, now: u64, stored: map<u64, u64>, hits: map<u64, u64>)
    requires Recent(c, now, stored, hits) && Numbered(c) && id in c.objects
    requires c'.objects == c.objects[id := c.objects[id].(lastAccess := now)] && c'.nextKvId == c.nextKvId
    ensures Recent(c', now, stored, hits[id := now])
  {}

  /** One call of the policy. */
  lemma PlaceRecent(before: State, c: State, j: Job, out: Outcome, c': State, now: u64, stored: map<u64, u64>,
                    hits: map<u64, u64>)
    requires Recent(before, now, stored, hits) && before.nextKvId == j.kvId && j.now == now
    requires c.objects == before.objects && before.nextKvId <= c.nextKvId
    requires HasEffect(c, j, out, c') && j.kvId !in c.objects
    ensures Recent(c', now, if out.Placed? then stored[j.kvId := now] else stored, hits)
  {
    EffectCoherent(c, j, out, c');
    hide HasEffect;
  }

  /** Storing the KV of a finished prefill. */
  lemma StoreRecent<T(!new)>(w: World<T>, x: Setup<T>, e: Ev, i: nat, stored: map<u64, u64>, hits: map<u64, u64>,
                             book: map<u64, Request>)
    requires InOrder(w.cache, i) && i < MAX64 && Honest(x) && OfBook(w.core, book)
    requires e.kind.PrefillDone? && e.kind.id in w.core.inFlight && Recent(w.cache, w.core.Now(), stored, hits)
    ensures var w' := StoreKv(w, x, e.kind.id);
            Recent(w'.cache, w.core.Now(), StoresAfter(w, e, w', stored, book), hits)
  {
    var id := e.kind.id;
    if w.core.inFlight[id].req.promptTokens > 0 {
      var (kvId, cache) := AllocKvId(w.cache);
      var j := JobOf(w, x, w.core.inFlight[id].req);
      var p := x.place(w.transfer, w.core.cluster, cache, j);
      AllocKeeps(w.cache, i);
      assert Coherent(cache) && j.kvId !in cache.objects;
      assert HasEffect(cache, j, p.out, p.cache);
      hide InOrder, HasEffect, Honest, AllocKvId, AddEvicted, Recent;
      PlaceRecent(w.cache, cache, j, p.out, p.cache, w.core.Now(), stored, hits);
    }
  }

  // ---- turns ----

  lemma ArrivalRecent<T>(w: World<T>, x: Setup<T>, e: Ev, i: nat, stored: map<u64, u64>, hits: map<u64, u64>,
                         book: map<u64, Request>)
    requires InOrder(w.cache, i) && OfBook(w.core, book) && Distinct(w.core.cluster)
    requires e.kind.RequestArrival? && e.kind.id in w.core.inFlight && Recent(w.cache, w.core.Now(), stored, hits)
    ensures var w' := OnArrival(w, x, e.kind.id);
            w'.core.Now() == w.core.Now() ==> Recent(w'.cache, w'.core.Now(), stored, HitsAfter(w, e, w', hits, book))
  {
    var id := e.kind.id;
    var found := Prefix(w.cache, w.core.inFlight[id].req);
    assert w.core.inFlight[id].req == book[id];
    assert Coherent(w.cache) && Numbered(w.cache);
    hide InOrder, Coherent, Numbered, OnArrival, Prefix, OfBook, Recent, Distinct;
    if OnGpu(found) {
      HitTouches(w, x, id);
      TouchRecent(w.cache, OnArrival(w, x, id).cache, found.value.kvId, w.core.Now(), stored, hits);
    } else {
      OthersDoNotTouch(w, x, id);
    }
  }

  lemma PrefillDoneRecent<T(!new)>(w: World<T>, x: Setup<T>, e: Ev, i: nat, stored: map<u64, u64>, hits: map<u64, u64>,
                                   book: map<u64, Request>)
    requires InOrder(w.cache, i) && i < MAX64 && Honest(x) && OfBook(w.core, book) && CanServe(w.core, e)
    requires e.kind.PrefillDone? && e.kind.id in w.core.inFlight && Recent(w.cache, w.core.Now(), stored, hits)
    ensures var w' := OnPrefillDone(w, x, e.kind.id, e.kind.gpu);
            w'.core.Now() == w.core.Now() ==> Recent(w'.cache, w'.core.Now(), StoresAfter(w, e, w', stored, book), hits)
  {
    var w1 := w.(core := Release(w.core, e.kind.gpu));
    assert w1.core.inFlight == w.core.inFlight && w1.core.Now() == w.core.Now();
    OfBookSame(w.core, w1.core, book);
    hide InOrder, Honest, StoreKv, Distinct, HasGpu, Release, DispatchDecode, AssignPrefill, AssignDecode, OfBook, Recent;
    StoreRecent(w1, x, e, i, stored, hits, book);
    StoreKvClock(w1, x, e.kind.id);
  }

  lemma StoreKvClock<T>(w: World<T>, x: Setup<T>, id: u64)
    ensures StoreKv(w, x, id).core == w.core
  {}

  /** What the pop of an event leaves: the same cache, a clock that does not go back. */
  lemma PoppedRecent<T>(w: World<T>, e: Ev, stored: map<u64, u64>, hits: map<u64, u64>)
    requires Recent(w.cache, w.core.Now(), stored, hits)
    ensures var p := PopWorld(w, e);
            && Recent(p.cache, p.core.Now(), stored, hits) && p.core.inFlight == w.core.inFlight
            && p.counters == w.counters && p.cache == w.cache
  {
    RecentLater(w.cache, w.core.Now(), PopWorld(w, e).core.Now(), stored, hits);
    hide Recent;
  }

  lemma SameAfter<T>(w: World<T>, p: World<T>, e: Ev, w': World<T>, stored: map<u64, u64>, hits: map<u64, u64>,
                     book: map<u64, Request>)
    requires p.cache == w.cache && p.counters == w.counters
    ensures StoresAfter(w, e, w', stored, book) == StoresAfter(p, e, w', stored, book)
    ensures HitsAfter(w, e, w', hits, book) == HitsAfter(p, e, w', hits, book)
    ensures !e.kind.PrefillDone? ==> StoresAfter(w, e, w', stored, book) == stored
    ensures !e.kind.RequestArrival? ==> HitsAfter(w, e, w', hits, book) == hits
  {
    hide Prefix;
  }

  /** The ends of fetches and decodes leave the cache alone. */
  lemma ServeKeepsCache<T>(w: World<T>, x: Setup<T>, e: Ev)
    requires CanServe(w.core, e) && e.kind.id in w.core.inFlight && (e.kind.FetchDone? || e.kind.DecodeDone?)
    ensures Serve(w, x, e).cache == w.cache
  {
    hide OnFetchDone, ED.OnDecodeDone, Credit, Proceeds, Distinct;
    if e.kind.FetchDone? { FetchDoneMoves(w, x, e.kind.id); }
  }

  lemma ServeRecent<T(!new)>(p: World<T>, x: Setup<T>, e: Ev, i: nat, stored: map<u64, u64>, hits: map<u64, u64>,
                             book: map<u64, Request>)
    requires InOrder(p.cache, i) && i < MAX64 && Honest(x) && OfBook(p.core, book) && CanServe(p.core, e)
    requires e.kind.id in p.core.inFlight && Recent(p.cache, p.core.Now(), stored, hits)
    requires Serve(p, x, e).core.Now() == p.core.Now()
    ensures var w' := Serve(p, x, e);
            Recent(w'.cache, w'.core.Now(), StoresAfter(p, e, w', stored, book), HitsAfter(p, e, w', hits, book))
  {
    hide InOrder, Honest, OfBook, Recent, OnArrival, OnPrefillDone, OnFetchDone, OnDecodeDone, StoresAfter, HitsAfter;
    SameAfter(p, p, e, Serve(p, x, e), stored, hits, book);
    if e.kind.RequestArrival? {
      ArrivalRecent(p, x, e, i, stored, hits, book);
    } else if e.kind.PrefillDone? {
      PrefillDoneRecent(p, x, e, i, stored, hits, book);
    } else {
      ServeKeepsCache(p, x, e);
    }
  }

  /** The loop invariant with the access times. */
  ghost predicate InRecency<T>(w: World<T>, i: nat, keys: set<(u64, u32)>, book: map<u64, Request>, total: int,
                               stored: map<u64, u64>, hits: map<u64, u64>) {
    InCache(w, i, keys, book, total) && Recent(w.cache, w.core.Now(), stored, hits)
  }

  lemma CacheParts<T>(w: World<T>, i: nat, keys: set<(u64, u32)>, book: map<u64, Request>, total: int)
    requires InCache(w, i, keys, book, total)
    ensures CL.Steady(w.core) && OfBook(w.core, book) && InOrder(w.cache, i) && i < MAX64
  {
    hide CL.Steady, InOrder;
    WithinParts(w.core, i, book, total);
  }

  /** A turn ends at the time of its event. */
  lemma TurnClock<T(!new)>(w: World<T>, x: Setup<T>, e: Ev, w': World<T>)
    requires CL.Steady(w.core) && Turn(w, x, e, w')
    ensures CanServe(Pop(w.core, e), e) && w' == Serve(PopWorld(w, e), x, e)
    ensures w'.core.Now() == Pop(w.core, e).Now() && e.kind.id in w.core.inFlight
  {
    hide CL.Steady, ED.Ready, Serve, Earliest;
    CL.PoppedReady(w.core, e);
    CT.ReadyInFlight(Pop(w.core, e), e);
    CT.ServeGrows(PopWorld(w, e), x, e);
  }

  lemma TurnRecent<T(!new)>(x: Setup<T>, i: nat, w: World<T>, e: Ev, w': World<T>, keys: set<(u64, u32)>,
                            book: map<u64, Request>, total: int, stored: map<u64, u64>, hits: map<u64, u64>)
    requires InRecency(w, i, keys, book, total, stored, hits) && Turns(x)(w, e, w') && Honest(x)
    ensures InRecency(w', i + 1, KeysAfter(w, e, w', keys, book), book, total, StoresAfter(w, e, w', stored, book),
                HitsAfter(w, e, w', hits, book))
  {
    assert Turn(w, x, e, w');
    hide InCache, Recent, Honest, KeysAfter, CL.Steady, OfBook, InOrder, Serve, Turns, StoresAfter, HitsAfter, Turn;
    TurnCached(x, i, w, e, w', keys, book, total);
    CacheParts(w, i, keys, book, total);
    TurnClock(w, x, e, w');
    var p := PopWorld(w, e);
    PoppedRecent(w, e, stored, hits);
    OfBookSame(w.core, p.core, book);
    ServeRecent(p, x, e, i, stored, hits, book);
    SameAfter(w, p, e, w', stored, hits, book);
  }

  lemma {:induction false} RunRecent<T(!new)>(x: Setup<T>, worlds: seq<World<T>>, events: seq<Ev>, n: nat,
                                              book: map<u64, Request>, total: int)
    requires IsTrace(Turns(x), worlds, events) && InRecency(worlds[0], 0, {}, book, total, map[], map[]) && Honest(x)
    requires n <= |events|
    ensures InRecency(worlds[n], n, StoredKeys(worlds, events, n, book), book, total,
                StoreTimes(worlds, events, n, book), HitTimes(worlds, events, n, book))
  {
    hide Turns, InRecency, Honest, IsTrace, StoresAfter, HitsAfter;
    if n > 0 {
      TraceStep(Turns(x), worlds, events, n - 1);
      RunRecent(x, worlds, events, n - 1, book, total);
      var keys := StoredKeys(worlds, events, n - 1, book);
      TurnRecent(x, n - 1, worlds[n-1], events[n-1], worlds[n], keys, book, total,
          StoreTimes(worlds, events, n - 1, book), HitTimes(worlds, events, n - 1, book));
      assert StoredKeys(worlds, events, n, book) == KeysAfter(worlds[n-1], events[n-1], worlds[n], keys, book);
    }
  }

  lemma ColdRecent(c: State, now: u64)
    requires Cold(c)
    ensures Recent(c, now, map[], map[])
  {}

  /** From an empty cache and with any honest policy, at every moment of every run each object's access time is the later
      of the time it was stored and the time it was last found on the GPU; neither lies ahead of the clock. */
  lemma AccessIsLastUse<T(!new)>(t: Topology, rs: seq<Request>, x: Setup<T>, cache: State, transfer: T,
                                 worlds: seq<World<T>>, events: seq<Ev>, n: nat, id: u64)
    requires ED.Servable(t, rs) && UniqueIds(rs) && Cold(cache) && 4 * |rs| < MAX64 && Honest(x)
    requires IsTrace(Turns(x), worlds, events) && worlds[0] == Begin(t, rs, cache, transfer) && n <= |events|
    requires id in worlds[n].cache.objects
    ensures var stored, hits := StoreTimes(worlds, events, n, Book(rs)), HitTimes(worlds, events, n, Book(rs));
            && id in stored && stored[id] <= worlds[n].core.Now()
            && (id !in hits ==> worlds[n].cache.objects[id].lastAccess == stored[id])
            && (id in hits ==> hits[id] <= worlds[n].core.Now()
                               && worlds[n].cache.objects[id].lastAccess == Max(stored[id], hits[id]))
  {
    hide Turns, InCache, Honest, Begin, Cold, ED.Servable, UniqueIds, Book, StoredKeys, StoreTimes, HitTimes;
    BeginCached(t, rs, cache, transfer);
    ColdRecent(cache, worlds[0].core.Now());
    assert worlds[0].cache == cache by { BeginCache(t, rs, cache, transfer); }
    RunRecent(x, worlds, events, n, Book(rs), 4 * |rs|);
  }

  lemma BeginCache<T>(t: Topology, rs: seq<Request>, cache: State, transfer: T)
    ensures Begin(t, rs, cache, transfer).cache == cache
  {}
}
