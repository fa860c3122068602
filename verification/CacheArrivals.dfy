/** Which arrivals are hits, fetches and misses: told by what the lookup finds and where it lies. */
module CacheArrivals {
  import opened Numbers
  import opened Simulation
  import opened Cluster
  import opened Requests
  import opened Tiers
  import opened Machine
  import opened Transfer
  import opened CacheRunner
  import opened CacheMoves
  import Cache

  /** The stored prefix of the request: the object of its session with exactly the tokens that are not new. */
  function Prefix(cache: Cache.State, r: Request): Option<Cache.KvObject> {
    if r.newPromptTokens < r.promptTokens then cache.Lookup(r.session, r.promptTokens - r.newPromptTokens) else None
  }

  predicate OnGpu(found: Option<Cache.KvObject>) {
    found.Some? && found.value.location.InGpu?
  }

  /** Found where it can be fetched over this path, and is then to be credited to this tier. */
  predicate Away(found: Option<Cache.KvObject>, path: Path, tier: TierKind) {
    && found.Some?
    && (|| (found.value.location.InCpu? && path == LocalCpuToGpu && tier == CpuTier)
        || (found.value.location.InRemoteMemory? && path == RemoteMemoryToGpu && tier == RemoteMemoryTier)
        || (found.value.location.InRemoteSsd? && path == RemoteSsdToGpu && tier == RemoteSsdTier))
  }

  /** Nothing found, or something that is neither on a GPU nor anywhere it can be fetched from. */
  predicate Unusable(found: Option<Cache.KvObject>) {
    found.None? || found.value.location.InLocalSsd? || found.value.location.Missing?
  }

  lemma PrefixFound(cache: Cache.State, r: Request)
    ensures FindPrefix(cache, r) == Prefix(cache, r)
  {}

  lemma SomewhereOrUnusable(found: Option<Cache.KvObject>)
    ensures OnGpu(found) || Unusable(found) || exists path, tier :: Away(found, path, tier)
  {
    if found.Some? {
      assert found.value.location.InCpu? ==> Away(found, LocalCpuToGpu, CpuTier);
      assert found.value.location.InRemoteMemory? ==> Away(found, RemoteMemoryToGpu, RemoteMemoryTier);
      assert found.value.location.InRemoteSsd? ==> Away(found, RemoteSsdToGpu, RemoteSsdTier);
    }
  }

  // ---- the moves, by their effects ----

  /** A hit on the GPU: counted, touched now, and only the new tokens go on to prefill. */
  ghost predicate Hit<T>(w: World<T>, x: Setup<T>, id: u64, kv: Cache.KvObject, w': World<T>) {
    && id in w.core.inFlight && w'.transfer == w.transfer
    && var f, k := w.core.inFlight[id], w.counters;
       && w'.counters == k.(hitsGpu := k.hitsGpu + 1, recomputedTokens := k.recomputedTokens + f.req.newPromptTokens)
       && w'.cache == Cache.UpdateAccess(w.cache, kv.kvId, w.core.Now())
       && Proceeds(x.engine, w.core, w'.core, id, RestOf(f), f.fetchTier)
  }

  /** A fetch under way: the request carries its tier, and the fetch ends when the transfer model said. */
  ghost predicate Fetched<T>(w: World<T>, id: u64, tier: TierKind, bytes: u64, transfer: T, finish: u64, w': World<T>) {
    && id in w.core.inFlight && w'.transfer == transfer && w'.cache == w.cache
    && var f, k := w.core.inFlight[id], w.counters;
       && w'.counters == k.(pendingFetches := k.pendingFetches + 1, fetchedBytes := k.fetchedBytes + bytes)
       && w'.core == w.core.(sim := Scheduled(w.core.sim, finish, FetchDone(id)),
                             inFlight := w.core.inFlight[id := f.(fetchTier := Some(tier))])
  }

  lemma FetchedAwaits<T>(w: World<T>, id: u64, tier: TierKind, bytes: u64, transfer: T, finish: u64, w': World<T>)
    requires Fetched(w, id, tier, bytes, transfer, finish, w')
    ensures w'.core == AwaitFetch(Tag(w.core, id, w.core.inFlight[id].prefillTokens, Some(tier)), id, finish)
  {}

  /** A fetch without an estimate: an error, a miss, and the whole prompt goes to prefill. */
  ghost predicate Failed<T>(w: World<T>, x: Setup<T>, id: u64, transfer: T, w': World<T>) {
    w'.transfer == transfer && FetchFailed(w, x, id, w')
  }

  /** A miss: the whole prompt goes to prefill. */
  ghost predicate FullPrefill<T>(w: World<T>, x: Setup<T>, id: u64, w': World<T>) {
    w'.transfer == w.transfer && Missed(w, x, id, w')
  }

  lemma HitHappens<T>(w: World<T>, x: Setup<T>, id: u64, kv: Cache.KvObject)
    requires Distinct(w.core.cluster) && id in w.core.inFlight
    ensures Hit(w, x, id, kv, HitOnGpu(w, x, id, kv))
  {
    var w1 := w.(counters := w.counters.(hitsGpu := w.counters.hitsGpu + 1),
                 cache := Cache.UpdateAccess(w.cache, kv.kvId, w.core.Now()));
    hide PrefillRest, Proceeds, Cache.UpdateAccess, Distinct;
    PrefillRestMoves(w1, x, id);
    assert w1.core == w.core;
  }

  lemma FetchHappens<T>(w: World<T>, x: Setup<T>, id: u64, kv: Cache.KvObject, path: Path, tier: TierKind)
    requires Distinct(w.core.cluster) && id in w.core.inFlight && FetchPath(kv.location) == Some((path, tier))
    ensures var (transfer, finish) := x.estimate(w.transfer, w.core.Now(), path, kv.bytes);
            var w' := HitElsewhere(w, x, id, kv);
            if finish.Some? then Fetched(w, id, tier, kv.bytes, transfer, finish.value, w')
            else Failed(w, x, id, transfer, w')
  {
    var f := w.core.inFlight[id];
    var c1 := Tag(w.core, id, f.prefillTokens, Some(tier));
    var finish := x.estimate(w.transfer, w.core.Now(), path, kv.bytes).1;
    hide DispatchPrefill, Calm, Distinct;
    if finish.None? {
      assert Tag(c1, id, f.req.promptTokens, None) == Tag(w.core, id, f.req.promptTokens, None);
      DispatchPrefillCalm(Tag(w.core, id, f.req.promptTokens, None), x.engine, id);
    }
  }

  lemma MissHappens<T>(w: World<T>, x: Setup<T>, id: u64)
    requires Distinct(w.core.cluster) && id in w.core.inFlight
    ensures FullPrefill(w, x, id, Miss(w, x, id))
  {
    hide Missed, PrefillTokens;
    MissMoves(w, x, id);
  }

  // ---- when each of them happens ----

  /** A prefix on a GPU, and nothing else, is a hit at once. */
  lemma HitIffOnGpu<T>(w: World<T>, x: Setup<T>, id: u64)
    requires Distinct(w.core.cluster) && id in w.core.inFlight
    ensures var w', found := OnArrival(w, x, id), Prefix(w.cache, w.core.inFlight[id].req);
            && (OnGpu(found) <==> w'.counters.hitsGpu == w.counters.hitsGpu + 1)
            && (OnGpu(found) ==> Hit(w, x, id, found.value, w'))
  {
    ArrivalSplits(w, x, id);
    hide OnArrival, Prefix, Proceeds, Cache.UpdateAccess, Distinct;
  }

  /** What happens on arrival, case by case of what is found. */
  lemma ArrivalSplits<T>(w: World<T>, x: Setup<T>, id: u64)
    requires Distinct(w.core.cluster) && id in w.core.inFlight
    ensures var w', found := OnArrival(w, x, id), Prefix(w.cache, w.core.inFlight[id].req);
            && (OnGpu(found) ==> Hit(w, x, id, found.value, w'))
            && (forall path, tier | Away(found, path, tier) :: FetchedOrFailed(w, x, id, found.value, path, tier, w'))
            && (Unusable(found) ==> FullPrefill(w, x, id, w'))
  {
    hide Hit, Fetched, Failed, FullPrefill, Miss, HitElsewhere, HitOnGpu, Prefix, FindPrefix, Distinct;
    var found := Prefix(w.cache, w.core.inFlight[id].req);
    PrefixFound(w.cache, w.core.inFlight[id].req);
    if OnGpu(found) { HitHappens(w, x, id, found.value); }
    if Unusable(found) { MissHappens(w, x, id); }
    forall path, tier | Away(found, path, tier)
      ensures FetchedOrFailed(w, x, id, found.value, path, tier, OnArrival(w, x, id))
    {
      FetchHappens(w, x, id, found.value, path, tier);
    }
  }

  ghost predicate FetchedOrFailed<T>(w: World<T>, x: Setup<T>, id: u64, kv: Cache.KvObject, path: Path, tier: TierKind,
                                     w': World<T>) {
    var (transfer, finish) := x.estimate(w.transfer, w.core.Now(), path, kv.bytes);
    if finish.Some? then Fetched(w, id, tier, kv.bytes, transfer, finish.value, w') else Failed(w, x, id, transfer, w')
  }

  /** A prefix on the CPU, in remote memory or on remote SSD, with an estimate over the path from there, and nothing
      else, starts a fetch; the fetch ends at the estimate. */
  lemma FetchIffAway<T>(w: World<T>, x: Setup<T>, id: u64)
    requires Distinct(w.core.cluster) && id in w.core.inFlight
    ensures var w', found := OnArrival(w, x, id), Prefix(w.cache, w.core.inFlight[id].req);
            && (w'.counters.pendingFetches == w.counters.pendingFetches + 1 <==>
                  exists path, tier :: Away(found, path, tier)
                    && x.estimate(w.transfer, w.core.Now(), path, found.value.bytes).1.Some?)
            && (forall path, tier | Away(found, path, tier)
                                    && x.estimate(w.transfer, w.core.Now(), path, found.value.bytes).1.Some? ::
                  var (transfer, finish) := x.estimate(w.transfer, w.core.Now(), path, found.value.bytes);
                  Fetched(w, id, tier, found.value.bytes, transfer, finish.value, w'))
  {
    SomewhereOrUnusable(Prefix(w.cache, w.core.inFlight[id].req));
    ArrivalSplits(w, x, id);
    hide OnArrival, Prefix, Proceeds, Cache.UpdateAccess, Distinct, Away, AwaitFetch, Tag;
  }

  /** A prefix in one of those places without an estimate, and nothing else, is a failed fetch. */
  lemma FailureIffNoEstimate<T>(w: World<T>, x: Setup<T>, id: u64)
    requires Distinct(w.core.cluster) && id in w.core.inFlight
    ensures var w', found := OnArrival(w, x, id), Prefix(w.cache, w.core.inFlight[id].req);
            && (w'.counters.fetchErrors == w.counters.fetchErrors + 1 <==>
                  exists path, tier :: Away(found, path, tier)
                    && x.estimate(w.transfer, w.core.Now(), path, found.value.bytes).1.None?)
            && (forall path, tier | Away(found, path, tier)
                                    && x.estimate(w.transfer, w.core.Now(), path, found.value.bytes).1.None? ::
                  Failed(w, x, id, x.estimate(w.transfer, w.core.Now(), path, found.value.bytes).0, w'))
  {
    SomewhereOrUnusable(Prefix(w.cache, w.core.inFlight[id].req));
    ArrivalSplits(w, x, id);
    hide OnArrival, Prefix, Proceeds, Cache.UpdateAccess, Distinct, Away, AwaitFetch, Tag;
  }

  /** Nothing found, or something on local SSD or nowhere, and nothing else, is a plain miss. */
  lemma MissIffUnusable<T>(w: World<T>, x: Setup<T>, id: u64)
    requires Distinct(w.core.cluster) && id in w.core.inFlight
    ensures var w', found := OnArrival(w, x, id), Prefix(w.cache, w.core.inFlight[id].req);
            && (Unusable(found) <==>
                  w'.counters.misses == w.counters.misses + 1 && w'.counters.fetchErrors == w.counters.fetchErrors)
            && (Unusable(found) ==> FullPrefill(w, x, id, w'))
  {
    SomewhereOrUnusable(Prefix(w.cache, w.core.inFlight[id].req));
    ArrivalSplits(w, x, id);
    hide OnArrival, Prefix, Proceeds, Cache.UpdateAccess, Distinct, Away, AwaitFetch, Tag;
  }
}
