/** The shipped policies inside the cache-aware runner. */
module CachePolicies {
  import opened Numbers
  import opened Cluster
  import opened Requests
  import opened Tiers
  import opened Machine
  import opened Lifecycle
  import ED = EventDriven
  import opened Traces
  import opened Cache
  import opened Lru
  import opened Placement
  import opened NetworkAware
  import opened CacheRunner
  import opened CacheHits
  import Transfer

  /** Every call of the policy places as the network-aware policy may, with prices taken from the transfer model. */
  ghost predicate UsesNetworkAware<T(!new)>(x: Setup<T>, node: u32, prices: T -> Prices) {
    forall t: T, top: Topology, c: State, j: Job ::
      Tries(c, top, node, Ranking(prices(t), j), j, [], x.place(t, top, c, j).out, x.place(t, top, c, j).cache)
  }

  ghost predicate UsesCpuOffload<T(!new)>(x: Setup<T>, node: u32) {
    forall t: T, top: Topology, c: State, j: Job ::
      Offload(c, top, node, j, x.place(t, top, c, j).out, x.place(t, top, c, j).cache)
  }

  ghost predicate UsesLocalGpu<T(!new)>(x: Setup<T>, node: u32) {
    forall t: T, top: Topology, c: State, j: Job ::
      GpuThenCpu(c, top, node, j, x.place(t, top, c, j).out, x.place(t, top, c, j).cache)
  }

  ghost predicate UsesRemote<T(!new)>(x: Setup<T>, node: u32) {
    forall t: T, top: Topology, c: State, j: Job ::
      EvictAndInsert(c, (node, RemoteMemoryTier), InRemoteMemory(node), j, x.place(t, top, c, j).out, x.place(t, top,
          c, j).cache)
  }

  ghost predicate UsesSizeAware<T(!new)>(x: Setup<T>, p: SizeAware) {
    forall t: T, top: Topology, c: State, j: Job ::
      EvictAndInsert(c, (p.targetNode, p.Tier(j)), p.Target(j), j, x.place(t, top, c, j).out, x.place(t, top, c,
          j).cache)
  }

  /** The network-aware policy is honest and careful. */
  lemma NetworkAwareIsCareful<T(!new)>(x: Setup<T>, node: u32, prices: T -> Prices)
    requires UsesNetworkAware(x, node, prices)
    ensures Honest(x) && Careful(x)
  {
    hide Tries, HasEffect, Cache.Accounted, Ranking;
    forall t: T, top: Topology, c: State, j: Job | Coherent(c) && j.kvId !in c.objects
      ensures HasEffect(c, j, x.place(t, top, c, j).out, x.place(t, top, c, j).cache)
      ensures x.place(t, top, c, j).out.Refused? ==> x.place(t, top, c, j).cache == c
    {
      NetworkAwareEffect(prices(t), c, top, node, j, x.place(t, top, c, j).out, x.place(t, top, c, j).cache);
    }
  }

  /** The other four are honest; they are not careful, see `Placement.RefusedEmptiesTier`. */
  lemma OthersAreHonest<T(!new)>(x: Setup<T>, node: u32, p: SizeAware)
    requires UsesCpuOffload(x, node) || UsesLocalGpu(x, node) || UsesRemote(x, node) || UsesSizeAware(x, p)
    ensures Honest(x)
  {
    hide Offload, GpuThenCpu, EvictAndInsert, HasEffect, Coherent;
    forall t: T, top: Topology, c: State, j: Job | Coherent(c) && j.kvId !in c.objects
      ensures HasEffect(c, j, x.place(t, top, c, j).out, x.place(t, top, c, j).cache)
    {
      var r := x.place(t, top, c, j);
      if UsesCpuOffload(x, node) {
        OffloadEffect(c, top, node, j, r.out, r.cache);
      } else if UsesLocalGpu(x, node) {
        GpuThenCpuEffect(c, top, node, j, r.out, r.cache);
      } else if UsesRemote(x, node) {
        EvictAndInsertEffect(c, (node, RemoteMemoryTier), InRemoteMemory(node), j, r.out, r.cache);
      } else {
        EvictAndInsertEffect(c, (p.targetNode, p.Tier(j)), p.Target(j), j, r.out, r.cache);
      }
    }
  }

  /** The policy prices a tier by the very path over which the runner will fetch what is placed there: nothing for the
      GPU, and for any other tier the duration over the path from its location. */
  lemma PriceIsFetchPath(p: Prices, t: Topology, node: u32, tier: TierKind, bytes: u64)
    requires LocationFor(t, node, tier).Some?
    ensures var l := LocationFor(t, node, tier).value;
            if l.InGpu? then p.FetchCost(tier, bytes) == 0
            else FetchPath(l).Some? && FetchPath(l).value.1 == tier
                 && p.FetchCost(tier, bytes) == OrWorst(p.duration(FetchPath(l).value.0, bytes))
  {
    hide FirstGpu;
  }

  /** With prices from the queued model, a fetch of what was placed takes exactly the price from its start on, unless the
      clock runs out. */
  lemma PriceIsFetchTime(links: Transfer.Links, p: Prices, t: Topology, node: u32, tier: TierKind, bytes: u64, busy: u64,
                         now: u64)
    requires p.duration == ((path, n) => Transfer.EstimateDuration(links, path, n))
    requires LocationFor(t, node, tier).Some? && !LocationFor(t, node, tier).value.InGpu?
    ensures FetchPath(LocationFor(t, node, tier).value).Some?
    ensures var (path, _) := FetchPath(LocationFor(t, node, tier).value).value;
            var e := Transfer.Queued(links, busy, now, path, bytes).0;
            && (e.None? ==> p.FetchCost(tier, bytes) == I128_MAX)
            && (e.Some? ==> (e.value.Duration() == p.FetchCost(tier, bytes) <==>
                               e.value.start == 0
                               || e.value.start + e.value.baseLatency + e.value.serialization <= MAX64))
  {
    PriceIsFetchPath(p, t, node, tier, bytes);
    hide FirstGpu, LocationFor;
    hide Transfer.Serialization, Prices.FetchCost;
    var (path, _) := FetchPath(LocationFor(t, node, tier).value).value;
    if links.Of(path).bps > 0 { Transfer.DurationIsStateless(links, busy, now, path, bytes); }
  }

  /** With the network-aware policy, from an empty cache, bytes are conserved at every moment of every run. */
  lemma NetworkAwareConservesBytes<T(!new)>(t: Topology, rs: seq<Request>, x: Setup<T>, node: u32, prices: T -> Prices,
                                            cache: State, transfer: T, worlds: seq<World<T>>, events: seq<Ev>, n: nat)
    requires UsesNetworkAware(x, node, prices)
    requires ED.Servable(t, rs) && UniqueIds(rs) && Cold(cache) && 4 * |rs| < MAX64
    requires IsTrace(Turns(x), worlds, events) && worlds[0] == Begin(t, rs, cache, transfer) && n <= |events|
    ensures var placed, there := PlacedBytes(x, worlds, events, n, Book(rs)), TotalBytes(worlds[n].cache.objects);
            && there <= placed && worlds[n].counters.evictedBytes == Cap(placed - there)
            && (placed <= MAX64 ==> there + worlds[n].counters.evictedBytes == placed)
  {
    hide Turns, UsesNetworkAware, ED.Servable, UniqueIds, Cold, Begin, Honest, Careful, PlacedBytes, TotalBytes, Book;
    NetworkAwareIsCareful(x, node, prices);
    BytesConserved(t, rs, x, cache, transfer, worlds, events, n);
  }
}
