/** The cache-aware runner (src/serving/cache_runner.rs) as functions on its state: the serving machine together with
    the cache, the counters and the transfer model. Compute model, placement policy and transfer model are parameters.
    */
module CacheRunner {
  import opened Numbers
  import opened Simulation
  import opened Cluster
  import opened Requests
  import opened Tiers
  import opened Machine
  import opened Lifecycle
  import EventDriven
  import opened Transfer
  import Cache
  import opened Lru
  import opened Placement

  /** `CacheHitStats` and the byte and token counters. Counters that only count up are unbounded here. */
  datatype Counters = Counters(
    hitsGpu: nat, hitsCpu: nat, hitsRemote: nat, misses: nat, fetchErrors: nat, placementErrors: nat,
    pendingFetches: nat, evictedBytes: u64, recomputedTokens: nat, fetchedBytes: nat)
  {
    function Hits(): nat { hitsGpu + hitsCpu + hitsRemote }
  }

  function NoCounts(): Counters {
    Counters(0, 0, 0, 0, 0, 0, 0, 0, 0, 0)
  }

  /** What a placement policy returns: its verdict, the cache afterwards, the transfer model afterwards. */
  datatype PlaceResult<T> = PlaceResult(out: Outcome, cache: Cache.State, transfer: T)

  /** Compute model, KV size per prefix, placement policy, and transfer model with the finish time of an estimate. */
  datatype Setup<!T> = Setup(
    engine: Engine,
    kvBytes: u32 -> u64,
    place: (T, Topology, Cache.State, Job) -> PlaceResult<T>,
    estimate: (T, u64, Path, u64) -> (T, Option<u64>))

  datatype World<T> = World(core: Core, cache: Cache.State, counters: Counters, transfer: T)

  function PopWorld<T>(w: World<T>, e: Ev): World<T> {
    w.(core := Pop(w.core, e))
  }

  // ---- steps on the serving machine ----

  /** Set the prefill tokens and the pending fetch of a request in flight. */
  function Tag(c: Core, id: u64, tokens: u32, tier: Option<TierKind>): Core
    requires id in c.inFlight
  {
    c.(inFlight := c.inFlight[id := c.inFlight[id].(prefillTokens := tokens, fetchTier := tier)])
  }

  /** Prefill over the given number of tokens as soon as possible. */
  function PrefillTokens(c: Core, m: Engine, id: u64, tokens: u32): Core
    requires Distinct(c.cluster) && id in c.inFlight
  {
    DispatchPrefill(Tag(c, id, tokens, c.inFlight[id].fetchTier), m, id)
  }

  function AwaitFetch(c: Core, id: u64, finish: u64): Core {
    c.(sim := Scheduled(c.sim, finish, FetchDone(id)))
  }

  // ---- arrival ----

  /** How a stored object at this place is brought to the GPU, if it is not there and can be fetched. */
  function FetchPath(l: Location): Option<(Path, TierKind)> {
    match l
    case InCpu(_) => Some((LocalCpuToGpu, CpuTier))
    case InRemoteMemory(_) => Some((RemoteMemoryToGpu, RemoteMemoryTier))
    case InRemoteSsd(_) => Some((RemoteSsdToGpu, RemoteSsdTier))
    case _ => None
  }

  /** The stored prefix the request could reuse. */
  function FindPrefix(cache: Cache.State, r: Request): Option<Cache.KvObject> {
    if r.ReusedTokens() == 0 then None else cache.Lookup(r.session, r.ReusedTokens())
  }

  function CountMiss<T>(w: World<T>, tokens: u32): Counters {
    w.counters.(misses := w.counters.misses + 1, recomputedTokens := w.counters.recomputedTokens + tokens)
  }

  /** The request has to be prefilled in full. */
  function Miss<T>(w: World<T>, x: Setup<T>, id: u64): World<T>
    requires Distinct(w.core.cluster) && id in w.core.inFlight
  {
    var tokens := w.core.inFlight[id].req.promptTokens;
    w.(counters := CountMiss(w, tokens), core := PrefillTokens(w.core, x.engine, id, tokens))
  }

  /** `saturating_add` on a counter. */
  function CountUp(count: nat, more: nat): nat {
    if count + more <= MAX64 then count + more else Max(count, MAX64)
  }

  /** A fetch that cannot be made becomes a full prefill. */
  function Degrade<T>(w: World<T>, x: Setup<T>, id: u64): World<T>
    requires Distinct(w.core.cluster) && id in w.core.inFlight
  {
    var f := w.core.inFlight[id];
    var k := w.counters;
    var k' := k.(pendingFetches := if f.fetchTier.Some? && k.pendingFetches > 0 then k.pendingFetches - 1 else k.pendingFetches,
                 misses := k.misses + 1,
                 recomputedTokens := CountUp(k.recomputedTokens, f.req.promptTokens));
    w.(counters := k', core := DispatchPrefill(Tag(w.core, id, f.req.promptTokens, None), x.engine, id))
  }

  /** `degrade_to_miss`, of a request that may be gone. */
  function DegradeToMiss<T>(w: World<T>, x: Setup<T>, id: u64): World<T>
    requires Distinct(w.core.cluster)
  {
    if id in w.core.inFlight then Degrade(w, x, id) else w.(counters := w.counters.(misses := w.counters.misses + 1))
  }

  function CountFetchError<T>(w: World<T>): World<T> {
    w.(counters := w.counters.(fetchErrors := w.counters.fetchErrors + 1))
  }

  /** Fetching an object over a path. */
  function StartFetch<T>(w: World<T>, x: Setup<T>, id: u64, p: Path, bytes: u64): World<T>
    requires Distinct(w.core.cluster)
  {
    var (t, finish) := x.estimate(w.transfer, w.core.Now(), p, bytes);
    var w1 := w.(transfer := t);
    match finish
    case Some(done) =>
      w1.(counters := w1.counters.(fetchedBytes := w1.counters.fetchedBytes + bytes), core := AwaitFetch(w1.core, id, done))
    case None =>
      DegradeToMiss(CountFetchError(w1), x, id)
  }

  /** `handle_fetch`, also for an object that is somewhere it cannot be fetched from. */
  function HandleFetch<T>(w: World<T>, x: Setup<T>, id: u64, kv: Cache.KvObject): World<T>
    requires Distinct(w.core.cluster)
  {
    match FetchPath(kv.location)
    case Some(way) => StartFetch(w, x, id, way.0, kv.bytes)
    case None => DegradeToMiss(CountFetchError(w), x, id)
  }

  /** `start_or_queue_remaining_prefill`: prefill what the hit does not cover; with nothing left, go on to decode. */
  function PrefillRest<T>(w: World<T>, x: Setup<T>, id: u64): World<T>
    requires Distinct(w.core.cluster) && id in w.core.inFlight
  {
    var tokens := w.core.inFlight[id].req.newPromptTokens;
    if tokens == 0 then w.(core := DispatchDecode(w.core, x.engine, id))
    else
      w.(counters := w.counters.(recomputedTokens := w.counters.recomputedTokens + tokens),
         core := PrefillTokens(w.core, x.engine, id, tokens))
  }

  function HitOnGpu<T>(w: World<T>, x: Setup<T>, id: u64, kv: Cache.KvObject): World<T>
    requires Distinct(w.core.cluster) && id in w.core.inFlight
  {
    PrefillRest(w.(counters := w.counters.(hitsGpu := w.counters.hitsGpu + 1),
                  cache := Cache.UpdateAccess(w.cache, kv.kvId, w.core.Now())), x, id)
  }

  function HitElsewhere<T>(w: World<T>, x: Setup<T>, id: u64, kv: Cache.KvObject): World<T>
    requires Distinct(w.core.cluster) && id in w.core.inFlight && FetchPath(kv.location).Some?
  {
    var (p, tier) := FetchPath(kv.location).value;
    StartFetch(w.(counters := w.counters.(pendingFetches := w.counters.pendingFetches + 1),
                  core := Tag(w.core, id, w.core.inFlight[id].prefillTokens, Some(tier))), x, id, p, kv.bytes)
  }

  function OnArrival<T>(w: World<T>, x: Setup<T>, id: u64): World<T>
    requires Distinct(w.core.cluster)
  {
    if id !in w.core.inFlight then w
    else
      match FindPrefix(w.cache, w.core.inFlight[id].req)
      case None => Miss(w, x, id)
      case Some(kv) =>
        if kv.location.InGpu? then HitOnGpu(w, x, id, kv)
        else if FetchPath(kv.location).Some? then HitElsewhere(w, x, id, kv)
        else Miss(w, x, id)
  }

  // ---- the other events ----

  /** Store the KV just computed; a refusal is only counted. */
  function StoreKv<T>(w: World<T>, x: Setup<T>, id: u64): World<T> {
    if id !in w.core.inFlight || w.core.inFlight[id].req.promptTokens == 0 then w
    else
      var r := w.core.inFlight[id].req;
      var (kvId, cache) := Cache.AllocKvId(w.cache);
      var p := x.place(w.transfer, w.core.cluster, cache,
                       Job(kvId, r.session, r.promptTokens, x.kvBytes(r.promptTokens), w.core.Now()));
      w.(cache := p.cache, transfer := p.transfer,
         counters := match p.out
           case Placed(_, evicted) => w.counters.(evictedBytes := AddEvicted(w.counters.evictedBytes, evicted))
           case Refused => w.counters.(placementErrors := w.counters.placementErrors + 1))
  }

  /** Saturating sum, object by object. */
  function AddEvicted(total: u64, evicted: seq<EvictedKv>): u64 {
    if evicted == [] then total
    else SatAdd(AddEvicted(total, evicted[..|evicted|-1]), evicted[|evicted|-1].bytes)
  }

  function OnPrefillDone<T>(w: World<T>, x: Setup<T>, id: u64, g: GpuRef): World<T>
    requires Distinct(w.core.cluster) && HasGpu(w.core.cluster, g)
  {
    var w1 := StoreKv(w.(core := Release(w.core, g)), x, id);
    w1.(core := AssignDecode(AssignPrefill(DispatchDecode(w1.core, x.engine, id), x.engine), x.engine))
  }

  /** The hit of a completed fetch is credited to its tier, once. */
  function Credit<T>(w: World<T>, id: u64): World<T> {
    if id !in w.core.inFlight || w.core.inFlight[id].fetchTier.None? then w
    else
      var k := w.counters;
      var k1 := k.(pendingFetches := if k.pendingFetches > 0 then k.pendingFetches - 1 else 0);
      var k2 := match w.core.inFlight[id].fetchTier.value
        case CpuTier => k1.(hitsCpu := k1.hitsCpu + 1)
        case RemoteMemoryTier => k1.(hitsRemote := k1.hitsRemote + 1)
        case RemoteSsdTier => k1.(hitsRemote := k1.hitsRemote + 1)
        case _ => k1;
      w.(counters := k2, core := Tag(w.core, id, w.core.inFlight[id].prefillTokens, None))
  }

  function OnFetchDone<T>(w: World<T>, x: Setup<T>, id: u64): World<T>
    requires Distinct(w.core.cluster)
  {
    var w1 := Credit(w, id);
    var w2 := if id in w1.core.inFlight then PrefillRest(w1, x, id) else w1;
    w2.(core := AssignPrefill(AssignDecode(w2.core, x.engine), x.engine))
  }

  function OnDecodeDone<T>(w: World<T>, x: Setup<T>, id: u64, g: GpuRef): World<T>
    requires Distinct(w.core.cluster) && HasGpu(w.core.cluster, g)
  {
    w.(core := EventDriven.OnDecodeDone(w.core, x.engine, id, g))
  }

  // ---- turns of the event loop ----

  ghost predicate CanServe(c: Core, e: Ev) {
    Distinct(c.cluster) && (e.kind.Completes() ==> HasGpu(c.cluster, e.kind.gpu))
  }

  function Serve<T>(w: World<T>, x: Setup<T>, e: Ev): World<T>
    requires CanServe(w.core, e)
  {
    match e.kind
    case RequestArrival(id) => OnArrival(w, x, id)
    case PrefillDone(id, g) => OnPrefillDone(w, x, id, g)
    case FetchDone(id) => OnFetchDone(w, x, id)
    case DecodeDone(id, g) => OnDecodeDone(w, x, id, g)
  }

  ghost predicate Turn<T(!new)>(w: World<T>, x: Setup<T>, e: Ev, w': World<T>) {
    && Earliest(e, w.core.sim.pending) && e in w.core.sim.pending
    && CanServe(Pop(w.core, e), e)
    && w' == Serve(PopWorld(w, e), x, e)
  }

  ghost function Turns<T(!new)>(x: Setup<T>): (World<T>, Ev, World<T>) -> bool {
    (w, e, w') => Turn(w, x, e, w')
  }

  /** The state before the first event of a run: counters cleared, the cache kept from before. */
  function Begin<T>(t: Topology, rs: seq<Request>, cache: Cache.State, transfer: T): World<T> {
    World(Loaded(t, rs), cache, NoCounts(), transfer)
  }
}
