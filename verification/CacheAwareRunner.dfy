/** `CacheAwareRunner` as an object (src/serving/cache_runner.rs): its handlers and its event loop, which ends on
    every trace, with every policy and every transfer model. */
module CacheAwareRunner {
  import opened Numbers
  import opened Simulation
  import opened Cluster
  import opened Requests
  import opened Tiers
  import opened Machine
  import opened Lifecycle
  import ED = EventDriven
  import opened Traces
  import opened ServingState
  import opened Transfer
  import Cache
  import opened Lru
  import opened Placement
  import opened CacheRunner
  import CL = CacheLifecycle

  // ---- the loop ends, and never meets a GPU that is not there ----

  /** New events only complete on existing GPUs. */
  ghost predicate AddsServable(a: Core, b: Core) {
    && SameShape(a.cluster, b.cluster)
    && forall e | e in b.sim.pending && e !in a.sim.pending && e.kind.Completes() :: HasGpu(a.cluster, e.kind.gpu)
  }

  lemma CompletionsAreServable(a: Core, b: Core)
    requires ED.AddsCompletions(a, b)
    ensures AddsServable(a, b)
  {}

  lemma ServableTransitive(a: Core, b: Core, c: Core)
    requires AddsServable(a, b) && AddsServable(b, c)
    ensures AddsServable(a, c)
  {}

  /** What a step may add: servable events, within an allowance. */
  ghost predicate Bounded(a: Core, b: Core, allowance: nat) {
    AddsServable(a, b) && Remaining(b, 4) <= Remaining(a, 4) + allowance
  }

  lemma BoundedTransitive(a: Core, b: Core, c: Core, m: nat, n: nat)
    requires Bounded(a, b, m) && Bounded(b, c, n)
    ensures Bounded(a, c, m + n)
  {
    hide AddsServable, Remaining;
    ServableTransitive(a, b, c);
  }

  lemma BoundedMore(a: Core, b: Core, m: nat, n: nat)
    requires Bounded(a, b, m) && m <= n
    ensures Bounded(a, b, n)
  {}

  lemma TagBounded(c: Core, id: u64, tokens: u32, tier: Option<TierKind>)
    requires Distinct(c.cluster) && id in c.inFlight
    ensures Bounded(c, Tag(c, id, tokens, tier), 0)
  {}

  lemma DispatchBounded(c: Core, m: Engine, id: u64)
    requires Distinct(c.cluster)
    ensures Bounded(c, DispatchPrefill(c, m, id), 2) && Bounded(c, DispatchDecode(c, m, id), 1)
  {
    ED.DispatchAdds(c, m, id);
    ED.DispatchPrefillShrinks(c, m, id, 4);
    ED.DispatchDecodeShrinks(c, m, id, 4);
    hide ED.AddsCompletions, DispatchPrefill, DispatchDecode, AddsServable, Remaining;
    CompletionsAreServable(c, DispatchPrefill(c, m, id));
    CompletionsAreServable(c, DispatchDecode(c, m, id));
  }

  lemma AssignBounded(c: Core, m: Engine)
    requires Distinct(c.cluster)
    ensures Bounded(c, AssignPrefill(c, m), 0) && Bounded(c, AssignDecode(c, m), 0)
  {
    ED.AssignPrefillAdds(c, m);
    ED.AssignDecodeAdds(c, m);
    ED.AssignPrefillShrinks(c, m, 4);
    ED.AssignDecodeShrinks(c, m, 4);
    hide ED.AddsCompletions, AssignPrefill, AssignDecode, AddsServable, Remaining;
    CompletionsAreServable(c, AssignPrefill(c, m));
    CompletionsAreServable(c, AssignDecode(c, m));
  }

  lemma TaggedPrefillBounded(c: Core, m: Engine, id: u64, tokens: u32, tier: Option<TierKind>)
    requires Distinct(c.cluster) && id in c.inFlight
    ensures Bounded(c, DispatchPrefill(Tag(c, id, tokens, tier), m, id), 2)
    ensures Bounded(c, DispatchPrefill(Tag(c, id, tokens, tier), m, id), 3)
  {
    TagBounded(c, id, tokens, tier);
    DispatchBounded(Tag(c, id, tokens, tier), m, id);
    hide Bounded, DispatchPrefill, Tag;
    BoundedTransitive(c, Tag(c, id, tokens, tier), DispatchPrefill(Tag(c, id, tokens, tier), m, id), 0, 2);
    BoundedMore(c, DispatchPrefill(Tag(c, id, tokens, tier), m, id), 2, 3);
  }

  lemma PrefillRestBounded<T>(w: World<T>, x: Setup<T>, id: u64)
    requires Distinct(w.core.cluster) && id in w.core.inFlight
    ensures Bounded(w.core, PrefillRest(w, x, id).core, 2)
  {
    hide Bounded, DispatchPrefill, DispatchDecode, Tag, Distinct;
    DispatchBounded(w.core, x.engine, id);
    BoundedMore(w.core, DispatchDecode(w.core, x.engine, id), 1, 2);
    TaggedPrefillBounded(w.core, x.engine, id, w.core.inFlight[id].req.newPromptTokens, w.core.inFlight[id].fetchTier);
  }

  lemma AwaitFetchBounded(c: Core, id: u64, finish: u64)
    requires Distinct(c.cluster)
    ensures Bounded(c, AwaitFetch(c, id, finish), 3)
  {
    ED.AddingWeight(c.sim.pending, Event(finish, c.sim.nextSeq, FetchDone(id)), 4);
  }

  lemma StartFetchBounded<T>(w: World<T>, x: Setup<T>, id: u64, p: Path, bytes: u64)
    requires Distinct(w.core.cluster) && id in w.core.inFlight
    ensures Bounded(w.core, StartFetch(w, x, id, p, bytes).core, 3)
  {
    hide Bounded, DispatchPrefill, Tag, AwaitFetch, Distinct;
    var (t, finish) := x.estimate(w.transfer, w.core.Now(), p, bytes);
    if finish.Some? {
      AwaitFetchBounded(w.core, id, finish.value);
    } else {
      TaggedPrefillBounded(w.core, x.engine, id, w.core.inFlight[id].req.promptTokens, None);
    }
  }

  lemma HitElsewhereBounded<T>(w: World<T>, x: Setup<T>, id: u64, kv: Cache.KvObject)
    requires Distinct(w.core.cluster) && id in w.core.inFlight && FetchPath(kv.location).Some?
    ensures Bounded(w.core, HitElsewhere(w, x, id, kv).core, 3)
  {
    var (p, tier) := FetchPath(kv.location).value;
    var w1 := w.(counters := w.counters.(pendingFetches := w.counters.pendingFetches + 1),
                 core := Tag(w.core, id, w.core.inFlight[id].prefillTokens, Some(tier)));
    TagBounded(w.core, id, w.core.inFlight[id].prefillTokens, Some(tier));
    assert id in w1.core.inFlight && Distinct(w1.core.cluster);
    hide Bounded, StartFetch, Tag, Distinct;
    StartFetchBounded(w1, x, id, p, kv.bytes);
    BoundedTransitive(w.core, w1.core, HitElsewhere(w, x, id, kv).core, 0, 3);
  }

  lemma ArrivalBounded<T>(w: World<T>, x: Setup<T>, id: u64)
    requires Distinct(w.core.cluster)
    ensures Bounded(w.core, OnArrival(w, x, id).core, 3)
  {
    hide Bounded, DispatchPrefill, Tag, HitElsewhere, PrefillRest;
    if id in w.core.inFlight {
      var f := w.core.inFlight[id];
      TaggedPrefillBounded(w.core, x.engine, id, f.req.promptTokens, f.fetchTier);
      match FindPrefix(w.cache, f.req)
      case None =>
      case Some(kv) =>
        if kv.location.InGpu? {
          var w1 := w.(counters := w.counters.(hitsGpu := w.counters.hitsGpu + 1),
                       cache := Cache.UpdateAccess(w.cache, kv.kvId, w.core.Now()));
          PrefillRestBounded(w1, x, id);
          BoundedMore(w.core, PrefillRest(w1, x, id).core, 2, 3);
        } else if FetchPath(kv.location).Some? {
          HitElsewhereBounded(w, x, id, kv);
        }
    } else {
      BoundedSelf(w.core, 3);
    }
  }

  lemma BoundedSelf(c: Core, n: nat)
    requires Distinct(c.cluster)
    ensures Bounded(c, c, n)
  {}

  lemma ReleaseBounded(c: Core, g: GpuRef)
    requires Distinct(c.cluster) && HasGpu(c.cluster, g)
    ensures Bounded(c, Release(c, g), 0) && Distinct(Release(c, g).cluster)
  {}

  lemma DrainBounded(c: Core, m: Engine)
    requires Distinct(c.cluster)
    ensures Bounded(c, AssignDecode(AssignPrefill(c, m), m), 0) && Bounded(c, AssignPrefill(AssignDecode(c, m), m), 0)
  {
    hide Bounded, Distinct, AssignPrefill, AssignDecode;
    AssignBounded(c, m);
    AssignBounded(AssignPrefill(c, m), m);
    AssignBounded(AssignDecode(c, m), m);
    BoundedTransitive(c, AssignPrefill(c, m), AssignDecode(AssignPrefill(c, m), m), 0, 0);
    BoundedTransitive(c, AssignDecode(c, m), AssignPrefill(AssignDecode(c, m), m), 0, 0);
  }

  lemma PrefillDoneBounded(c: Core, m: Engine, id: u64, g: GpuRef)
    requires Distinct(c.cluster) && HasGpu(c.cluster, g)
    ensures Bounded(c, ED.OnPrefillDone(c, m, id, g), 1)
  {
    hide Bounded, Distinct, HasGpu, Release, DispatchDecode, AssignPrefill, AssignDecode;
    var c1 := Release(c, g);
    ReleaseBounded(c, g);
    var c2 := DispatchDecode(c1, m, id);
    DispatchBounded(c1, m, id);
    BoundedTransitive(c, c1, c2, 0, 1);
    DrainBounded(c2, m);
    BoundedTransitive(c, c2, ED.OnPrefillDone(c, m, id, g), 1, 0);
  }

  lemma DecodeDoneBounded(c: Core, m: Engine, id: u64, g: GpuRef)
    requires Distinct(c.cluster) && HasGpu(c.cluster, g)
    ensures Bounded(c, ED.OnDecodeDone(c, m, id, g), 0)
  {
    var c1 := Finish(Release(c, g), id);
    ReleaseBounded(c, g);
    assert Bounded(c, c1, 0) && Distinct(c1.cluster);
    hide Bounded, Distinct, HasGpu, Release, Finish, AssignPrefill, AssignDecode;
    DrainBounded(c1, m);
    BoundedTransitive(c, c1, ED.OnDecodeDone(c, m, id, g), 0, 0);
  }

  lemma CreditBounded<T>(w: World<T>, id: u64)
    requires Distinct(w.core.cluster)
    ensures Bounded(w.core, Credit(w, id).core, 0) && Credit(w, id).core.cluster == w.core.cluster
  {}

  lemma FetchDoneBounded<T>(w: World<T>, x: Setup<T>, id: u64)
    requires Distinct(w.core.cluster)
    ensures Bounded(w.core, OnFetchDone(w, x, id).core, 2)
  {
    var w1 := Credit(w, id);
    CreditBounded(w, id);
    hide Bounded, Credit, AssignPrefill, AssignDecode, PrefillRest;
    var w2 := if id in w1.core.inFlight then PrefillRest(w1, x, id) else w1;
    if id in w1.core.inFlight { PrefillRestBounded(w1, x, id); } else { BoundedSelf(w1.core, 2); }
    BoundedTransitive(w.core, w1.core, w2.core, 0, 2);
    BoundedShape(w1.core, w2.core, 2);
    DrainBounded(w2.core, x.engine);
    BoundedTransitive(w.core, w2.core, OnFetchDone(w, x, id).core, 2, 0);
  }

  lemma BoundedShape(a: Core, b: Core, n: nat)
    requires Bounded(a, b, n)
    ensures Distinct(b.cluster)
  {}

  lemma ServeBounded<T>(w: World<T>, x: Setup<T>, e: Ev)
    requires CanServe(w.core, e)
    ensures Bounded(w.core, Serve(w, x, e).core, Weight(e.kind, 4) - 1)
  {
    hide Bounded, OnArrival, OnPrefillDone, OnFetchDone, ED.OnPrefillDone, ED.OnDecodeDone, Distinct, HasGpu;
    match e.kind {
      case RequestArrival(id) => ArrivalBounded(w, x, id);
      case PrefillDone(id, g) =>
        CL.PrefillDoneCore(w, x, id, g);
        PrefillDoneBounded(w.core, x.engine, id, g);
      case FetchDone(id) => FetchDoneBounded(w, x, id);
      case DecodeDone(id, g) => DecodeDoneBounded(w.core, x.engine, id, g);
    }
  }

  /** Every pending event can be handled. */
  ghost predicate Addressable(c: Core) {
    Distinct(c.cluster) && forall e | e in c.sim.pending :: CanServe(c, e)
  }

  /** A turn uses up allowance whatever the policy and the transfer model do, so no trace makes the loop run on. */
  lemma TurnShrinks<T>(w: World<T>, x: Setup<T>, e: Ev)
    requires Addressable(w.core) && e in w.core.sim.pending
    ensures CanServe(Pop(w.core, e), e)
    ensures Remaining(Serve(PopWorld(w, e), x, e).core, 4) < Remaining(w.core, 4)
    ensures Addressable(Serve(PopWorld(w, e), x, e).core)
  {
    assert CanServe(w.core, e);
    WeightOf(w.core.sim.pending, e, 4);
    assert Remaining(w.core, 4) == Remaining(Pop(w.core, e), 4) + Weight(e.kind, 4);
    ServeBounded(PopWorld(w, e), x, e);
    hide Serve, Remaining;
  }

  // ---- the object ----

  class Runner<T(!new)> {
    const setup: Setup<T>
    const serving: Serving
    var cache: Cache.State
    var counters: Counters
    var transfer: T

    ghost function State(): World<T>
      reads this, serving, serving.sim, serving.sim.queue
    {
      World(serving.State(), cache, counters, transfer)
    }

    ghost predicate Valid()
      reads this, serving
    {
      serving.engine == setup.engine && Distinct(serving.cluster)
    }

    constructor (cluster: Topology, cache: Cache.State, setup: Setup<T>, transfer: T)
      requires Distinct(cluster)
      ensures Valid() && State() == Begin(cluster, [], cache, transfer) && this.setup == setup
      ensures fresh(serving) && fresh(serving.sim) && fresh(serving.sim.queue)
    {
      this.setup, this.cache, this.transfer, counters := setup, cache, transfer, NoCounts();
      serving := new Serving(cluster, setup.engine);
    }

    method SetTag(id: u64, tokens: u32, tier: Option<TierKind>)
      requires id in serving.inFlight
      modifies serving`inFlight
      ensures serving.State() == Tag(old(serving.State()), id, tokens, tier)
    {
      serving.inFlight := serving.inFlight[id := serving.inFlight[id].(prefillTokens := tokens, fetchTier := tier)];
    }

    method CountMissed(id: u64)
      requires Valid() && id in serving.inFlight
      modifies this, serving, serving.sim.queue
      ensures Valid() && serving.sim == old(serving.sim)
      ensures State() == Miss(old(State()), setup, id)
    {
      var tokens := serving.inFlight[id].req.promptTokens;
      counters := counters.(misses := counters.misses + 1, recomputedTokens := counters.recomputedTokens + tokens);
      SetTag(id, tokens, serving.inFlight[id].fetchTier);
      serving.DispatchPrefill(id);
    }

    method DegradeToMiss(id: u64)
      requires Valid()
      modifies this, serving, serving.sim.queue
      ensures Valid() && serving.sim == old(serving.sim)
      ensures State() == CacheRunner.DegradeToMiss(old(State()), setup, id)
    {
      if id !in serving.inFlight {
        counters := counters.(misses := counters.misses + 1);
        return;
      }
      var f := serving.inFlight[id];
      if f.fetchTier.Some? && counters.pendingFetches > 0 {
        counters := counters.(pendingFetches := counters.pendingFetches - 1);
      }
      counters := counters.(misses := counters.misses + 1,
                            recomputedTokens := CountUp(counters.recomputedTokens, f.req.promptTokens));
      SetTag(id, f.req.promptTokens, None);
      serving.DispatchPrefill(id);
    }

    method HandleFetch(id: u64, kv: Cache.KvObject)
      requires Valid()
      modifies this, serving, serving.sim.queue
      ensures Valid() && serving.sim == old(serving.sim)
      ensures State() == CacheRunner.HandleFetch(old(State()), setup, id, kv)
    {
      hide Degrade, DispatchPrefill, Distinct;
      var way := FetchPath(kv.location);
      if way.None? {
        counters := counters.(fetchErrors := counters.fetchErrors + 1);
        DegradeToMiss(id);
        return;
      }
      var (t, finish) := setup.estimate(transfer, serving.sim.now, way.value.0, kv.bytes);
      transfer := t;
      if finish.Some? {
        counters := counters.(fetchedBytes := counters.fetchedBytes + kv.bytes);
        serving.sim.Schedule(finish.value, FetchDone(id));
      } else {
        counters := counters.(fetchErrors := counters.fetchErrors + 1);
        DegradeToMiss(id);
      }
    }

    method StartOrQueueRemainingPrefill(id: u64)
      requires Valid() && id in serving.inFlight
      modifies this, serving, serving.sim.queue
      ensures Valid() && serving.sim == old(serving.sim)
      ensures State() == PrefillRest(old(State()), setup, id)
    {
      var tokens := serving.inFlight[id].req.newPromptTokens;
      if tokens == 0 {
        serving.DispatchDecode(id);
      } else {
        counters := counters.(recomputedTokens := counters.recomputedTokens + tokens);
        SetTag(id, tokens, serving.inFlight[id].fetchTier);
        serving.DispatchPrefill(id);
      }
    }

    method OnArrival(id: u64)
      requires Valid()
      modifies this, serving, serving.sim.queue
      ensures Valid() && serving.sim == old(serving.sim)
      ensures State() == CacheRunner.OnArrival(old(State()), setup, id)
    {
      if id !in serving.inFlight { return; }
      var kv := FindPrefix(cache, serving.inFlight[id].req);
      if kv.Some? && kv.value.location.InGpu? {
        counters := counters.(hitsGpu := counters.hitsGpu + 1);
        cache := Cache.UpdateAccess(cache, kv.value.kvId, serving.sim.now);
        StartOrQueueRemainingPrefill(id);
      } else if kv.Some? && FetchPath(kv.value.location).Some? {
        var (p, tier) := FetchPath(kv.value.location).value;
        counters := counters.(pendingFetches := counters.pendingFetches + 1);
        SetTag(id, serving.inFlight[id].prefillTokens, Some(tier));
        HandleFetch(id, kv.value);
      } else {
        CountMissed(id);
      }
    }

    method AddAllEvicted(evicted: seq<EvictedKv>)
      modifies this`counters
      ensures counters == old(counters).(evictedBytes := AddEvicted(old(counters).evictedBytes, evicted))
    {
      for i := 0 to |evicted|
        invariant counters == old(counters).(evictedBytes := AddEvicted(old(counters).evictedBytes, evicted[..i]))
      {
        assert evicted[..i+1][..i] == evicted[..i];
        counters := counters.(evictedBytes := SatAdd(counters.evictedBytes, evicted[i].bytes));
      }
      assert evicted[..|evicted|] == evicted;
    }

    /** Store the KV of a request whose prefill has just ended. */
    method Store(id: u64)
      requires Valid()
      modifies this
      ensures Valid() && State() == StoreKv(old(State()), setup, id)
    {
      if id in serving.inFlight && serving.inFlight[id].req.promptTokens > 0 {
        var r := serving.inFlight[id].req;
        var (kvId, numbered) := Cache.AllocKvId(cache);
        var p := setup.place(transfer, serving.cluster, numbered,
          Job(kvId, r.session, r.promptTokens, setup.kvBytes(r.promptTokens), serving.sim.now));
        cache, transfer := p.cache, p.transfer;
        match p.out
        case Placed(_, evicted) => AddAllEvicted(evicted);
        case Refused => counters := counters.(placementErrors := counters.placementErrors + 1);
      }
    }

    method OnPrefillDone(id: u64, g: GpuRef)
      requires Valid() && HasGpu(serving.cluster, g)
      modifies this, serving, serving.sim.queue
      ensures Valid() && serving.sim == old(serving.sim)
      ensures State() == CacheRunner.OnPrefillDone(old(State()), setup, id, g)
    {
      hide AssignPrefill, AssignDecode, DispatchDecode, Release, StoreKv, Distinct, HasGpu;
      serving.ReleaseGpu(g);
      Store(id);
      serving.DispatchDecode(id);
      serving.TryAssignPrefill();
      serving.TryAssignDecode();
    }

    method CreditFetch(id: u64)
      requires Valid()
      modifies this, serving`inFlight
      ensures Valid() && State() == Credit(old(State()), id)
    {
      if id in serving.inFlight && serving.inFlight[id].fetchTier.Some? {
        var tier := serving.inFlight[id].fetchTier.value;
        SetTag(id, serving.inFlight[id].prefillTokens, None);
        if counters.pendingFetches > 0 {
          counters := counters.(pendingFetches := counters.pendingFetches - 1);
        }
        match tier
        case CpuTier => counters := counters.(hitsCpu := counters.hitsCpu + 1);
        case RemoteMemoryTier => counters := counters.(hitsRemote := counters.hitsRemote + 1);
        case RemoteSsdTier => counters := counters.(hitsRemote := counters.hitsRemote + 1);
        case _ =>
      }
    }

    method OnFetchDone(id: u64)
      requires Valid()
      modifies this, serving, serving.sim.queue
      ensures Valid() && serving.sim == old(serving.sim)
      ensures State() == CacheRunner.OnFetchDone(old(State()), setup, id)
    {
      hide AssignPrefill, AssignDecode, PrefillRest, Credit, Distinct;
      CreditFetch(id);
      if id in serving.inFlight {
        StartOrQueueRemainingPrefill(id);
      }
      serving.TryAssignDecode();
      serving.TryAssignPrefill();
    }

    method OnDecodeDone(id: u64, g: GpuRef)
      requires Valid() && HasGpu(serving.cluster, g)
      modifies this, serving, serving.sim.queue
      ensures Valid() && serving.sim == old(serving.sim)
      ensures State() == CacheRunner.OnDecodeDone(old(State()), setup, id, g)
    {
      hide AssignPrefill, AssignDecode, HasGpu;
      serving.ReleaseGpu(g);
      serving.FinishRequest(id);
      serving.TryAssignDecode();
      serving.TryAssignPrefill();
    }

    method HandleEvent(e: Ev)
      requires Valid() && CanServe(serving.State(), e)
      modifies this, serving, serving.sim.queue
      ensures Valid() && serving.sim == old(serving.sim)
      ensures State() == Serve(old(State()), setup, e)
    {
      match e.kind
      case RequestArrival(id) => OnArrival(id);
      case PrefillDone(id, g) => OnPrefillDone(id, g);
      case FetchDone(id) => OnFetchDone(id);
      case DecodeDone(id, g) => OnDecodeDone(id, g);
    }

    /** `clear_state`: the counters too, but neither the cache nor the GPUs' release times. */
    method Clear()
      requires Valid()
      modifies this, serving
      ensures Valid() && State() == Begin(old(serving.cluster), [], old(cache), old(transfer))
      ensures fresh(serving.sim) && fresh(serving.sim.queue)
    {
      serving.Clear();
      counters := NoCounts();
    }

    /** Every run ends with nothing pending; `worlds` and `events` record it. */
    method Run(requests: seq<Request>)
        returns (results: seq<RequestResult>, ghost worlds: seq<World<T>>, ghost events: seq<Ev>)
      requires Valid()
      modifies this, serving
      ensures Valid()
      ensures IsTrace(Turns(setup), worlds, events)
      ensures worlds[0] == Begin(old(serving.cluster), SortBy(requests, RequestKey), old(cache), old(transfer))
      ensures worlds[|events|].core.sim.pending == {}
      ensures results == SortBy(worlds[|events|].core.results, ResultKey)
    {
      var sorted := SortBy(requests, RequestKey);
      Clear();
      serving.Load(sorted);
      worlds, events := [State()], [];
      LoadedAddressable(old(serving.cluster), sorted);
      hide Turns, Serve, Addressable, Remaining, Begin, Loaded, Earliest, Pop;
      var e := serving.sim.Step();
      while e.Some?
        invariant Valid() && fresh(serving.sim) && fresh(serving.sim.queue)
        invariant IsTrace(Turns(setup), worlds, events)
        invariant worlds[0] == Begin(old(serving.cluster), sorted, old(cache), old(transfer))
        invariant Addressable(worlds[|events|].core)
        invariant e.None? ==> State() == worlds[|events|] && State().core.sim.pending == {}
        invariant e.Some? ==> Stepped(worlds[|events|], e.value, State())
        decreases Remaining(worlds[|events|].core, 4), e.Some?
      {
        ghost var before := worlds[|events|];
        StepServes(before, setup, e.value, State());
        HandleEvent(e.value);
        StepTurns(before, setup, e.value, State());
        TraceGrows(Turns(setup), worlds, events, e.value, State());
        worlds, events := worlds + [State()], events + [e.value];
        e := serving.sim.Step();
      }
      results := SortBy(serving.results, ResultKey);
    }
  }

  /** The loop has popped `e` from `before`. */
  ghost predicate Stepped<T>(before: World<T>, e: Ev, w: World<T>) {
    e in before.core.sim.pending && Earliest(e, before.core.sim.pending) && w == PopWorld(before, e)
  }

  lemma StepServes<T(!new)>(before: World<T>, x: Setup<T>, e: Ev, w: World<T>)
    requires Addressable(before.core) && Stepped(before, e, w)
    ensures CanServe(w.core, e) && Addressable(Serve(w, x, e).core)
    ensures Remaining(Serve(w, x, e).core, 4) < Remaining(before.core, 4)
  {
    TurnShrinks(before, x, e);
  }

  lemma StepTurns<T(!new)>(before: World<T>, x: Setup<T>, e: Ev, w': World<T>)
    requires Addressable(before.core) && Stepped(before, e, PopWorld(before, e)) && CanServe(Pop(before.core, e), e)
    requires w' == Serve(PopWorld(before, e), x, e)
    ensures Turns(x)(before, e, w')
  {
    hide Serve, Earliest;
  }

  lemma LoadedAddressable(t: Topology, rs: seq<Request>)
    requires Distinct(t)
    ensures Addressable(Loaded(t, rs))
  {
    LoadedQuiet(t, rs);
    forall e | e in Loaded(t, rs).sim.pending ensures CanServe(Loaded(t, rs), e) {
      LoadedEvents(t, rs, e);
    }
  }
}
