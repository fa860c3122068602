/** What one turn of the cache-aware runner means for the request it is about: a miss, a hit, a fetch that starts,
    fails or ends. */
module CacheMoves {
  import opened Numbers
  import opened Simulation
  import opened Cluster
  import opened Requests
  import opened Tiers
  import opened Machine
  import opened Lifecycle
  import ED = EventDriven
  import opened CacheRunner
  import Cache

  // ---- pending arrivals and fetches ----

  function Arriving(pending: set<Ev>): set<u64> {
    set e | e in pending && e.kind.RequestArrival? :: e.kind.id
  }

  function Fetching(pending: set<Ev>): set<u64> {
    set e | e in pending && e.kind.FetchDone? :: e.kind.id
  }

  lemma AddEvent(pending: set<Ev>, e: Ev)
    ensures Arriving(pending + {e}) == Arriving(pending) + if e.kind.RequestArrival? then {e.kind.id} else {}
    ensures Fetching(pending + {e}) == Fetching(pending) + if e.kind.FetchDone? then {e.kind.id} else {}
  {
    forall x ensures x in Arriving(pending + {e}) <==> x in Arriving(pending) || (e.kind.RequestArrival? && x == e.kind.id) {
      if x in Arriving(pending) {
        var f :| f in pending && f.kind.RequestArrival? && f.kind.id == x;
        assert f in pending + {e};
      }
      if e.kind.RequestArrival? { assert e in pending + {e}; }
    }
    forall x ensures x in Fetching(pending + {e}) <==> x in Fetching(pending) || (e.kind.FetchDone? && x == e.kind.id) {
      if x in Fetching(pending) {
        var f :| f in pending && f.kind.FetchDone? && f.kind.id == x;
        assert f in pending + {e};
      }
      if e.kind.FetchDone? { assert e in pending + {e}; }
    }
  }

  /** Where every request has one event, taking one out removes exactly its request. */
  lemma RemoveEvent(c: Core, e: Ev)
    requires Located(c, {}) && e in c.sim.pending
    ensures Arriving(c.sim.pending - {e}) == Arriving(c.sim.pending) - {e.kind.id}
    ensures Fetching(c.sim.pending - {e}) == Fetching(c.sim.pending) - {e.kind.id}
    ensures e.kind.RequestArrival? <==> e.kind.id in Arriving(c.sim.pending)
    ensures e.kind.FetchDone? <==> e.kind.id in Fetching(c.sim.pending)
  {
    var rest := c.sim.pending - {e};
    assert c.sim.pending == rest + {e};
    AddEvent(rest, e);
    assert e.kind.id !in Arriving(rest) && e.kind.id !in Fetching(rest);
  }

  // ---- requests on the machine ----

  /** The prefill ran as long as the tokens it was given take. */
  predicate Timed(m: Engine, f: InFlight) {
    f.prefillStart.Some? ==> f.prefillDone == Some(SatAdd(f.prefillStart.value, m.prefillTime(f.EffectiveTokens())))
  }

  /** `g` is `f` after starting at most its prefill and its decode. */
  predicate Advanced(m: Engine, f: InFlight, g: InFlight) {
    && g.req == f.req && g.prefillTokens == f.prefillTokens && g.fetchTier == f.fetchTier
    && ((g.prefillStart == f.prefillStart && g.prefillDone == f.prefillDone) || (g.prefillStart.Some? && Timed(m, g)))
  }

  /** From `a` to `b` nothing happens but starting and queueing. */
  ghost predicate Calm(m: Engine, a: Core, b: Core) {
    && b.inFlight.Keys == a.inFlight.Keys && b.results == a.results
    && (forall id | id in b.inFlight :: Advanced(m, a.inFlight[id], b.inFlight[id]))
    && Arriving(b.sim.pending) == Arriving(a.sim.pending)
    && Fetching(b.sim.pending) == Fetching(a.sim.pending)
  }

  lemma CalmTransitive(m: Engine, a: Core, b: Core, c: Core)
    requires Calm(m, a, b) && Calm(m, b, c)
    ensures Calm(m, a, c)
  {}

  lemma StartPrefillCalm(c: Core, m: Engine, id: u64, g: GpuRef)
    requires id in c.inFlight && HasGpu(c.cluster, g)
    ensures Calm(m, c, StartPrefill(c, m, id, g))
  {
    hide SetBusy, HasGpu, Arriving, Fetching;
    var c' := StartPrefill(c, m, id, g);
    AddEvent(c.sim.pending, Event(c'.inFlight[id].prefillDone.value, c.sim.nextSeq,
        PrefillDone(c.inFlight[id].req.id, g)));
  }

  lemma StartDecodeCalm(c: Core, m: Engine, id: u64, g: GpuRef)
    requires id in c.inFlight && HasGpu(c.cluster, g)
    ensures Calm(m, c, StartDecode(c, m, id, g))
  {
    hide SetBusy, HasGpu, Arriving, Fetching;
    var c' := StartDecode(c, m, id, g);
    AddEvent(c.sim.pending, Event(c'.inFlight[id].finish.value, c.sim.nextSeq, DecodeDone(c.inFlight[id].req.id, g)));
  }

  lemma QueuesCalm(c: Core, m: Engine, pq: seq<u64>, dq: seq<u64>)
    ensures Calm(m, c, c.(prefillQueue := pq, decodeQueue := dq))
  {}

  lemma DispatchPrefillCalm(c: Core, m: Engine, id: u64)
    requires Distinct(c.cluster)
    ensures Calm(m, c, DispatchPrefill(c, m, id))
  {
    hide Calm, StartPrefill;
    QueuesCalm(c, m, c.prefillQueue, c.decodeQueue);
    QueuesCalm(c, m, c.prefillQueue + [id], c.decodeQueue);
    if c.Idle(Prefill).Some? && id in c.inFlight { StartPrefillCalm(c, m, id, c.Idle(Prefill).value); }
  }

  lemma DispatchDecodeCalm(c: Core, m: Engine, id: u64)
    requires Distinct(c.cluster)
    ensures Calm(m, c, DispatchDecode(c, m, id))
  {
    hide Calm, StartDecode;
    QueuesCalm(c, m, c.prefillQueue, c.decodeQueue);
    QueuesCalm(c, m, c.prefillQueue, c.decodeQueue + [id]);
    if c.Idle(Decode).Some? && id in c.inFlight { StartDecodeCalm(c, m, id, c.Idle(Decode).value); }
  }

  lemma {:induction false} AssignPrefillCalm(c: Core, m: Engine)
    requires Distinct(c.cluster)
    ensures Calm(m, c, AssignPrefill(c, m))
    decreases |c.prefillQueue|
  {
    hide Calm, StartPrefill;
    QueuesCalm(c, m, c.prefillQueue, c.decodeQueue);
    if c.prefillQueue != [] && c.Idle(Prefill).Some? {
      var id, rest := c.prefillQueue[0], c.(prefillQueue := c.prefillQueue[1..]);
      var next := if id in rest.inFlight then StartPrefill(rest, m, id, c.Idle(Prefill).value) else rest;
      QueuesCalm(c, m, c.prefillQueue[1..], c.decodeQueue);
      if id in rest.inFlight {
        StartPrefillCalm(rest, m, id, c.Idle(Prefill).value);
        CalmTransitive(m, c, rest, next);
      }
      AssignPrefillQueue(c, m, next);
      AssignPrefillCalm(next, m);
      CalmTransitive(m, c, next, AssignPrefill(c, m));
    }
  }

  lemma AssignPrefillQueue(c: Core, m: Engine, next: Core)
    requires Distinct(c.cluster) && c.prefillQueue != [] && c.Idle(Prefill).Some?
    requires var id, rest := c.prefillQueue[0], c.(prefillQueue := c.prefillQueue[1..]);
             next == if id in rest.inFlight then StartPrefill(rest, m, id, c.Idle(Prefill).value) else rest
    ensures |next.prefillQueue| < |c.prefillQueue| && Distinct(next.cluster)
    ensures AssignPrefill(c, m) == AssignPrefill(next, m)
  {}

  lemma {:induction false} AssignDecodeCalm(c: Core, m: Engine)
    requires Distinct(c.cluster)
    ensures Calm(m, c, AssignDecode(c, m))
    decreases |c.decodeQueue|
  {
    hide Calm, StartDecode;
    QueuesCalm(c, m, c.prefillQueue, c.decodeQueue);
    if c.decodeQueue != [] && c.Idle(Decode).Some? {
      var id, rest := c.decodeQueue[0], c.(decodeQueue := c.decodeQueue[1..]);
      var next := if id in rest.inFlight then StartDecode(rest, m, id, c.Idle(Decode).value) else rest;
      QueuesCalm(c, m, c.prefillQueue, c.decodeQueue[1..]);
      if id in rest.inFlight {
        StartDecodeCalm(rest, m, id, c.Idle(Decode).value);
        CalmTransitive(m, c, rest, next);
      }
      AssignDecodeQueue(c, m, next);
      AssignDecodeCalm(next, m);
      CalmTransitive(m, c, next, AssignDecode(c, m));
    }
  }

  lemma AssignDecodeQueue(c: Core, m: Engine, next: Core)
    requires Distinct(c.cluster) && c.decodeQueue != [] && c.Idle(Decode).Some?
    requires var id, rest := c.decodeQueue[0], c.(decodeQueue := c.decodeQueue[1..]);
             next == if id in rest.inFlight then StartDecode(rest, m, id, c.Idle(Decode).value) else rest
    ensures |next.decodeQueue| < |c.decodeQueue| && Distinct(next.cluster)
    ensures AssignDecode(c, m) == AssignDecode(next, m)
  {}

  // ---- the moves ----

  /** Prefill tokens are set and the request is on its way to prefill or, with nothing to prefill, to decode. */
  ghost predicate Proceeds(m: Engine, a: Core, b: Core, id: u64, tokens: u32, tier: Option<TierKind>) {
    id in a.inFlight && Calm(m, Tag(a, id, tokens, tier), b)
  }

  /** A full prefill, with the miss counted. */
  ghost predicate Missed<T>(w: World<T>, x: Setup<T>, id: u64, w': World<T>) {
    && id in w.core.inFlight
    && var f := w.core.inFlight[id];
       && w'.counters == CountMiss(w, f.req.promptTokens)
       && Proceeds(x.engine, w.core, w'.core, id, f.req.promptTokens, f.fetchTier)
       && w'.cache == w.cache
  }

  /** Tokens a hit leaves to prefill, as recorded; unchanged when there are none. */
  function RestOf(f: InFlight): u32 {
    if f.req.newPromptTokens == 0 then f.prefillTokens else f.req.newPromptTokens
  }

  /** A hit in GPU memory. */
  ghost predicate HitNow<T>(w: World<T>, x: Setup<T>, id: u64, kv: Cache.KvObject, w': World<T>) {
    && id in w.core.inFlight
    && var f := w.core.inFlight[id];
       && FindPrefix(w.cache, f.req) == Some(kv) && kv.location.InGpu?
       && w'.counters == w.counters.(hitsGpu := w.counters.hitsGpu + 1,
                                     recomputedTokens := w.counters.recomputedTokens + f.req.newPromptTokens)
       && Proceeds(x.engine, w.core, w'.core, id, RestOf(f), f.fetchTier)
       && w'.cache == Cache.UpdateAccess(w.cache, kv.kvId, w.core.Now())
  }

  /** A hit elsewhere whose fetch is under way until the end the transfer model estimates. */
  ghost predicate FetchStarted<T>(w: World<T>, x: Setup<T>, id: u64, kv: Cache.KvObject, w': World<T>) {
    && id in w.core.inFlight
    && var f := w.core.inFlight[id];
       && FindPrefix(w.cache, f.req) == Some(kv) && FetchPath(kv.location).Some?
       && w'.counters == w.counters.(pendingFetches := w.counters.pendingFetches + 1,
                                     fetchedBytes := w.counters.fetchedBytes + kv.bytes)
       && (exists finish: u64 ::
             var (p, tier) := FetchPath(kv.location).value;
             && x.estimate(w.transfer, w.core.Now(), p, kv.bytes) == (w'.transfer, Some(finish))
             && w'.core == AwaitFetch(Tag(w.core, id, f.prefillTokens, Some(tier)), id, finish))
       && w'.cache == w.cache
  }

  /** A hit elsewhere that could not be fetched: counted as an error and as a miss. */
  ghost predicate FetchFailed<T>(w: World<T>, x: Setup<T>, id: u64, w': World<T>) {
    && id in w.core.inFlight
    && var f, k := w.core.inFlight[id], w.counters;
       && w'.counters == k.(misses := k.misses + 1, fetchErrors := k.fetchErrors + 1,
                            recomputedTokens := CountUp(k.recomputedTokens, f.req.promptTokens))
       && Proceeds(x.engine, w.core, w'.core, id, f.req.promptTokens, None)
       && w'.cache == w.cache
  }

  ghost predicate ArrivalMoved<T>(w: World<T>, x: Setup<T>, id: u64, w': World<T>) {
    || Missed(w, x, id, w')
    || (exists kv :: HitNow(w, x, id, kv, w'))
    || (exists kv :: FetchStarted(w, x, id, kv, w'))
    || FetchFailed(w, x, id, w')
  }

  lemma PrefillRestMoves<T>(w: World<T>, x: Setup<T>, id: u64)
    requires Distinct(w.core.cluster) && id in w.core.inFlight
    ensures var w' := PrefillRest(w, x, id); var f := w.core.inFlight[id];
            && w'.counters == w.counters.(recomputedTokens := w.counters.recomputedTokens + f.req.newPromptTokens)
            && Proceeds(x.engine, w.core, w'.core, id, RestOf(f), f.fetchTier)
            && w'.cache == w.cache && w'.transfer == w.transfer
  {
    var f := w.core.inFlight[id];
    if f.req.newPromptTokens == 0 {
      assert Tag(w.core, id, f.prefillTokens, f.fetchTier) == w.core;
      DispatchDecodeCalm(w.core, x.engine, id);
    } else {
      DispatchPrefillCalm(Tag(w.core, id, f.req.newPromptTokens, f.fetchTier), x.engine, id);
    }
  }

  lemma MissMoves<T>(w: World<T>, x: Setup<T>, id: u64)
    requires Distinct(w.core.cluster) && id in w.core.inFlight
    ensures Missed(w, x, id, Miss(w, x, id))
  {
    var f := w.core.inFlight[id];
    DispatchPrefillCalm(Tag(w.core, id, f.req.promptTokens, f.fetchTier), x.engine, id);
    hide Calm, DispatchPrefill;
  }

  lemma HitElsewhereMoves<T>(w: World<T>, x: Setup<T>, id: u64, kv: Cache.KvObject)
    requires Distinct(w.core.cluster) && id in w.core.inFlight && FetchPath(kv.location).Some?
    requires FindPrefix(w.cache, w.core.inFlight[id].req) == Some(kv)
    ensures var w' := HitElsewhere(w, x, id, kv); FetchStarted(w, x, id, kv, w') || FetchFailed(w, x, id, w')
  {
    var (p, tier) := FetchPath(kv.location).value;
    var f := w.core.inFlight[id];
    var c1 := Tag(w.core, id, f.prefillTokens, Some(tier));
    hide DispatchPrefill, Calm, FindPrefix, Distinct;
    var finish := x.estimate(w.transfer, w.core.Now(), p, kv.bytes).1;
    if finish.Some? {
      assert HitElsewhere(w, x, id, kv).core == AwaitFetch(c1, id, finish.value);
    } else {
      assert Tag(c1, id, f.req.promptTokens, None) == Tag(w.core, id, f.req.promptTokens, None);
      DispatchPrefillCalm(Tag(w.core, id, f.req.promptTokens, None), x.engine, id);
    }
  }

  /** No two kinds of arrival move the same counters, so at most one of them explains a step. */
  lemma MovesExclude<T>(w: World<T>, x: Setup<T>, id: u64, w': World<T>)
    ensures !(Missed(w, x, id, w') && FetchFailed(w, x, id, w'))
    ensures forall kv :: HitNow(w, x, id, kv, w') ==> !Missed(w, x, id, w') && !FetchFailed(w, x, id, w')
    ensures forall kv :: FetchStarted(w, x, id, kv, w') ==> !Missed(w, x, id, w') && !FetchFailed(w, x, id, w')
    ensures forall kv, kv' :: HitNow(w, x, id, kv, w') ==> !FetchStarted(w, x, id, kv', w')
  {
    hide Proceeds, FindPrefix, AwaitFetch;
  }

  /** An arrival is exactly one of a miss, a hit, a fetch that starts and a fetch that fails. */
  lemma ArrivalMoves<T>(w: World<T>, x: Setup<T>, id: u64)
    requires Distinct(w.core.cluster) && id in w.core.inFlight
    ensures ArrivalMoved(w, x, id, OnArrival(w, x, id))
    ensures var w' := OnArrival(w, x, id);
            && !(Missed(w, x, id, w') && FetchFailed(w, x, id, w'))
            && (forall kv :: HitNow(w, x, id, kv, w') ==> !Missed(w, x, id, w') && !FetchFailed(w, x, id, w'))
            && (forall kv :: FetchStarted(w, x, id, kv, w') ==> !Missed(w, x, id, w') && !FetchFailed(w, x, id, w'))
            && (forall kv, kv' :: HitNow(w, x, id, kv, w') ==> !FetchStarted(w, x, id, kv', w'))
  {
    hide Missed, FetchFailed, FetchStarted, Miss, HitElsewhere, Proceeds, PrefillRest, Distinct;
    MovesExclude(w, x, id, OnArrival(w, x, id));
    match FindPrefix(w.cache, w.core.inFlight[id].req)
    case None => MissMoves(w, x, id);
    case Some(kv) =>
      if kv.location.InGpu? {
        var w1 := w.(counters := w.counters.(hitsGpu := w.counters.hitsGpu + 1),
                     cache := Cache.UpdateAccess(w.cache, kv.kvId, w.core.Now()));
        PrefillRestMoves(w1, x, id);
        assert HitNow(w, x, id, kv, OnArrival(w, x, id));
      } else if FetchPath(kv.location).Some? {
        HitElsewhereMoves(w, x, id, kv);
      } else {
        MissMoves(w, x, id);
      }
  }

  /** A fetch that completes: its hit is credited and the rest of the prompt is prefilled. */
  ghost predicate FetchEnded<T>(w: World<T>, x: Setup<T>, id: u64, w': World<T>) {
    && id in w.core.inFlight
    && var f, k := w.core.inFlight[id], w.counters;
       && w'.counters == Credit(w, id).counters.(recomputedTokens := k.recomputedTokens + f.req.newPromptTokens)
       && Proceeds(x.engine, w.core, w'.core, id, RestOf(f), None)
       && w'.cache == w.cache
  }

  lemma FetchDoneMoves<T>(w: World<T>, x: Setup<T>, id: u64)
    requires Distinct(w.core.cluster) && id in w.core.inFlight
    ensures FetchEnded(w, x, id, OnFetchDone(w, x, id))
  {
    var f, w1 := w.core.inFlight[id], Credit(w, id);
    CreditIsTag(w, id);
    hide Calm, AssignPrefill, AssignDecode, PrefillRest, Credit, Distinct;
    assert Tag(w1.core, id, RestOf(f), None) == Tag(w.core, id, RestOf(f), None);
    PrefillRestMoves(w1, x, id);
    var w2 := PrefillRest(w1, x, id);
    PrefillRestDistinct(w1, x, id);
    AssignDecodeCalm(w2.core, x.engine);
    AssignPrefillCalm(AssignDecode(w2.core, x.engine), x.engine);
    CalmTransitive(x.engine, Tag(w.core, id, RestOf(f), None), w2.core, AssignDecode(w2.core, x.engine));
    CalmTransitive(x.engine, Tag(w.core, id, RestOf(f), None), AssignDecode(w2.core, x.engine), OnFetchDone(w, x,
        id).core);
  }

  lemma PrefillRestDistinct<T>(w: World<T>, x: Setup<T>, id: u64)
    requires Distinct(w.core.cluster) && id in w.core.inFlight
    ensures Distinct(PrefillRest(w, x, id).core.cluster)
  {}

  lemma CreditIsTag<T>(w: World<T>, id: u64)
    requires id in w.core.inFlight
    ensures Credit(w, id).core == Tag(w.core, id, w.core.inFlight[id].prefillTokens, None)
    ensures Credit(w, id).cache == w.cache && Credit(w, id).counters.recomputedTokens == w.counters.recomputedTokens
  {}

  lemma PrefillDoneCalm(c: Core, m: Engine, id: u64, g: GpuRef)
    requires Distinct(c.cluster) && HasGpu(c.cluster, g)
    ensures Calm(m, c, ED.OnPrefillDone(c, m, id, g))
  {
    hide AssignPrefill, AssignDecode, DispatchDecode, HasGpu, SetBusy, Distinct;
    var c1 := Release(c, g);
    assert Calm(m, c, c1);
    hide Calm, Release;
    var c2 := DispatchDecode(c1, m, id);
    DispatchDecodeCalm(c1, m, id);
    CalmTransitive(m, c, c1, c2);
    var c3 := AssignPrefill(c2, m);
    AssignPrefillCalm(c2, m);
    CalmTransitive(m, c, c2, c3);
    AssignDecodeCalm(c3, m);
    CalmTransitive(m, c, c3, AssignDecode(c3, m));
  }

  lemma DecodeDoneCalm(c: Core, m: Engine, id: u64, g: GpuRef)
    requires Distinct(c.cluster) && HasGpu(c.cluster, g)
    ensures Calm(m, Finish(c, id), ED.OnDecodeDone(c, m, id, g))
  {
    hide AssignPrefill, AssignDecode, HasGpu, SetBusy, Distinct;
    var c1 := Finish(Release(c, g), id);
    assert Calm(m, Finish(c, id), c1);
    assert c1.cluster == Release(c, g).cluster;
    hide Calm, Release, Finish;
    var c2 := AssignDecode(c1, m);
    AssignDecodeCalm(c1, m);
    CalmTransitive(m, Finish(c, id), c1, c2);
    AssignPrefillCalm(c2, m);
    CalmTransitive(m, Finish(c, id), c2, AssignPrefill(c2, m));
  }
}
