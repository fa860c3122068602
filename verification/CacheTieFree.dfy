/** Who keeps a GPU busy in the cache-aware runner, and its runs without ties: there too no GPU runs two tasks at once
    and no request waits beside an idle GPU, although fetches that end dispatch requests as well. */
module CacheTieFree {
  import opened Numbers
  import opened Simulation
  import opened Cluster
  import opened Requests
  import opened Tiers
  import opened Machine
  import opened Lifecycle
  import ED = EventDriven
  import opened Traces
  import opened TieFree
  import opened CacheRunner
  import CL = CacheLifecycle
  import Cache

  ghost function StrictTurns<T(!new)>(x: Setup<T>): (World<T>, Ev, World<T>) -> bool {
    (w, e, w') => Turn(w, x, e, w') && Strict(w'.core)
  }

  ghost predicate Orderly(c: Core) {
    CL.Steady(c) && ED.Timed(c) && Exclusive(c) && NoIdleWait(c)
  }

  // ---- the one step an arrival or the end of a fetch takes for its request ----

  /** The request is dispatched to prefill over some tokens, or waits for a fetch. */
  ghost predicate Sent(c: Core, m: Engine, id: u64, tokens: u32, tier: Option<TierKind>, c': Core)
    requires Distinct(c.cluster) && id in c.inFlight
  {
    || c' == DispatchPrefill(Tag(c, id, tokens, tier), m, id)
    || exists finish: u64 :: c' == AwaitFetch(Tag(c, id, tokens, tier), id, finish)
  }

  ghost predicate Steps(c: Core, m: Engine, id: u64, c': Core) {
    && Distinct(c.cluster) && id in c.inFlight
    && (c' == DispatchDecode(c, m, id) || exists tokens: u32, tier :: Sent(c, m, id, tokens, tier, c'))
  }

  lemma PrefillRestSteps<T>(w: World<T>, x: Setup<T>, id: u64)
    requires Distinct(w.core.cluster) && id in w.core.inFlight
    ensures Steps(w.core, x.engine, id, PrefillRest(w, x, id).core)
  {
    hide DispatchPrefill, DispatchDecode, Tag, Distinct;
    var f := w.core.inFlight[id];
    if f.req.newPromptTokens != 0 {
      assert Sent(w.core, x.engine, id, f.req.newPromptTokens, f.fetchTier, PrefillRest(w, x, id).core);
    }
  }

  lemma MissSteps<T>(w: World<T>, x: Setup<T>, id: u64)
    requires Distinct(w.core.cluster) && id in w.core.inFlight
    ensures Steps(w.core, x.engine, id, Miss(w, x, id).core)
  {
    hide DispatchPrefill, Tag, Distinct;
    var f := w.core.inFlight[id];
    assert Sent(w.core, x.engine, id, f.req.promptTokens, f.fetchTier, Miss(w, x, id).core);
  }

  lemma HitElsewhereSteps<T>(w: World<T>, x: Setup<T>, id: u64, kv: Cache.KvObject)
    requires Distinct(w.core.cluster) && id in w.core.inFlight && FetchPath(kv.location).Some?
    ensures Steps(w.core, x.engine, id, HitElsewhere(w, x, id, kv).core)
  {
    hide DispatchPrefill, Distinct;
    var (p, tier) := FetchPath(kv.location).value;
    var f := w.core.inFlight[id];
    var c1 := Tag(w.core, id, f.prefillTokens, Some(tier));
    var c' := HitElsewhere(w, x, id, kv).core;
    var finish := x.estimate(w.transfer, w.core.Now(), p, kv.bytes).1;
    if finish.Some? {
      assert c' == AwaitFetch(c1, id, finish.value);
      assert Sent(w.core, x.engine, id, f.prefillTokens, Some(tier), c');
    } else {
      assert Tag(c1, id, f.req.promptTokens, None) == Tag(w.core, id, f.req.promptTokens, None);
      assert Sent(w.core, x.engine, id, f.req.promptTokens, None, c');
    }
  }

  lemma ArrivalSteps<T>(w: World<T>, x: Setup<T>, id: u64)
    requires Distinct(w.core.cluster) && id in w.core.inFlight
    ensures Steps(w.core, x.engine, id, OnArrival(w, x, id).core)
  {
    hide Miss, HitElsewhere, PrefillRest, Steps, Distinct;
    match FindPrefix(w.cache, w.core.inFlight[id].req)
    case None => MissSteps(w, x, id);
    case Some(kv) =>
      if kv.location.InGpu? {
        PrefillRestSteps(w.(counters := w.counters.(hitsGpu := w.counters.hitsGpu + 1),
                            cache := Cache.UpdateAccess(w.cache, kv.kvId, w.core.Now())), x, id);
      } else if FetchPath(kv.location).Some? {
        HitElsewhereSteps(w, x, id, kv);
      } else {
        MissSteps(w, x, id);
      }
  }

  // ---- what a step keeps ----

  /** Same clock, same GPUs and the same pending events but for those that do not release a GPU. */
  ghost predicate SameWork(a: Core, b: Core) {
    && b.cluster == a.cluster && b.Now() == a.Now() && a.sim.pending <= b.sim.pending
    && (forall e | e in b.sim.pending && e !in a.sim.pending :: !e.kind.Completes())
    && b.prefillQueue == a.prefillQueue && b.decodeQueue == a.decodeQueue
  }

  lemma TagSameWork(c: Core, id: u64, tokens: u32, tier: Option<TierKind>)
    requires id in c.inFlight
    ensures SameWork(c, Tag(c, id, tokens, tier))
  {}

  lemma FetchSameWork(c: Core, id: u64, finish: u64)
    ensures SameWork(c, AwaitFetch(c, id, finish))
  {}

  lemma SameWorkKeeps(a: Core, b: Core)
    requires SameWork(a, b)
    ensures Exclusive(a) ==> Exclusive(b)
    ensures Strict(a) ==> Strict(b)
    ensures NoIdleWait(a) ==> NoIdleWait(b)
  {
    hide HasGpu, GpuAt, FindIdle, Distinct;
  }

  lemma SameWorkBacked(a: Core, b: Core)
    requires SameWork(a, b) && Backed(a)
    ensures Backed(b)
  {
    forall g: GpuRef | HasGpu(b.cluster, g) && b.Now() < GpuAt(b.cluster, g).busyUntil
      ensures Running(b.sim.pending, g, GpuAt(b.cluster, g).busyUntil)
    {
      var f :| f in a.sim.pending && f.kind.CompletesOn(g) && f.time == GpuAt(a.cluster, g).busyUntil;
      assert f in b.sim.pending;
    }
  }

  lemma DispatchGrows(c: Core, m: Engine, id: u64)
    requires Distinct(c.cluster)
    ensures c.sim.pending <= DispatchPrefill(c, m, id).sim.pending && DispatchPrefill(c, m, id).Now() == c.Now()
    ensures c.sim.pending <= DispatchDecode(c, m, id).sim.pending && DispatchDecode(c, m, id).Now() == c.Now()
  {
    hide SetBusy, HasGpu, Distinct;
  }

  lemma DispatchNoIdleWait(c: Core, m: Engine, id: u64)
    requires NoIdleWait(c)
    ensures NoIdleWait(DispatchPrefill(c, m, id)) && NoIdleWait(DispatchDecode(c, m, id))
  {
    if c.Idle(Prefill).None? { DispatchKeepsNoIdle(c, m, id, Prefill); }
    if c.Idle(Decode).None? { DispatchKeepsNoIdle(c, m, id, Decode); }
    hide FindIdle;
  }

  /** What both kinds of step keep of a tie-free state. */
  ghost predicate StepKeeps(c: Core, c': Core) {
    && c.sim.pending <= c'.sim.pending && c'.Now() == c.Now()
    && (Exclusive(c) && Strict(c) ==> Exclusive(c'))
    && (NoIdleWait(c) ==> NoIdleWait(c'))
    && (Backed(c) ==> Backed(c'))
  }

  lemma DispatchKeeps(c: Core, m: Engine, id: u64)
    requires Distinct(c.cluster)
    ensures StepKeeps(c, DispatchPrefill(c, m, id)) && StepKeeps(c, DispatchDecode(c, m, id))
  {
    hide Exclusive, Strict, NoIdleWait, Backed, DispatchPrefill, DispatchDecode;
    DispatchGrows(c, m, id);
    if Exclusive(c) && Strict(c) { DispatchExclusive(c, m, id); }
    if NoIdleWait(c) { DispatchNoIdleWait(c, m, id); }
    if Backed(c) { DispatchBacked(c, m, id); }
  }

  lemma SameWorkSteps(a: Core, b: Core)
    requires SameWork(a, b)
    ensures StepKeeps(a, b)
  {
    hide Exclusive, Strict, NoIdleWait, Backed;
    SameWorkKeeps(a, b);
    if Backed(a) { SameWorkBacked(a, b); }
  }

  lemma StepKeepsTransitive(a: Core, b: Core, c: Core)
    requires StepKeeps(a, b) && StepKeeps(b, c) && (Strict(a) ==> Strict(b))
    ensures StepKeeps(a, c)
  {
    hide Exclusive, Strict, NoIdleWait, Backed;
  }

  lemma SentKeeps(c: Core, m: Engine, id: u64, tokens: u32, tier: Option<TierKind>, c': Core)
    requires Distinct(c.cluster) && id in c.inFlight && Sent(c, m, id, tokens, tier, c')
    ensures StepKeeps(c, c')
  {
    var c1 := Tag(c, id, tokens, tier);
    TagSameWork(c, id, tokens, tier);
    assert Distinct(c1.cluster);
    hide Tag, DispatchPrefill, SameWork, StepKeeps, Strict, Exclusive, NoIdleWait, AwaitFetch;
    SameWorkKeeps(c, c1);
    SameWorkSteps(c, c1);
    if c' == DispatchPrefill(c1, m, id) {
      DispatchKeeps(c1, m, id);
    } else {
      var finish: u64 :| c' == AwaitFetch(c1, id, finish);
      FetchSameWork(c1, id, finish);
      SameWorkSteps(c1, c');
    }
    StepKeepsTransitive(c, c1, c');
  }

  lemma AnyStepKeeps(c: Core, m: Engine, id: u64, c': Core)
    requires Steps(c, m, id, c')
    ensures StepKeeps(c, c')
  {
    hide Sent, StepKeeps, DispatchDecode, Distinct;
    if c' == DispatchDecode(c, m, id) {
      DispatchKeeps(c, m, id);
    } else {
      var tokens: u32, tier :| Sent(c, m, id, tokens, tier, c');
      SentKeeps(c, m, id, tokens, tier, c');
    }
  }

  // ---- the handlers ----

  /** The state an event leaves once it is taken out, on the way to a tie-free state. */
  ghost predicate Begun(c: Core, e: Ev) {
    ED.Ready(c, e) && Backed(c) && Strict(c) && (!e.kind.Completes() ==> Exclusive(c) && NoIdleWait(c))
    && (e.kind.Completes() ==> Exclusive(Release(c, e.kind.gpu)))
  }

  ghost predicate Ended(c: Core) {
    Backed(c) && Exclusive(c) && NoIdleWait(c)
  }

  lemma ArrivalEnds<T(!new)>(w: World<T>, x: Setup<T>, e: Ev)
    requires Begun(w.core, e) && e.kind.RequestArrival?
    ensures Distinct(w.core.cluster) && Ended(OnArrival(w, x, e.kind.id).core)
  {
    assert Distinct(w.core.cluster) && e.kind.id in w.core.inFlight;
    hide ED.Ready, Strict, Exclusive, NoIdleWait, Backed, OnArrival, Steps, Distinct;
    ArrivalSteps(w, x, e.kind.id);
    AnyStepKeeps(w.core, x.engine, e.kind.id, OnArrival(w, x, e.kind.id).core);
  }

  /** Draining both queues. */
  lemma DrainEnds(c: Core, m: Engine)
    requires Sound(c, {}) && Backed(c) && Exclusive(c) && Distinct(c.cluster)
    requires Strict(AssignPrefill(AssignDecode(c, m), m))
    ensures Ended(AssignPrefill(AssignDecode(c, m), m))
  {
    hide Located, Staged, Grounded, Strict, Exclusive, NoIdleWait, Backed, AssignPrefill, AssignDecode, SameShape,
      SameRequests, KeepsStaff, Active;
    var d := AssignDecode(c, m);
    AssignDecodeKeeps(c, m);
    AssignPrefillKeeps(d, m);
    StrictBefore(d, AssignPrefill(d, m));
    AssignDecodeExclusive(c, m);
    AssignPrefillExclusive(d, m);
    AssignDecodeBacked(c, m);
    AssignPrefillBacked(d, m);
    DrainedNoIdleWait(c, m);
  }

  /** The end of a fetch is a credit, a step and two drains. */
  lemma FetchParts<T>(w: World<T>, x: Setup<T>, id: u64)
    requires Distinct(w.core.cluster) && id in w.core.inFlight
    ensures var c1 := Tag(w.core, id, w.core.inFlight[id].prefillTokens, None);
            var c2 := PrefillRest(Credit(w, id), x, id).core;
            && Credit(w, id).core == c1 && Distinct(c1.cluster) && Distinct(c2.cluster) && id in c1.inFlight
            && OnFetchDone(w, x, id).core == AssignPrefill(AssignDecode(c2, x.engine), x.engine)
  {
    CL.CreditCore(w, id);
    hide AssignPrefill, AssignDecode, Credit;
  }

  lemma FetchEnds<T(!new)>(w: World<T>, x: Setup<T>, e: Ev)
    requires Begun(w.core, e) && e.kind.FetchDone?
    requires Distinct(w.core.cluster) && Strict(OnFetchDone(w, x, e.kind.id).core)
    ensures Ended(OnFetchDone(w, x, e.kind.id).core)
  {
    var id := e.kind.id;
    assert id in w.core.inFlight && Sound(w.core, {id});
    assert Unstarted(w.core.inFlight[id]) && w.core.inFlight[id].req.arrival <= w.core.Now();
    assert Staffed(w.core.cluster, w.core.sim, Prefill) && Staffed(w.core.cluster, w.core.sim, Decode);
    var c1 := Tag(w.core, id, w.core.inFlight[id].prefillTokens, None);
    var w1 := Credit(w, id);
    assert c1.cluster == w.core.cluster && c1.sim == w.core.sim;
    assert Unstarted(c1.inFlight[id]) && c1.inFlight[id].req.arrival <= c1.Now();
    hide ED.Ready, Sound, Strict, Exclusive, NoIdleWait, Backed, Tag, Credit, PrefillRest, OnFetchDone, Staffed,
      Unstarted, Steps, SameWork, AssignPrefill, AssignDecode, CL.DoneSame, Continues, Active, Distinct;
    FetchParts(w, x, id);
    var c2 := PrefillRest(w1, x, id).core;
    CL.TagKeeps(w.core, id, w.core.inFlight[id].prefillTokens, None, {id});
    TagSameWork(w.core, id, w.core.inFlight[id].prefillTokens, None);
    SameWorkSteps(w.core, c1);
    SameWorkKeeps(w.core, c1);
    PrefillRestSteps(w1, x, id);
    AnyStepKeeps(c1, x.engine, id, c2);
    CL.PrefillRestDone(w1, x, id, false);
    RestIsSound(c1, c2);
    DrainEnds(c2, x.engine);
  }

  lemma RestIsSound(c: Core, c': Core)
    requires CL.DoneSame(c, c', 2, false)
    ensures Sound(c', {})
  {
    hide Sound;
  }

  lemma CompletionEnds(c: Core, m: Engine, e: Ev)
    requires Begun(c, e) && e.kind.Completes() && ED.CanHandle(c, e) && Strict(ED.Handle(c, m, e))
    ensures Ended(ED.Handle(c, m, e))
  {
    hide ED.Ready, Strict, Exclusive, NoIdleWait, Backed, ED.OnPrefillDone, ED.OnDecodeDone, Release;
    ED.HandleBacked(c, m, e);
    if e.kind.PrefillDone? {
      PrefillDoneExclusive(c, m, e);
      PrefillDoneNoIdleWait(c, m, e);
    } else {
      DecodeDoneExclusive(c, m, e);
      DecodeDoneNoIdleWait(c, m, e);
    }
  }

  lemma ServeEnds<T(!new)>(w: World<T>, x: Setup<T>, e: Ev)
    requires Begun(w.core, e) && CanServe(w.core, e) && Strict(Serve(w, x, e).core)
    ensures Ended(Serve(w, x, e).core)
  {
    hide Begun, Ended, Strict, OnArrival, OnPrefillDone, OnFetchDone, ED.OnPrefillDone, ED.OnDecodeDone, Distinct,
      HasGpu;
    match e.kind {
      case RequestArrival(id) => ArrivalEnds(w, x, e);
      case PrefillDone(id, g) =>
        CL.PrefillDoneCore(w, x, id, g);
        CompletionEnds(w.core, x.engine, e);
      case FetchDone(id) => FetchEnds(w, x, e);
      case DecodeDone(id, g) => CompletionEnds(w.core, x.engine, e);
    }
  }

  // ---- who keeps a GPU busy, ties allowed ----

  lemma FetchBacked<T>(w: World<T>, x: Setup<T>, id: u64)
    requires Distinct(w.core.cluster) && id in w.core.inFlight && Backed(w.core)
    ensures Backed(OnFetchDone(w, x, id).core)
  {
    var c1 := Tag(w.core, id, w.core.inFlight[id].prefillTokens, None);
    TagSameWork(w.core, id, w.core.inFlight[id].prefillTokens, None);
    SameWorkBacked(w.core, c1);
    hide Tag, Credit, PrefillRest, OnFetchDone, Steps, AssignPrefill, AssignDecode, Distinct, Backed, Exclusive, Strict,
      NoIdleWait;
    FetchParts(w, x, id);
    var c2 := PrefillRest(Credit(w, id), x, id).core;
    PrefillRestSteps(Credit(w, id), x, id);
    AnyStepKeeps(c1, x.engine, id, c2);
    AssignDecodeBacked(c2, x.engine);
    AssignPrefillBacked(AssignDecode(c2, x.engine), x.engine);
  }

  lemma ServeBacked<T>(w: World<T>, x: Setup<T>, e: Ev)
    requires CanServe(w.core, e) && e.kind.id in w.core.inFlight && Backed(w.core)
    ensures Backed(Serve(w, x, e).core)
  {
    hide Backed, OnArrival, OnPrefillDone, OnFetchDone, ED.OnPrefillDone, ED.OnDecodeDone, Distinct, HasGpu, Steps,
      Exclusive, Strict, NoIdleWait;
    match e.kind {
      case RequestArrival(id) =>
        ArrivalSteps(w, x, id);
        AnyStepKeeps(w.core, x.engine, id, OnArrival(w, x, id).core);
      case PrefillDone(id, g) =>
        CL.PrefillDoneCore(w, x, id, g);
        ED.HandleBacked(w.core, x.engine, e);
      case FetchDone(id) => FetchBacked(w, x, id);
      case DecodeDone(id, g) => ED.HandleBacked(w.core, x.engine, e);
    }
  }

  ghost predicate SteadyTimed(c: Core) {
    CL.Steady(c) && ED.Timed(c)
  }

  lemma TurnBacked<T(!new)>(x: Setup<T>, w: World<T>, e: Ev, w': World<T>)
    requires SteadyTimed(w.core) && Turns(x)(w, e, w')
    ensures SteadyTimed(w'.core) && Backed(w'.core)
  {
    assert Turn(w, x, e, w');
    hide CL.Steady, ED.Ready, Backed, Untouched, Serve, Earliest;
    CL.TurnKeeps(w, x, e, w');
    CL.PoppedReady(w.core, e);
    PopBacked(w.core, e);
    ReadyInFlight(Pop(w.core, e), e);
    ServeBacked(PopWorld(w, e), x, e);
  }

  lemma ReadyInFlight(c: Core, e: Ev)
    requires ED.Ready(c, e)
    ensures e.kind.id in c.inFlight
  {}

  lemma {:induction false} RunBacked<T(!new)>(x: Setup<T>, worlds: seq<World<T>>, events: seq<Ev>, n: nat)
    requires IsTrace(Turns(x), worlds, events) && SteadyTimed(worlds[0].core) && n <= |events|
    ensures SteadyTimed(worlds[n].core) && (n > 0 ==> Backed(worlds[n].core))
  {
    hide *;
    if n > 0 {
      TraceStep(Turns(x), worlds, events, n - 1);
      RunBacked(x, worlds, events, n - 1);
      TurnBacked(x, worlds[n-1], events[n-1], worlds[n]);
    }
  }

  /** When all GPUs are released by the first arrival: after every event of the cache-aware runner, ties allowed, a GPU
      that is not free has its own completion pending at exactly its release time. */
  lemma BusyMeansPending<T(!new)>(t: Topology, rs: seq<Request>, x: Setup<T>, worlds: seq<World<T>>, events: seq<Ev>,
                                  n: nat)
    requires ED.Rested(t, rs) && UniqueIds(rs)
    requires IsTrace(Turns(x), worlds, events) && worlds[0].core == Loaded(t, rs) && 0 < n <= |events|
    ensures Backed(worlds[n].core)
  {
    hide Turns, CL.Steady, ED.Timed, ED.Rested, Loaded, Exclusive, NoIdleWait, Backed;
    LoadedIsOrderly(t, rs);
    RunBacked(x, worlds, events, n);
  }

  // ---- turns ----

  /** Nothing that was pending is lost, and the clock stands at the event or where it was. */
  lemma ServeGrows<T(!new)>(w: World<T>, x: Setup<T>, e: Ev)
    requires ED.Ready(w.core, e) && CanServe(w.core, e)
    ensures w.core.sim.pending <= Serve(w, x, e).core.sim.pending && Serve(w, x, e).core.Now() == w.core.Now()
  {
    assert Distinct(w.core.cluster) && e.kind.id in w.core.inFlight;
    hide ED.Ready, OnArrival, OnPrefillDone, OnFetchDone, OnDecodeDone, HasGpu, Distinct, Steps, StepKeeps;
    match e.kind {
      case RequestArrival(id) =>
        ArrivalSteps(w, x, id);
        AnyStepKeeps(w.core, x.engine, id, OnArrival(w, x, id).core);
        KeptGrows(w.core, OnArrival(w, x, id).core);
      case PrefillDone(id, g) =>
        CL.PrefillDoneCore(w, x, id, g);
        ED.PrefillDoneHandled(w.core, x.engine, e, 4);
      case FetchDone(id) => FetchGrows(w, x, e);
      case DecodeDone(id, g) =>
        DecodeDoneCore(w, x, id, g);
        ED.DecodeDoneHandled(w.core, x.engine, e, 4);
    }
  }

  lemma KeptGrows(c: Core, c': Core)
    requires StepKeeps(c, c')
    ensures c.sim.pending <= c'.sim.pending && c'.Now() == c.Now()
  {}

  lemma DecodeDoneCore<T>(w: World<T>, x: Setup<T>, id: u64, g: GpuRef)
    requires Distinct(w.core.cluster) && HasGpu(w.core.cluster, g)
    ensures OnDecodeDone(w, x, id, g).core == ED.OnDecodeDone(w.core, x.engine, id, g)
  {}

  lemma FetchGrows<T(!new)>(w: World<T>, x: Setup<T>, e: Ev)
    requires ED.Ready(w.core, e) && e.kind.FetchDone? && Distinct(w.core.cluster)
    ensures var c' := OnFetchDone(w, x, e.kind.id).core; w.core.sim.pending <= c'.sim.pending && c'.Now() == w.core.Now()
  {
    var id := e.kind.id;
    assert id in w.core.inFlight;
    var c1 := Tag(w.core, id, w.core.inFlight[id].prefillTokens, None);
    assert c1.sim == w.core.sim;
    hide ED.Ready, Tag, Credit, PrefillRest, OnFetchDone, Steps, StepKeeps, AssignPrefill, AssignDecode, Distinct;
    FetchParts(w, x, id);
    var w1 := Credit(w, id);
    var c2 := PrefillRest(w1, x, id).core;
    PrefillRestSteps(w1, x, id);
    AnyStepKeeps(c1, x.engine, id, c2);
    KeptGrows(c1, c2);
    AssignGrows(c2, x.engine);
  }

  lemma AssignGrows(c: Core, m: Engine)
    requires Distinct(c.cluster)
    ensures var c' := AssignPrefill(AssignDecode(c, m), m); c.sim.pending <= c'.sim.pending && c'.Now() == c.Now()
  {
    AssignDecodeGrows(c, m);
    AssignPrefillGrows(AssignDecode(c, m), m);
  }

  lemma StartGrows(c: Core, m: Engine, id: u64, g: GpuRef)
    requires id in c.inFlight && HasGpu(c.cluster, g)
    ensures var c' := StartPrefill(c, m, id, g);
            c.sim.pending <= c'.sim.pending && c'.Now() == c.Now() && c'.prefillQueue == c.prefillQueue
    ensures var c' := StartDecode(c, m, id, g);
            c.sim.pending <= c'.sim.pending && c'.Now() == c.Now() && c'.decodeQueue == c.decodeQueue
  {
    hide SetBusy, HasGpu;
  }

  lemma {:induction false} AssignDecodeGrows(c: Core, m: Engine)
    requires Distinct(c.cluster)
    ensures c.sim.pending <= AssignDecode(c, m).sim.pending && AssignDecode(c, m).Now() == c.Now()
    decreases |c.decodeQueue|
  {
    hide StartDecode, FindIdle, HasGpu, Distinct;
    if c.decodeQueue != [] && c.Idle(Decode).Some? {
      var id, rest := c.decodeQueue[0], c.(decodeQueue := c.decodeQueue[1..]);
      if id in rest.inFlight {
        StartGrows(rest, m, id, c.Idle(Decode).value);
        AssignDecodeGrows(StartDecode(rest, m, id, c.Idle(Decode).value), m);
      } else {
        AssignDecodeGrows(rest, m);
      }
    }
  }

  lemma {:induction false} AssignPrefillGrows(c: Core, m: Engine)
    requires Distinct(c.cluster)
    ensures c.sim.pending <= AssignPrefill(c, m).sim.pending && AssignPrefill(c, m).Now() == c.Now()
    decreases |c.prefillQueue|
  {
    hide StartPrefill, FindIdle, HasGpu, Distinct;
    if c.prefillQueue != [] && c.Idle(Prefill).Some? {
      var id, rest := c.prefillQueue[0], c.(prefillQueue := c.prefillQueue[1..]);
      if id in rest.inFlight {
        StartGrows(rest, m, id, c.Idle(Prefill).value);
        AssignPrefillGrows(StartPrefill(rest, m, id, c.Idle(Prefill).value), m);
      } else {
        AssignPrefillGrows(rest, m);
      }
    }
  }

  /** Popping an event that frees no GPU leaves nobody waiting beside an idle one, late fetches included. */
  lemma PopNoIdleWait(c: Core, e: Ev)
    requires Orderly(c) && e in c.sim.pending && Earliest(e, c.sim.pending) && !e.kind.Completes()
    requires Strict(Pop(c, e))
    ensures NoIdleWait(Pop(c, e))
  {
    assert Distinct(c.cluster) && (c.prefillQueue != [] || c.decodeQueue != [] ==> Backed(c));
    hide CL.Steady, ED.Timed, Exclusive, Backed, Strict;
    if c.prefillQueue != [] { PopNoIdle(c, e, Prefill); }
    if c.decodeQueue != [] { PopNoIdle(c, e, Decode); }
  }

  lemma PopNoIdle(c: Core, e: Ev, role: Role)
    requires Backed(c) && e in c.sim.pending && Earliest(e, c.sim.pending) && !e.kind.Completes()
    requires Strict(Pop(c, e)) && c.Idle(role).None?
    ensures Pop(c, e).Idle(role).None?
  {
    if c.Now() <= e.time { NothingReleasedEarly(c, e, role); }
  }

  lemma TurnBegins<T(!new)>(w: World<T>, x: Setup<T>, e: Ev, w': World<T>)
    requires Orderly(w.core) && Turn(w, x, e, w') && Strict(w'.core)
    ensures Begun(Pop(w.core, e), e)
    ensures CanServe(Pop(w.core, e), e) && w' == Serve(PopWorld(w, e), x, e)
    ensures Pop(w.core, e).sim.pending <= w'.core.sim.pending && w'.core.Now() == Pop(w.core, e).Now()
  {
    var p := Pop(w.core, e);
    assert ED.Timed(w.core) && Exclusive(w.core) && CL.Steady(w.core);
    hide Orderly, CL.Steady, ED.Ready, Strict, NoIdleWait, Serve, Earliest, Exclusive, Backed, Untouched;
    CL.PoppedReady(w.core, e);
    ServeGrows(PopWorld(w, e), x, e);
    StrictBefore(p, w'.core);
    PopBacked(w.core, e);
    PopExclusive(w.core, e);
    if e.kind.Completes() {
      ReleaseExclusive(w.core, e);
    } else {
      PopNoIdleWait(w.core, e);
    }
  }

  lemma TurnOrderly<T(!new)>(x: Setup<T>, w: World<T>, e: Ev, w': World<T>)
    requires Orderly(w.core) && StrictTurns(x)(w, e, w')
    ensures Orderly(w'.core)
    ensures Pop(w.core, e).sim.pending <= w'.core.sim.pending && w'.core.Now() == Pop(w.core, e).Now()
  {
    assert Turn(w, x, e, w') && Strict(w'.core) && CL.Steady(w.core);
    hide CL.Steady, Strict, Serve, Begun, Exclusive, NoIdleWait, Backed, Earliest, CanServe, Turn;
    TurnBegins(w, x, e, w');
    CL.TurnKeeps(w, x, e, w');
    ServeEnds(PopWorld(w, e), x, e);
  }

  lemma {:induction false} RunOrderly<T(!new)>(x: Setup<T>, worlds: seq<World<T>>, events: seq<Ev>, n: nat)
    requires IsTrace(StrictTurns(x), worlds, events) && Orderly(worlds[0].core) && n <= |events|
    ensures Orderly(worlds[n].core)
  {
    hide *;
    if n > 0 {
      TraceStep(StrictTurns(x), worlds, events, n - 1);
      RunOrderly(x, worlds, events, n - 1);
      TurnOrderly(x, worlds[n-1], events[n-1], worlds[n]);
    }
  }

  lemma LoadedIsOrderly(t: Topology, rs: seq<Request>)
    requires ED.Rested(t, rs) && UniqueIds(rs)
    ensures Orderly(Loaded(t, rs))
  {
    hide Loaded, ED.Rested, Exclusive, NoIdleWait, ED.Timed, UniqueIds, Located, Staged, Grounded, Live, ED.Manned;
    LoadedOrderly(t, rs);
  }

  /** In a tie-free run of the cache-aware runner, after every event: each GPU has at most one pending completion, which
      is its release time, and no request waits for a role that an idle GPU serves. */
  lemma ExclusionAndNoWaste<T(!new)>(t: Topology, rs: seq<Request>, x: Setup<T>, worlds: seq<World<T>>, events: seq<Ev>,
                                     i: nat)
    requires ED.Rested(t, rs) && UniqueIds(rs)
    requires IsTrace(StrictTurns(x), worlds, events) && worlds[0].core == Loaded(t, rs) && i <= |events|
    ensures Exclusive(worlds[i].core) && NoIdleWait(worlds[i].core)
  {
    hide StrictTurns, Exclusive, NoIdleWait, CL.Steady, ED.Timed, ED.Rested, Loaded;
    LoadedIsOrderly(t, rs);
    RunOrderly(x, worlds, events, i);
  }

  ghost predicate Tracked(f: Ev, c: Core) {
    Orderly(c) && (f in c.sim.pending || f.time <= c.Now())
  }

  lemma TurnTracked<T(!new)>(x: Setup<T>, f: Ev, w: World<T>, e: Ev, w': World<T>)
    requires Tracked(f, w.core) && StrictTurns(x)(w, e, w')
    ensures Tracked(f, w'.core)
  {
    hide Orderly, StrictTurns;
    TurnOrderly(x, w, e, w');
  }

  lemma {:induction false} RunTracked<T(!new)>(x: Setup<T>, f: Ev, worlds: seq<World<T>>, events: seq<Ev>, k: nat,
                                               n: nat)
    requires IsTrace(StrictTurns(x), worlds, events) && k <= n <= |events| && Tracked(f, worlds[k].core)
    ensures Tracked(f, worlds[n].core)
  {
    hide *;
    if k < n {
      TraceStep(StrictTurns(x), worlds, events, n - 1);
      RunTracked(x, f, worlds, events, k, n - 1);
      TurnTracked(x, f, worlds[n-1], events[n-1], worlds[n]);
    }
  }

  /** There too tasks on one GPU never overlap. */
  lemma TasksDoNotOverlap<T(!new)>(t: Topology, rs: seq<Request>, x: Setup<T>, worlds: seq<World<T>>, events: seq<Ev>,
                                   i: nat, f: Ev, j: nat, g: Ev)
    requires ED.Rested(t, rs) && UniqueIds(rs)
    requires IsTrace(StrictTurns(x), worlds, events) && worlds[0].core == Loaded(t, rs) && i <= j <= |events|
    requires f in worlds[i].core.sim.pending && g in worlds[j].core.sim.pending && f != g
    requires f.kind.Completes() && g.kind.Completes() && f.kind.gpu == g.kind.gpu
    ensures f.time <= worlds[j].core.Now()
  {
    hide StrictTurns, NoIdleWait, CL.Steady, ED.Timed, ED.Rested, Loaded;
    LoadedIsOrderly(t, rs);
    RunOrderly(x, worlds, events, i);
    RunTracked(x, f, worlds, events, i, j);
  }
}
