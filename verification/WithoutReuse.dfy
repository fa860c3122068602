/** Without reusable prefixes the cache-aware runner is the event-driven runner: whatever the cache holds and whatever
    policy and transfer model do, the two schedule the same requests on the same GPUs at the same times. */
module WithoutReuse {
  import opened Numbers
  import opened Simulation
  import opened Cluster
  import opened Requests
  import opened Tiers
  import opened Machine
  import opened Lifecycle
  import ED = EventDriven
  import opened Traces
  import opened CacheRunner
  import CL = CacheLifecycle
  import Cache
  import NR = NoReuse
  import opened TwoStage
  import Equivalence
  import Fcfs

  /** A request as the event-driven runner sees it. */
  function Bare(f: InFlight): InFlight {
    f.(prefillTokens := 0, fetchTier := None)
  }

  function BareMap(m: map<u64, InFlight>): (r: map<u64, InFlight>)
    ensures r.Keys == m.Keys && forall id | id in m :: r[id] == Bare(m[id])
  {
    map id | id in m :: Bare(m[id])
  }

  function Erase(c: Core): Core {
    c.(inFlight := BareMap(c.inFlight))
  }

  /** Nothing to reuse, no fetch, and prefills over whole prompts only. */
  predicate Whole(f: InFlight) {
    f.req.ReusedTokens() == 0 && f.fetchTier.None? && (f.prefillTokens == 0 || f.prefillTokens == f.req.promptTokens)
  }

  ghost predicate Plain(c: Core) {
    && (forall id | id in c.inFlight :: Whole(c.inFlight[id]))
    && (forall e | e in c.sim.pending :: !e.kind.FetchDone?)
  }

  lemma SameMaps(a: map<u64, InFlight>, b: map<u64, InFlight>)
    requires a.Keys == b.Keys && forall k | k in a :: a[k] == b[k]
    ensures a == b
  {}

  lemma EraseUpdate(m: map<u64, InFlight>, id: u64, f: InFlight)
    ensures BareMap(m[id := f]) == BareMap(m)[id := Bare(f)]
  {
    hide Bare;
    SameMaps(BareMap(m[id := f]), BareMap(m)[id := Bare(f)]);
  }

  lemma StartPrefillPlain(c: Core, m: Engine, id: u64, g: GpuRef)
    requires Plain(c) && id in c.inFlight && HasGpu(c.cluster, g)
    ensures Plain(StartPrefill(c, m, id, g)) && Plain(StartDecode(c, m, id, g))
  {
    hide HasGpu, SetBusy;
  }

  lemma StartPrefillBare(c: Core, m: Engine, id: u64, g: GpuRef)
    requires Plain(c) && id in c.inFlight && HasGpu(c.cluster, g)
    ensures Plain(StartPrefill(c, m, id, g)) && Erase(StartPrefill(c, m, id, g)) == StartPrefill(Erase(c), m, id, g)
  {
    var f := c.inFlight[id];
    StartPrefillPlain(c, m, id, g);
    assert Whole(f) && Bare(f).EffectiveTokens() == f.EffectiveTokens();
    hide HasGpu, SetBusy, Plain, BareMap, InFlight.EffectiveTokens;
    EraseUpdate(c.inFlight, id, StartPrefill(c, m, id, g).inFlight[id]);
  }

  lemma StartDecodeBare(c: Core, m: Engine, id: u64, g: GpuRef)
    requires Plain(c) && id in c.inFlight && HasGpu(c.cluster, g)
    ensures Plain(StartDecode(c, m, id, g)) && Erase(StartDecode(c, m, id, g)) == StartDecode(Erase(c), m, id, g)
  {
    StartPrefillPlain(c, m, id, g);
    hide HasGpu, SetBusy, Plain, BareMap;
    EraseUpdate(c.inFlight, id, StartDecode(c, m, id, g).inFlight[id]);
  }

  lemma QueuesBare(c: Core, pq: seq<u64>, dq: seq<u64>)
    requires Plain(c)
    ensures var c' := c.(prefillQueue := pq, decodeQueue := dq);
            Plain(c') && Erase(c') == Erase(c).(prefillQueue := pq, decodeQueue := dq)
  {}

  lemma EraseSame(c: Core)
    ensures Erase(c).cluster == c.cluster && Erase(c).sim == c.sim && Erase(c).inFlight.Keys == c.inFlight.Keys
    ensures Erase(c).prefillQueue == c.prefillQueue && Erase(c).decodeQueue == c.decodeQueue
    ensures Erase(c).results == c.results
  {}

  lemma DispatchPrefillBare(c: Core, m: Engine, id: u64)
    requires Distinct(c.cluster) && Plain(c)
    ensures Plain(DispatchPrefill(c, m, id)) && Erase(DispatchPrefill(c, m, id)) == DispatchPrefill(Erase(c), m, id)
  {
    EraseSame(c);
    hide Plain, Erase, StartPrefill;
    QueuesBare(c, c.prefillQueue + [id], c.decodeQueue);
    if c.Idle(Prefill).Some? && id in c.inFlight { StartPrefillBare(c, m, id, c.Idle(Prefill).value); }
  }

  lemma DispatchDecodeBare(c: Core, m: Engine, id: u64)
    requires Distinct(c.cluster) && Plain(c)
    ensures Plain(DispatchDecode(c, m, id)) && Erase(DispatchDecode(c, m, id)) == DispatchDecode(Erase(c), m, id)
  {
    EraseSame(c);
    hide Plain, Erase, StartDecode;
    QueuesBare(c, c.prefillQueue, c.decodeQueue + [id]);
    if c.Idle(Decode).Some? && id in c.inFlight { StartDecodeBare(c, m, id, c.Idle(Decode).value); }
  }

  lemma {:induction false} AssignPrefillBare(c: Core, m: Engine)
    requires Distinct(c.cluster) && Plain(c)
    ensures Plain(AssignPrefill(c, m)) && Erase(AssignPrefill(c, m)) == AssignPrefill(Erase(c), m)
    decreases |c.prefillQueue|
  {
    EraseSame(c);
    hide Plain, Erase, StartPrefill;
    if c.prefillQueue != [] && c.Idle(Prefill).Some? {
      var id, rest := c.prefillQueue[0], c.(prefillQueue := c.prefillQueue[1..]);
      QueuesBare(c, c.prefillQueue[1..], c.decodeQueue);
      if id in rest.inFlight {
        StartPrefillBare(rest, m, id, c.Idle(Prefill).value);
        SameQueue(rest, m, id, c.Idle(Prefill).value);
        AssignPrefillBare(StartPrefill(rest, m, id, c.Idle(Prefill).value), m);
      } else {
        AssignPrefillBare(rest, m);
      }
    }
  }

  lemma SameQueue(c: Core, m: Engine, id: u64, g: GpuRef)
    requires id in c.inFlight && HasGpu(c.cluster, g)
    ensures StartPrefill(c, m, id, g).prefillQueue == c.prefillQueue
            && StartDecode(c, m, id, g).decodeQueue == c.decodeQueue
  {}

  lemma {:induction false} AssignDecodeBare(c: Core, m: Engine)
    requires Distinct(c.cluster) && Plain(c)
    ensures Plain(AssignDecode(c, m)) && Erase(AssignDecode(c, m)) == AssignDecode(Erase(c), m)
    decreases |c.decodeQueue|
  {
    EraseSame(c);
    hide Plain, Erase, StartDecode;
    if c.decodeQueue != [] && c.Idle(Decode).Some? {
      var id, rest := c.decodeQueue[0], c.(decodeQueue := c.decodeQueue[1..]);
      QueuesBare(c, c.prefillQueue, c.decodeQueue[1..]);
      if id in rest.inFlight {
        StartDecodeBare(rest, m, id, c.Idle(Decode).value);
        SameQueue(rest, m, id, c.Idle(Decode).value);
        AssignDecodeBare(StartDecode(rest, m, id, c.Idle(Decode).value), m);
      } else {
        AssignDecodeBare(rest, m);
      }
    }
  }

  lemma ReleaseBare(c: Core, g: GpuRef)
    requires Plain(c) && HasGpu(c.cluster, g)
    ensures Plain(Release(c, g)) && Erase(Release(c, g)) == Release(Erase(c), g)
  {}

  lemma FinishBare(c: Core, id: u64)
    requires Plain(c)
    ensures Plain(Finish(c, id)) && Erase(Finish(c, id)) == Finish(Erase(c), id)
  {
    if id in c.inFlight {
      SameMaps(Erase(Finish(c, id)).inFlight, Finish(Erase(c), id).inFlight);
    }
  }

  lemma TagBare(c: Core, id: u64)
    requires Plain(c) && id in c.inFlight
    ensures var f := c.inFlight[id]; var c' := Tag(c, id, f.req.promptTokens, f.fetchTier);
            Plain(c') && Erase(c') == Erase(c)
  {
    var f := c.inFlight[id];
    var c' := Tag(c, id, f.req.promptTokens, f.fetchTier);
    EraseUpdate(c.inFlight, id, c'.inFlight[id]);
    SameMaps(BareMap(c.inFlight)[id := Bare(f)], BareMap(c.inFlight));
    TagPlain(c, id);
    hide Plain, BareMap;
  }

  lemma TagPlain(c: Core, id: u64)
    requires Plain(c) && id in c.inFlight
    ensures Plain(Tag(c, id, c.inFlight[id].req.promptTokens, c.inFlight[id].fetchTier))
  {}

  lemma PopBare(c: Core, e: Ev)
    requires Plain(c)
    ensures Plain(Pop(c, e)) && Erase(Pop(c, e)) == Pop(Erase(c), e)
  {}

  // ---- turns ----

  /** An arrival with nothing to reuse is a miss. */
  lemma ArrivalBare<T>(w: World<T>, x: Setup<T>, id: u64)
    requires Distinct(w.core.cluster) && Plain(w.core) && id in w.core.inFlight
    ensures var c' := OnArrival(w, x, id).core;
            Plain(c') && Erase(c') == ED.OnArrival(Erase(w.core), x.engine, id)
  {
    var f := w.core.inFlight[id];
    assert FindPrefix(w.cache, f.req) == None;
    TagBare(w.core, id);
    hide Plain, Erase, DispatchPrefill;
    DispatchPrefillBare(Tag(w.core, id, f.req.promptTokens, f.fetchTier), x.engine, id);
  }

  lemma PrefillDoneBare(c: Core, m: Engine, id: u64, g: GpuRef)
    requires Distinct(c.cluster) && HasGpu(c.cluster, g) && Plain(c)
    ensures Plain(ED.OnPrefillDone(c, m, id, g))
            && Erase(ED.OnPrefillDone(c, m, id, g)) == ED.OnPrefillDone(Erase(c), m, id, g)
  {
    EraseSame(c);
    hide Plain, Erase, Release, DispatchDecode, AssignPrefill, AssignDecode;
    ReleaseBare(c, g);
    var c1 := Release(c, g);
    DispatchDecodeBare(c1, m, id);
    var c2 := DispatchDecode(c1, m, id);
    AssignPrefillBare(c2, m);
    AssignDecodeBare(AssignPrefill(c2, m), m);
  }

  lemma DecodeDoneBare(c: Core, m: Engine, id: u64, g: GpuRef)
    requires Distinct(c.cluster) && HasGpu(c.cluster, g) && Plain(c)
    ensures Plain(ED.OnDecodeDone(c, m, id, g))
            && Erase(ED.OnDecodeDone(c, m, id, g)) == ED.OnDecodeDone(Erase(c), m, id, g)
  {
    EraseSame(c);
    var c1 := Finish(Release(c, g), id);
    assert Distinct(c1.cluster);
    hide Plain, Erase, Release, Finish, AssignPrefill, AssignDecode;
    ReleaseBare(c, g);
    FinishBare(Release(c, g), id);
    AssignDecodeBare(c1, m);
    AssignPrefillBare(AssignDecode(c1, m), m);
  }

  /** Steady, and nothing to reuse. */
  ghost predicate SteadyPlain(c: Core) {
    CL.Steady(c) && Plain(c)
  }

  lemma ServeBare<T>(w: World<T>, x: Setup<T>, e: Ev)
    requires CanServe(w.core, e) && Plain(w.core) && !e.kind.FetchDone? && e.kind.id in w.core.inFlight
    ensures Plain(Serve(w, x, e).core)
    ensures ED.CanHandle(Erase(w.core), e) && Erase(Serve(w, x, e).core) == ED.Handle(Erase(w.core), x.engine, e)
  {
    EraseSame(w.core);
    hide Plain, Erase, OnArrival, OnPrefillDone, ED.OnArrival, ED.OnPrefillDone, ED.OnDecodeDone, HasGpu, Distinct;
    match e.kind {
      case RequestArrival(id) => ArrivalBare(w, x, id);
      case PrefillDone(id, g) =>
        CL.PrefillDoneCore(w, x, id, g);
        PrefillDoneBare(w.core, x.engine, id, g);
      case DecodeDone(id, g) => DecodeDoneBare(w.core, x.engine, id, g);
    }
  }

  lemma PendingIsInFlight(c: Core, e: Ev)
    requires CL.Steady(c) && e in c.sim.pending
    ensures e.kind.id in c.inFlight
  {
    assert e.kind.id in EventIds(c.sim.pending);
  }

  lemma TurnBare<T(!new)>(x: Setup<T>, w: World<T>, e: Ev, w': World<T>)
    requires SteadyPlain(w.core) && Turns(x)(w, e, w')
    ensures SteadyPlain(w'.core) && ED.Turns(x.engine)(Erase(w.core), e, Erase(w'.core))
  {
    assert !e.kind.FetchDone? && Turn(w, x, e, w');
    hide CL.Steady, Plain, Erase, Serve, ED.Handle, ED.CanHandle, Earliest;
    CL.TurnKeeps(w, x, e, w');
    PendingIsInFlight(w.core, e);
    EraseSame(w.core);
    PopBare(w.core, e);
    ServeBare(PopWorld(w, e), x, e);
  }

  /** The states of a run as the event-driven runner sees them. */
  function Erased<T>(worlds: seq<World<T>>): (r: seq<Core>)
    ensures |r| == |worlds| && forall i | 0 <= i < |r| :: r[i] == Erase(worlds[i].core)
  {
    seq<Core>(|worlds|, i requires 0 <= i < |worlds| => Erase(worlds[i].core))
  }

  lemma {:induction false} RunBare<T(!new)>(x: Setup<T>, worlds: seq<World<T>>, events: seq<Ev>, n: nat)
    requires IsTrace(Turns(x), worlds, events) && SteadyPlain(worlds[0].core) && n <= |events|
    ensures SteadyPlain(worlds[n].core)
    ensures forall i | 0 <= i < n :: ED.Turns(x.engine)(Erase(worlds[i].core), events[i], Erase(worlds[i+1].core))
  {
    hide *;
    if n > 0 {
      TraceStep(Turns(x), worlds, events, n - 1);
      RunBare(x, worlds, events, n - 1);
      TurnBare(x, worlds[n-1], events[n-1], worlds[n]);
    }
  }

  /** No turn of the trace could reuse anything. */
  ghost predicate NothingToReuse(rs: seq<Request>) {
    forall r | r in rs :: r.ReusedTokens() == 0
  }

  lemma LoadedEntryPlain(t: Topology, rs: seq<Request>, id: u64)
    requires NothingToReuse(rs) && id in Loaded(t, rs).inFlight
    ensures Whole(Loaded(t, rs).inFlight[id]) && Bare(Loaded(t, rs).inFlight[id]) == Loaded(t, rs).inFlight[id]
  {
    LoadedInFlight(t, rs);
    hide Loaded, Book;
    BookEntry(rs, id);
  }

  lemma LoadedNoFetch(t: Topology, rs: seq<Request>, e: Ev)
    requires e in Loaded(t, rs).sim.pending
    ensures !e.kind.FetchDone?
  {
    LoadedEvents(t, rs, e);
  }

  lemma LoadedPlain(t: Topology, rs: seq<Request>)
    requires ED.Servable(t, rs) && UniqueIds(rs) && NothingToReuse(rs)
    ensures SteadyPlain(Loaded(t, rs)) && Erase(Loaded(t, rs)) == Loaded(t, rs)
  {
    hide Loaded, CL.Steady, Book, NothingToReuse, UniqueIds, Whole, Bare, ED.Servable, Accounted;
    CL.LoadedSteady(t, rs);
    var c := Loaded(t, rs);
    forall id | id in c.inFlight ensures Whole(c.inFlight[id]) && Bare(c.inFlight[id]) == c.inFlight[id] {
      LoadedEntryPlain(t, rs, id);
    }
    forall e | e in c.sim.pending ensures !e.kind.FetchDone? {
      LoadedNoFetch(t, rs, e);
    }
    SameMaps(Erase(c).inFlight, c.inFlight);
  }

  /** Without reuse, every run of the cache-aware runner is, state by state and event by event, a run of the
      event-driven runner on the same trace, with the same results. */
  lemma CacheMakesNoDifference<T(!new)>(t: Topology, rs: seq<Request>, x: Setup<T>, worlds: seq<World<T>>,
                                        events: seq<Ev>)
    requires ED.Servable(t, rs) && UniqueIds(rs) && NothingToReuse(rs)
    requires IsTrace(Turns(x), worlds, events) && worlds[0].core == Loaded(t, rs)
    ensures IsTrace(ED.Turns(x.engine), Erased(worlds), events) && Erased(worlds)[0] == Loaded(t, rs)
    ensures forall i | 0 <= i <= |events| ::
              Erased(worlds)[i].results == worlds[i].core.results && Erased(worlds)[i].sim == worlds[i].core.sim
  {
    hide Turns, SteadyPlain, ED.Turns, ED.Servable, Loaded;
    LoadedPlain(t, rs);
    hide Erase;
    RunBare(x, worlds, events, |events|);
    forall i | 0 <= i <= |events|
      ensures Erased(worlds)[i].results == worlds[i].core.results && Erased(worlds)[i].sim == worlds[i].core.sim
    {
      EraseSame(worlds[i].core);
    }
  }

  /** Hence the cache-aware runner too reports the two-stage closed form, and what the closed-form baseline reports if
      and only if the two start every decode at the same moment. */
  lemma BaselineWithoutReuse<T(!new)>(t: Topology, requests: seq<Request>, x: Setup<T>, worlds: seq<World<T>>,
                                      events: seq<Ev>)
    requires Distinct(t) && Equivalence.FreshCluster(t) && Fcfs.Disaggregated(t)
    requires Equivalence.GpuCount(t, Prefill) >= 1 && Equivalence.GpuCount(t, Decode) >= 1
    requires UniqueIds(requests) && |requests| < MAX64 && NothingToReuse(requests)
    requires var p := Equivalence.PlanFor(x.engine, Equivalence.GpuCount(t, Prefill), Equivalence.GpuCount(t, Decode), requests);
             p.Fits() && p.NoTies()
    requires IsTrace(Turns(x), worlds, events) && worlds[0].core == Loaded(t, SortBy(requests, RequestKey))
    requires worlds[|events|].core.sim.pending == {}
    ensures var p := Equivalence.PlanFor(x.engine, Equivalence.GpuCount(t, Prefill), Equivalence.GpuCount(t, Decode), requests);
            var reported := SortBy(worlds[|events|].core.results, ResultKey);
            && reported == p.Results()
            && (reported == NR.ServeAll(x.engine, p.w, p.rs) <==> p.SameStarts())
  {
    var rs := SortBy(requests, RequestKey);
    hide *;
    Equivalence.SortKeepsUnique(requests);
    Equivalence.FreshIsRested(t, rs);
    RestedIsServable(t, rs);
    SortedReusesNothing(requests);
    CacheMakesNoDifference(t, rs, x, worlds, events);
    RunLength(Turns(x), worlds, events);
    Equivalence.ReportsTwoStage(t, x.engine, requests, Erased(worlds), events);
    Equivalence.EquivalentIff(t, x.engine, requests, Erased(worlds), events);
  }

  lemma RestedIsServable(t: Topology, rs: seq<Request>)
    requires ED.Rested(t, rs)
    ensures ED.Servable(t, rs)
  {}

  lemma RunLength<S(!new), E(!new)>(step: (S, E, S) -> bool, states: seq<S>, events: seq<E>)
    requires IsTrace(step, states, events)
    ensures |states| == |events| + 1
  {}

  lemma SortedReusesNothing(requests: seq<Request>)
    requires NothingToReuse(requests)
    ensures NothingToReuse(SortBy(requests, RequestKey))
  {
    var rs := SortBy(requests, RequestKey);
    forall r | r in rs ensures r.ReusedTokens() == 0 {
      assert r in multiset(rs);
      assert r in requests;
    }
  }
}
