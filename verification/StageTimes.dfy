/** How long the stages take: in every run of both runners and in the baseline, ties, repeated ids and late GPUs
    included. */
module StageTimes {
  import opened Numbers
  import opened Simulation
  import opened Cluster
  import opened Requests
  import opened Tiers
  import opened Machine
  import opened Lifecycle
  import ED = EventDriven
  import opened Traces
  import opened CacheRunner
  import CT = CacheTieFree
  import CL = CacheLifecycle
  import NR = NoReuse
  import Cache

  // ---- what the times are ----

  /** The moment that many equal steps later, at the latest the end of the clock. */
  function AfterSteps(start: nat, steps: nat, each: nat): u64 {
    assert 0 <= steps * each;
    Cap(start + steps * each)
  }

  /** The first token comes one decode step after the start, the last one after as many steps as there are tokens; a
      step is that of the configured batch at this prompt length. */
  predicate DecodeTimes(m: Engine, r: Request, start: u64, firstToken: u64, finish: u64) {
    && firstToken == Cap(start + m.decodeStep(m.batch, r.promptTokens))
    && finish == AfterSteps(start, r.outputTokens, m.decodeStep(m.batch, r.promptTokens))
  }

  /** Prefill over the whole prompt. */
  predicate PrefillTimes(m: Engine, r: Request, start: u64, done: u64) {
    done == Cap(start + m.prefillTime(r.promptTokens))
  }

  predicate ResultTimes(m: Engine, o: RequestResult, whole: bool) {
    && o.firstToken == Cap(o.decodeStart + m.decodeStep(m.batch, o.promptTokens))
    && o.finish == AfterSteps(o.decodeStart, o.outputTokens, m.decodeStep(m.batch, o.promptTokens))
    && (whole ==> o.prefillDone == Cap(o.prefillStart + m.prefillTime(o.promptTokens)))
  }

  // ---- the invariant ----

  /** The stamps of a request in flight; with `whole`, every prefill is over the whole prompt and precedes decode. */
  predicate Stamped(m: Engine, f: InFlight, whole: bool) {
    && (f.decodeStart.Some? ==>
          f.firstToken.Some? && f.finish.Some?
          && DecodeTimes(m, f.req, f.decodeStart.value, f.firstToken.value, f.finish.value))
    && (whole ==>
          && f.prefillTokens == 0
          && (f.prefillStart.Some? ==>
                f.prefillDone.Some? && PrefillTimes(m, f.req, f.prefillStart.value, f.prefillDone.value))
          && (f.decodeStart.Some? ==> f.prefillStart.Some?))
  }

  /** A pending end of a stage finds the stage started, and so does the decode queue. */
  ghost predicate Underway(c: Core, whole: bool) {
    && (forall e | e in c.sim.pending && e.kind.DecodeDone? && e.kind.id in c.inFlight ::
          c.inFlight[e.kind.id].decodeStart.Some?)
    && (whole ==> forall e | e in c.sim.pending && e.kind.PrefillDone? && e.kind.id in c.inFlight ::
          c.inFlight[e.kind.id].prefillStart.Some?)
    && (whole ==> forall id | id in c.decodeQueue && id in c.inFlight :: c.inFlight[id].prefillStart.Some?)
  }

  ghost predicate Clocked(m: Engine, c: Core, whole: bool) {
    && (forall id | id in c.inFlight :: c.inFlight[id].req.id == id && Stamped(m, c.inFlight[id], whole))
    && Underway(c, whole)
    && (forall o | o in c.results :: ResultTimes(m, o, whole))
  }

  // ---- the steps ----

  lemma CapTwice(a: nat, b: nat)
    ensures Cap(a + Cap(b)) == Cap(a + b)
  {}

  lemma DecodeStamps(m: Engine, r: Request, start: u64)
    ensures var step := m.StepFor(r.promptTokens);
            DecodeTimes(m, r, start, SatAdd(start, step), SatAdd(start, SatMul(step, r.outputTokens)))
  {
    var step := m.StepFor(r.promptTokens);
    assert step * r.outputTokens == r.outputTokens * step;
    CapTwice(start, step * r.outputTokens);
  }

  lemma StartPrefillClocked(c: Core, m: Engine, id: u64, g: GpuRef, whole: bool)
    requires Clocked(m, c, whole) && id in c.inFlight && HasGpu(c.cluster, g)
    ensures Clocked(m, StartPrefill(c, m, id, g), whole)
  {
    hide HasGpu, SetBusy, DecodeTimes, ResultTimes;
  }

  lemma StartDecodeClocked(c: Core, m: Engine, id: u64, g: GpuRef, whole: bool)
    requires Clocked(m, c, whole) && id in c.inFlight && HasGpu(c.cluster, g)
    requires whole ==> c.inFlight[id].prefillStart.Some?
    ensures Clocked(m, StartDecode(c, m, id, g), whole)
  {
    DecodeStamps(m, c.inFlight[id].req, c.Now());
    hide HasGpu, SetBusy, DecodeTimes, ResultTimes, Engine.StepFor, PrefillTimes;
  }

  lemma DispatchPrefillClocked(c: Core, m: Engine, id: u64, whole: bool)
    requires Clocked(m, c, whole) && Distinct(c.cluster)
    ensures Clocked(m, DispatchPrefill(c, m, id), whole)
  {
    hide StartPrefill, Stamped, ResultTimes, Distinct;
    if c.Idle(Prefill).Some? && id in c.inFlight { StartPrefillClocked(c, m, id, c.Idle(Prefill).value, whole); }
  }

  lemma DispatchDecodeClocked(c: Core, m: Engine, id: u64, whole: bool)
    requires Clocked(m, c, whole) && Distinct(c.cluster)
    requires whole && id in c.inFlight ==> c.inFlight[id].prefillStart.Some?
    ensures Clocked(m, DispatchDecode(c, m, id), whole)
  {
    hide StartDecode, Stamped, ResultTimes, Distinct;
    if c.Idle(Decode).Some? && id in c.inFlight { StartDecodeClocked(c, m, id, c.Idle(Decode).value, whole); }
  }

  lemma QueueClocked(c: Core, m: Engine, pq: seq<u64>, dq: seq<u64>, whole: bool)
    requires Clocked(m, c, whole) && forall id | id in dq :: id in c.decodeQueue
    ensures Clocked(m, c.(prefillQueue := pq, decodeQueue := dq), whole)
  {
    hide Stamped, ResultTimes;
  }

  lemma {:induction false} AssignPrefillClocked(c: Core, m: Engine, whole: bool)
    requires Clocked(m, c, whole) && Distinct(c.cluster)
    ensures Clocked(m, AssignPrefill(c, m), whole)
    decreases |c.prefillQueue|
  {
    hide Clocked, StartPrefill, FindIdle, Distinct, HasGpu;
    if c.prefillQueue != [] && c.Idle(Prefill).Some? {
      var id, rest := c.prefillQueue[0], c.(prefillQueue := c.prefillQueue[1..]);
      QueueClocked(c, m, c.prefillQueue[1..], c.decodeQueue, whole);
      if id in rest.inFlight {
        StartPrefillClocked(rest, m, id, c.Idle(Prefill).value, whole);
        CT.StartGrows(rest, m, id, c.Idle(Prefill).value);
        AssignPrefillClocked(StartPrefill(rest, m, id, c.Idle(Prefill).value), m, whole);
      } else {
        AssignPrefillClocked(rest, m, whole);
      }
    }
  }

  lemma QueuedIsPrefilled(c: Core, m: Engine, id: u64, whole: bool)
    requires Clocked(m, c, whole) && id in c.decodeQueue && id in c.inFlight
    ensures whole ==> c.inFlight[id].prefillStart.Some?
  {
    hide Stamped, ResultTimes;
  }

  lemma {:induction false} AssignDecodeClocked(c: Core, m: Engine, whole: bool)
    requires Clocked(m, c, whole) && Distinct(c.cluster)
    ensures Clocked(m, AssignDecode(c, m), whole)
    decreases |c.decodeQueue|
  {
    hide Clocked, StartDecode, FindIdle, Distinct, HasGpu;
    if c.decodeQueue != [] && c.Idle(Decode).Some? {
      var id, rest := c.decodeQueue[0], c.(decodeQueue := c.decodeQueue[1..]);
      QueueClocked(c, m, c.prefillQueue, c.decodeQueue[1..], whole);
      if id in rest.inFlight {
        QueuedIsPrefilled(c, m, id, whole);
        StartDecodeClocked(rest, m, id, c.Idle(Decode).value, whole);
        CT.StartGrows(rest, m, id, c.Idle(Decode).value);
        AssignDecodeClocked(StartDecode(rest, m, id, c.Idle(Decode).value), m, whole);
      } else {
        AssignDecodeClocked(rest, m, whole);
      }
    }
  }

  lemma FinishClocked(c: Core, m: Engine, id: u64, whole: bool)
    requires Clocked(m, c, whole)
    requires id in c.inFlight ==> c.inFlight[id].decodeStart.Some?
    ensures Clocked(m, Finish(c, id), whole)
  {
    if id in c.inFlight {
      var f := c.inFlight[id];
      assert Stamped(m, f, whole) && ResultTimes(m, f.IntoResult(), whole);
    }
    hide Stamped, ResultTimes;
  }

  lemma SameClocked(a: Core, b: Core, m: Engine, whole: bool)
    requires Clocked(m, a, whole) && b.inFlight == a.inFlight && b.results == a.results
    requires forall e | e in b.sim.pending && e !in a.sim.pending :: !e.kind.Completes()
    requires b.decodeQueue == a.decodeQueue
    ensures Clocked(m, b, whole)
  {
    hide Stamped, ResultTimes;
  }

  // ---- the event-driven runner ----

  lemma HandleClocked(c: Core, m: Engine, e: Ev)
    requires Clocked(m, c, true) && e in c.sim.pending && ED.CanHandle(Pop(c, e), e)
    ensures Clocked(m, ED.Handle(Pop(c, e), m, e), true)
  {
    var p := Pop(c, e);
    assert Underway(c, true) && p.inFlight == c.inFlight;
    SameClocked(c, p, m, true);
    match e.kind
    case RequestArrival(id) =>
      hide Clocked, DispatchPrefill;
      DispatchPrefillClocked(p, m, id, true);
    case PrefillDone(id, g) =>
      var c1 := Release(p, g);
      assert id in c1.inFlight ==> c1.inFlight[id].prefillStart.Some?;
      SameClocked(p, c1, m, true);
      hide Clocked, DispatchDecode, AssignPrefill, AssignDecode, Release;
      DispatchDecodeClocked(c1, m, id, true);
      var c2 := DispatchDecode(c1, m, id);
      AssignPrefillClocked(c2, m, true);
      AssignDecodeClocked(AssignPrefill(c2, m), m, true);
    case DecodeDone(id, g) =>
      var c1 := Release(p, g);
      assert id in c1.inFlight ==> c1.inFlight[id].decodeStart.Some?;
      SameClocked(p, c1, m, true);
      hide Clocked, AssignPrefill, AssignDecode;
      FinishClocked(c1, m, id, true);
      var c2 := Finish(c1, id);
      AssignDecodeClocked(c2, m, true);
      AssignPrefillClocked(AssignDecode(c2, m), m, true);
  }

  lemma TurnClocked(m: Engine, c: Core, e: Ev, c': Core)
    requires Clocked(m, c, true) && ED.Turns(m)(c, e, c')
    ensures Clocked(m, c', true)
  {
    assert ED.Turn(c, m, e, c');
    hide Clocked, ED.Handle, Earliest;
    HandleClocked(c, m, e);
  }

  lemma {:induction false} RunClocked(m: Engine, states: seq<Core>, events: seq<Ev>, n: nat)
    requires IsTrace(ED.Turns(m), states, events) && Clocked(m, states[0], true) && n <= |events|
    ensures Clocked(m, states[n], true)
  {
    hide *;
    if n > 0 {
      TraceStep(ED.Turns(m), states, events, n - 1);
      RunClocked(m, states, events, n - 1);
      TurnClocked(m, states[n-1], events[n-1], states[n]);
    }
  }

  lemma LoadedClocked(t: Topology, rs: seq<Request>, m: Engine, whole: bool)
    ensures Clocked(m, Loaded(t, rs), whole)
  {
    var c := Loaded(t, rs);
    LoadedQuiet(t, rs);
    LoadedInFlight(t, rs);
    forall e | e in c.sim.pending ensures e.kind.RequestArrival? {
      LoadedEvents(t, rs, e);
    }
    forall id | id in c.inFlight ensures c.inFlight[id].req.id == id {
      BookEntry(rs, id);
    }
    hide Loaded, Book, DecodeTimes, PrefillTimes;
  }

  /** In every run of the event-driven runner, on any trace and any cluster, each result reports a prefill over its whole
      prompt, a first token one decode step after the decode began, and a finish after one step for each token. */
  lemma EventDrivenTimes(t: Topology, rs: seq<Request>, m: Engine, states: seq<Core>, events: seq<Ev>, n: nat)
    requires IsTrace(ED.Turns(m), states, events) && states[0] == Loaded(t, rs) && n <= |events|
    ensures forall o | o in states[n].results ::
              && o.prefillDone == Cap(o.prefillStart + m.prefillTime(o.promptTokens))
              && o.firstToken == Cap(o.decodeStart + m.decodeStep(m.batch, o.promptTokens))
              && o.finish == AfterSteps(o.decodeStart, o.outputTokens, m.decodeStep(m.batch, o.promptTokens))
  {
    hide ED.Turns, Loaded, Underway, Stamped;
    LoadedClocked(t, rs, m, true);
    RunClocked(m, states, events, n);
    forall o | o in states[n].results ensures ResultTimes(m, o, true) {}
  }

  // ---- the cache-aware runner ----

  lemma TagClocked(c: Core, m: Engine, id: u64, tokens: u32, tier: Option<TierKind>)
    requires Clocked(m, c, false) && id in c.inFlight
    ensures Clocked(m, Tag(c, id, tokens, tier), false)
  {
    hide DecodeTimes, ResultTimes, PrefillTimes;
  }

  lemma StepClocked(c: Core, m: Engine, id: u64, c': Core)
    requires Clocked(m, c, false) && CT.Steps(c, m, id, c')
    ensures Clocked(m, c', false)
  {
    hide Clocked, DispatchDecode, DispatchPrefill, Tag;
    if c' == DispatchDecode(c, m, id) {
      DispatchDecodeClocked(c, m, id, false);
    } else {
      var tokens: u32, tier :| CT.Sent(c, m, id, tokens, tier, c');
      var c1 := Tag(c, id, tokens, tier);
      TagClocked(c, m, id, tokens, tier);
      CT.TagSameWork(c, id, tokens, tier);
      if c' == DispatchPrefill(c1, m, id) {
        DispatchPrefillClocked(c1, m, id, false);
      } else {
        var finish: u64 :| c' == AwaitFetch(c1, id, finish);
        SameClocked(c1, c', m, false);
      }
    }
  }

  lemma FetchDoneClocked<T>(w: World<T>, x: Setup<T>, id: u64)
    requires Clocked(x.engine, w.core, false) && Distinct(w.core.cluster)
    ensures Clocked(x.engine, OnFetchDone(w, x, id).core, false)
  {
    hide Clocked, AssignPrefill, AssignDecode, PrefillRest, Tag, CT.Steps;
    if id in w.core.inFlight {
      CT.FetchParts(w, x, id);
      var w1 := Credit(w, id);
      TagClocked(w.core, x.engine, id, w.core.inFlight[id].prefillTokens, None);
      CT.PrefillRestSteps(w1, x, id);
      var c2 := PrefillRest(w1, x, id).core;
      StepClocked(w1.core, x.engine, id, c2);
      AssignDecodeClocked(c2, x.engine, false);
      AssignPrefillClocked(AssignDecode(c2, x.engine), x.engine, false);
    } else {
      AssignDecodeClocked(w.core, x.engine, false);
      AssignPrefillClocked(AssignDecode(w.core, x.engine), x.engine, false);
    }
  }

  lemma PrefillDoneClocked<T>(w: World<T>, x: Setup<T>, id: u64, g: GpuRef)
    requires Clocked(x.engine, w.core, false) && Distinct(w.core.cluster) && HasGpu(w.core.cluster, g)
    ensures Clocked(x.engine, OnPrefillDone(w, x, id, g).core, false)
  {
    var c1 := Release(w.core, g);
    SameClocked(w.core, c1, x.engine, false);
    hide Clocked, AssignPrefill, AssignDecode, DispatchDecode, Release, OnPrefillDone, HasGpu;
    CL.PrefillDoneCore(w, x, id, g);
    DispatchDecodeClocked(c1, x.engine, id, false);
    var c2 := DispatchDecode(c1, x.engine, id);
    AssignPrefillClocked(c2, x.engine, false);
    AssignDecodeClocked(AssignPrefill(c2, x.engine), x.engine, false);
  }

  lemma DecodeDoneClocked<T>(w: World<T>, x: Setup<T>, id: u64, g: GpuRef)
    requires Clocked(x.engine, w.core, false) && Distinct(w.core.cluster) && HasGpu(w.core.cluster, g)
    requires id in w.core.inFlight ==> w.core.inFlight[id].decodeStart.Some?
    ensures Clocked(x.engine, OnDecodeDone(w, x, id, g).core, false)
  {
    var c1 := Release(w.core, g);
    SameClocked(w.core, c1, x.engine, false);
    assert c1.inFlight == w.core.inFlight;
    hide Clocked, AssignPrefill, AssignDecode, HasGpu;
    FinishClocked(c1, x.engine, id, false);
    var c2 := Finish(c1, id);
    AssignDecodeClocked(c2, x.engine, false);
    AssignPrefillClocked(AssignDecode(c2, x.engine), x.engine, false);
  }

  lemma ServeClocked<T(!new)>(x: Setup<T>, w: World<T>, e: Ev, w': World<T>)
    requires Clocked(x.engine, w.core, false) && Turns(x)(w, e, w')
    ensures Clocked(x.engine, w'.core, false)
  {
    assert Turn(w, x, e, w');
    var p := PopWorld(w, e);
    assert Underway(w.core, false) && p.core.inFlight == w.core.inFlight;
    SameClocked(w.core, p.core, x.engine, false);
    assert e.kind.DecodeDone? && e.kind.id in p.core.inFlight ==> p.core.inFlight[e.kind.id].decodeStart.Some?;
    hide Clocked, OnArrival, OnPrefillDone, OnFetchDone, OnDecodeDone, Earliest, CT.Steps;
    match e.kind {
      case RequestArrival(id) =>
        if id in p.core.inFlight {
          CT.ArrivalSteps(p, x, id);
          StepClocked(p.core, x.engine, id, OnArrival(p, x, id).core);
        } else {
          UnknownArrival(p, x, id);
        }
      case PrefillDone(id, g) => PrefillDoneClocked(p, x, id, g);
      case DecodeDone(id, g) => DecodeDoneClocked(p, x, id, g);
      case FetchDone(id) => FetchDoneClocked(p, x, id);
    }
  }

  lemma UnknownArrival<T>(w: World<T>, x: Setup<T>, id: u64)
    requires Distinct(w.core.cluster) && id !in w.core.inFlight
    ensures OnArrival(w, x, id) == w
  {}

  lemma {:induction false} CacheRunClocked<T(!new)>(x: Setup<T>, worlds: seq<World<T>>, events: seq<Ev>, n: nat)
    requires IsTrace(Turns(x), worlds, events) && Clocked(x.engine, worlds[0].core, false) && n <= |events|
    ensures Clocked(x.engine, worlds[n].core, false)
  {
    hide *;
    if n > 0 {
      TraceStep(Turns(x), worlds, events, n - 1);
      CacheRunClocked(x, worlds, events, n - 1);
      ServeClocked(x, worlds[n-1], events[n-1], worlds[n]);
    }
  }

  /** The decode times hold in every run of the cache-aware runner too, whatever policy, cache and transfers do. How long
      its prefills take is said by `CachePrefills.PrefillDurations`. */
  lemma CacheAwareTimes<T(!new)>(t: Topology, rs: seq<Request>, x: Setup<T>, worlds: seq<World<T>>, events: seq<Ev>,
                                 n: nat)
    requires IsTrace(Turns(x), worlds, events) && worlds[0].core == Loaded(t, rs) && n <= |events|
    ensures forall o | o in worlds[n].core.results ::
              && o.firstToken == Cap(o.decodeStart + x.engine.decodeStep(x.engine.batch, o.promptTokens))
              && o.finish ==
                   AfterSteps(o.decodeStart, o.outputTokens, x.engine.decodeStep(x.engine.batch, o.promptTokens))
  {
    hide Turns, Loaded, Underway, Stamped;
    LoadedClocked(t, rs, x.engine, false);
    CacheRunClocked(x, worlds, events, n);
    forall o | o in worlds[n].core.results ensures ResultTimes(x.engine, o, false) {}
  }

  // ---- the baseline ----

  /** The same stages in the baseline, result by result. */
  lemma BaselineTimes(m: Engine, w: NR.Workers, rs: seq<Request>, i: nat)
    requires w.Valid() && i < |rs|
    ensures var o := NR.ServeAll(m, w, rs)[i];
            && o.prefillDone == Cap(o.prefillStart + m.prefillTime(rs[i].promptTokens))
            && o.firstToken == Cap(o.decodeStart + m.decodeStep(m.batch, rs[i].promptTokens))
            && o.finish == AfterSteps(o.decodeStart, rs[i].outputTokens, m.decodeStep(m.batch, rs[i].promptTokens))
  {
    NR.ServedAt(m, w, rs, |rs|, i);
    DecodeStamps(m, rs[i], NR.Outcome(m, w, rs, i).decodeStart);
    hide NR.Met;
  }
}
