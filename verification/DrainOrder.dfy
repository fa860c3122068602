/** Which queue a GPU for both roles serves first: the order in which the handlers drain the queues decides it. */
module DrainOrder {
  import opened Numbers
  import opened Simulation
  import opened Cluster
  import opened Requests
  import opened Machine
  import opened Lifecycle
  import opened Traces
  import ED = EventDriven
  import opened TieFree
  import opened CacheRunner
  import CT = CacheTieFree
  import CL = CacheLifecycle
  import CM = CacheMoves

  /** `g` is free and serves both roles, and nobody else is free for either. */
  ghost predicate Lone(c: Core, g: GpuRef) {
    && HasGpu(c.cluster, g) && GpuAt(c.cluster, g).role == Unified && GpuAt(c.cluster, g).busyUntil <= c.Now()
    && forall h: GpuRef | HasGpu(c.cluster, h) && h != g ::
         !IdleFor(GpuAt(c.cluster, h), c.Now(), Prefill) && !IdleFor(GpuAt(c.cluster, h), c.Now(), Decode)
  }

  lemma LoneIsFound(c: Core, g: GpuRef)
    requires Distinct(c.cluster) && Lone(c, g)
    ensures c.Idle(Prefill) == Some(g) && c.Idle(Decode) == Some(g)
  {
    assert IdleFor(GpuAt(c.cluster, g), c.Now(), Prefill) && IdleFor(GpuAt(c.cluster, g), c.Now(), Decode);
  }

  /** With the lone GPU taken for a while, nobody is free. */
  lemma LoneIsTaken(c: Core, g: GpuRef, c': Core, until: u64)
    requires Distinct(c.cluster) && Lone(c, g) && c'.cluster == SetBusy(c.cluster, g, until) && c'.Now() == c.Now()
    requires c.Now() < until
    ensures Distinct(c'.cluster) && c'.Idle(Prefill).None? && c'.Idle(Decode).None?
  {
    forall h: GpuRef | HasGpu(c'.cluster, h)
      ensures !IdleFor(GpuAt(c'.cluster, h), c.Now(), Prefill) && !IdleFor(GpuAt(c'.cluster, h), c.Now(), Decode)
    {}
    hide SetBusy;
  }

  /** The head of the decode queue begins on `g`. */
  function DecodeHead(c: Core, m: Engine, g: GpuRef): Core
    requires HasGpu(c.cluster, g) && c.decodeQueue != [] && c.decodeQueue[0] in c.inFlight
  {
    StartDecode(c.(decodeQueue := c.decodeQueue[1..]), m, c.decodeQueue[0], g)
  }

  /** The head of the prefill queue begins on `g`. */
  function PrefillHead(c: Core, m: Engine, g: GpuRef): Core
    requires HasGpu(c.cluster, g) && c.prefillQueue != [] && c.prefillQueue[0] in c.inFlight
  {
    StartPrefill(c.(prefillQueue := c.prefillQueue[1..]), m, c.prefillQueue[0], g)
  }

  lemma NobodyFree(c: Core, m: Engine)
    requires Distinct(c.cluster) && c.Idle(Prefill).None? && c.Idle(Decode).None?
    ensures AssignPrefill(c, m) == c && AssignDecode(c, m) == c
  {
    hide FindIdle, Distinct;
  }

  lemma DecodeHeadEffect(c: Core, m: Engine, g: GpuRef)
    requires HasGpu(c.cluster, g) && c.decodeQueue != [] && c.decodeQueue[0] in c.inFlight
    ensures var c', id := DecodeHead(c, m, g), c.decodeQueue[0];
            && id in c'.inFlight && c'.inFlight[id].finish.Some? && c'.inFlight[id].decodeStart == Some(c.Now())
            && c'.inFlight[id].decodeGpu == Some(g)
            && c'.cluster == SetBusy(c.cluster, g, c'.inFlight[id].finish.value) && c'.Now() == c.Now()
            && Event(c'.inFlight[id].finish.value, c.sim.nextSeq, DecodeDone(c.inFlight[id].req.id, g)) in c'.sim.pending
            && c'.decodeQueue == c.decodeQueue[1..] && c'.prefillQueue == c.prefillQueue
  {
    hide SetBusy, HasGpu;
  }

  lemma PrefillHeadEffect(c: Core, m: Engine, g: GpuRef)
    requires HasGpu(c.cluster, g) && c.prefillQueue != [] && c.prefillQueue[0] in c.inFlight
    ensures var c', id := PrefillHead(c, m, g), c.prefillQueue[0];
            && id in c'.inFlight && c'.inFlight[id].prefillDone.Some? && c'.inFlight[id].prefillStart == Some(c.Now())
            && c'.inFlight[id].prefillGpu == Some(g)
            && c'.cluster == SetBusy(c.cluster, g, c'.inFlight[id].prefillDone.value) && c'.Now() == c.Now()
            && c'.prefillQueue == c.prefillQueue[1..] && c'.decodeQueue == c.decodeQueue
  {
    hide SetBusy, HasGpu;
  }

  /** Decode drained first: the lone GPU goes to the head of the decode queue, and prefill gets nothing, as long as the
      decode takes any time. */
  lemma DecodeFirst(c: Core, m: Engine, g: GpuRef)
    requires Distinct(c.cluster) && Lone(c, g) && c.decodeQueue != [] && c.decodeQueue[0] in c.inFlight
    requires c.Now() < Or(DecodeHead(c, m, g).inFlight[c.decodeQueue[0]].finish, 0)
    ensures AssignPrefill(AssignDecode(c, m), m) == DecodeHead(c, m, g)
  {
    var c' := DecodeHead(c, m, g);
    LoneIsFound(c, g);
    DecodeHeadEffect(c, m, g);
    LoneIsTaken(c, g, c', c'.inFlight[c.decodeQueue[0]].finish.value);
    hide FindIdle, Lone, StartDecode, SetBusy, HasGpu, Distinct, DecodeHead;
    NobodyFree(c', m);
    DecodeHeadIsNext(c, m, g);
  }

  lemma DecodeHeadIsNext(c: Core, m: Engine, g: GpuRef)
    requires Distinct(c.cluster) && c.Idle(Decode) == Some(g) && HasGpu(c.cluster, g) && c.decodeQueue != []
    requires c.decodeQueue[0] in c.inFlight
    ensures Distinct(DecodeHead(c, m, g).cluster) && AssignDecode(c, m) == AssignDecode(DecodeHead(c, m, g), m)
  {
    hide FindIdle;
    CM.AssignDecodeQueue(c, m, DecodeHead(c, m, g));
  }

  /** Prefill drained first: the other way round. */
  lemma PrefillFirst(c: Core, m: Engine, g: GpuRef)
    requires Distinct(c.cluster) && Lone(c, g) && c.prefillQueue != [] && c.prefillQueue[0] in c.inFlight
    requires c.Now() < Or(PrefillHead(c, m, g).inFlight[c.prefillQueue[0]].prefillDone, 0)
    ensures AssignDecode(AssignPrefill(c, m), m) == PrefillHead(c, m, g)
  {
    var c' := PrefillHead(c, m, g);
    LoneIsFound(c, g);
    PrefillHeadEffect(c, m, g);
    LoneIsTaken(c, g, c', c'.inFlight[c.prefillQueue[0]].prefillDone.value);
    hide FindIdle, Lone, StartPrefill, SetBusy, HasGpu, Distinct, PrefillHead;
    NobodyFree(c', m);
    PrefillHeadIsNext(c, m, g);
  }

  lemma PrefillHeadIsNext(c: Core, m: Engine, g: GpuRef)
    requires Distinct(c.cluster) && c.Idle(Prefill) == Some(g) && HasGpu(c.cluster, g) && c.prefillQueue != []
    requires c.prefillQueue[0] in c.inFlight
    ensures Distinct(PrefillHead(c, m, g).cluster) && AssignPrefill(c, m) == AssignPrefill(PrefillHead(c, m, g), m)
  {
    hide FindIdle;
    CM.AssignPrefillQueue(c, m, PrefillHead(c, m, g));
  }

  // ---- any state ----

  /** An arrival starts at once exactly when a GPU is idle for it, whoever waits, and joins the end of the queue
      otherwise. */
  lemma ArrivalIffIdle(c: Core, m: Engine, id: u64)
    requires Distinct(c.cluster) && id in c.inFlight
    ensures var c' := ED.OnArrival(c, m, id);
            && id in c'.inFlight
            && (c.Idle(Prefill).Some? ==> c'.inFlight[id].prefillStart == Some(c.Now())
                                          && c'.inFlight[id].prefillGpu == c.Idle(Prefill)
                                          && c'.prefillQueue == c.prefillQueue)
            && (c.Idle(Prefill).None? ==> c' == c.(prefillQueue := c.prefillQueue + [id]))
  {
    hide SetBusy, HasGpu, FindIdle;
  }

  /** Draining goes on until the queue is empty or nobody is idle, past entries that are no longer in flight. */
  lemma {:induction false} PrefillDrains(c: Core, m: Engine)
    requires Distinct(c.cluster)
    ensures var c' := AssignPrefill(c, m); c'.prefillQueue == [] || c'.Idle(Prefill).None?
    decreases |c.prefillQueue|
  {
    hide FindIdle, StartPrefill, Distinct, HasGpu;
    if c.prefillQueue != [] && c.Idle(Prefill).Some? {
      var id, rest := c.prefillQueue[0], c.(prefillQueue := c.prefillQueue[1..]);
      if id in rest.inFlight {
        CT.StartGrows(rest, m, id, c.Idle(Prefill).value);
        PrefillDrains(StartPrefill(rest, m, id, c.Idle(Prefill).value), m);
      } else {
        PrefillDrains(rest, m);
      }
    }
  }

  lemma {:induction false} DecodeDrains(c: Core, m: Engine)
    requires Distinct(c.cluster)
    ensures var c' := AssignDecode(c, m); c'.decodeQueue == [] || c'.Idle(Decode).None?
    decreases |c.decodeQueue|
  {
    hide FindIdle, StartDecode, Distinct, HasGpu;
    if c.decodeQueue != [] && c.Idle(Decode).Some? {
      var id, rest := c.decodeQueue[0], c.(decodeQueue := c.decodeQueue[1..]);
      if id in rest.inFlight {
        CT.StartGrows(rest, m, id, c.Idle(Decode).value);
        DecodeDrains(StartDecode(rest, m, id, c.Idle(Decode).value), m);
      } else {
        DecodeDrains(rest, m);
      }
    }
  }

  // ---- the handlers ----

  /** When a decode ends and its GPU is the only free one, for both roles, the next decode starts there and the prefill
      queue stays as it is. */
  lemma DecodeDoneServesDecode(c: Core, m: Engine, id: u64, g: GpuRef)
    requires Distinct(c.cluster) && HasGpu(c.cluster, g)
    requires var c1 := Finish(Release(c, g), id);
             && Lone(c1, g) && c1.decodeQueue != [] && c1.decodeQueue[0] in c1.inFlight
             && c1.Now() < Or(DecodeHead(c1, m, g).inFlight[c1.decodeQueue[0]].finish, 0)
    ensures ED.OnDecodeDone(c, m, id, g) == DecodeHead(Finish(Release(c, g), id), m, g)
  {
    hide Lone, DecodeHead, Release, HasGpu;
    assert Distinct(Finish(Release(c, g), id).cluster);
    DecodeFirst(Finish(Release(c, g), id), m, g);
  }

  /** When a prefill ends and its request has been sent on to decode, a GPU that is then the only free one, for both
      roles, goes to the next prefill, and the decode queue stays as it is. */
  lemma PrefillDoneServesPrefill(c: Core, m: Engine, id: u64, g: GpuRef, h: GpuRef)
    requires Distinct(c.cluster) && HasGpu(c.cluster, g)
    requires var c1 := DispatchDecode(Release(c, g), m, id);
             && Lone(c1, h) && c1.prefillQueue != [] && c1.prefillQueue[0] in c1.inFlight
             && c1.Now() < Or(PrefillHead(c1, m, h).inFlight[c1.prefillQueue[0]].prefillDone, 0)
    ensures ED.OnPrefillDone(c, m, id, g) == PrefillHead(DispatchDecode(Release(c, g), m, id), m, h)
  {
    hide Lone, PrefillHead, Release, HasGpu, DispatchDecode;
    assert Distinct(DispatchDecode(Release(c, g), m, id).cluster);
    PrefillFirst(DispatchDecode(Release(c, g), m, id), m, h);
  }

  /** When a fetch ends and its request has been sent on, such a GPU goes to the next decode. */
  lemma FetchDoneServesDecode<T>(w: World<T>, x: Setup<T>, id: u64, h: GpuRef)
    requires Distinct(w.core.cluster) && id in w.core.inFlight && id in Credit(w, id).core.inFlight
    requires var c1 := PrefillRest(Credit(w, id), x, id).core;
             && Lone(c1, h) && c1.decodeQueue != [] && c1.decodeQueue[0] in c1.inFlight
             && c1.Now() < Or(DecodeHead(c1, x.engine, h).inFlight[c1.decodeQueue[0]].finish, 0)
    ensures OnFetchDone(w, x, id).core == DecodeHead(PrefillRest(Credit(w, id), x, id).core, x.engine, h)
  {
    hide Lone, DecodeHead, HasGpu, PrefillRest, Credit;
    CT.FetchParts(w, x, id);
    DecodeFirst(PrefillRest(Credit(w, id), x, id).core, x.engine, h);
  }

  // ---- runs ----

  /** With requests waiting for both roles, the end of a decode on a GPU for both leaves that one GPU free. */
  lemma OnlyThisOneFree(c: Core, e: Ev)
    requires Backed(c) && NoIdleWait(c) && e in c.sim.pending && Earliest(e, c.sim.pending) && e.kind.DecodeDone?
    requires Strict(Pop(c, e)) && c.Now() <= e.time && HasGpu(c.cluster, e.kind.gpu)
    requires GpuAt(c.cluster, e.kind.gpu).role == Unified && c.prefillQueue != [] && c.decodeQueue != []
    ensures Lone(Finish(Release(Pop(c, e), e.kind.gpu), e.kind.id), e.kind.gpu)
  {
    var g := e.kind.gpu;
    var c1 := Finish(Release(Pop(c, e), g), e.kind.id);
    assert c1.cluster == SetBusy(c.cluster, g, e.time) && c1.Now() == e.time;
    forall h: GpuRef | HasGpu(c1.cluster, h) && h != g
      ensures !IdleFor(GpuAt(c1.cluster, h), e.time, Prefill) && !IdleFor(GpuAt(c1.cluster, h), e.time, Decode)
    {
      StillBusy(c, e, h);
    }
    hide SetBusy;
  }

  lemma StillBusy(c: Core, e: Ev, h: GpuRef)
    requires Backed(c) && NoIdleWait(c) && e in c.sim.pending && Earliest(e, c.sim.pending) && e.kind.DecodeDone?
    requires Strict(Pop(c, e)) && c.Now() <= e.time && HasGpu(c.cluster, h) && h != e.kind.gpu
    requires c.prefillQueue != [] && c.decodeQueue != []
    ensures !IdleFor(GpuAt(c.cluster, h), e.time, Prefill) && !IdleFor(GpuAt(c.cluster, h), e.time, Decode)
  {
    assert !IdleFor(GpuAt(c.cluster, h), c.Now(), Prefill) && !IdleFor(GpuAt(c.cluster, h), c.Now(), Decode);
    if c.Now() < GpuAt(c.cluster, h).busyUntil {
      var f :| f in c.sim.pending && f.kind.CompletesOn(h) && f.time == GpuAt(c.cluster, h).busyUntil;
      assert f in Pop(c, e).sim.pending;
    }
  }

  /** The decode that starts is still pending afterwards, hence takes time in a tie-free run. */
  lemma HeadTakesTime(c: Core, m: Engine, g: GpuRef)
    requires Distinct(c.cluster) && Lone(c, g) && c.decodeQueue != [] && c.decodeQueue[0] in c.inFlight
    requires Strict(AssignPrefill(AssignDecode(c, m), m))
    ensures c.Now() < Or(DecodeHead(c, m, g).inFlight[c.decodeQueue[0]].finish, 0)
  {
    var c' := DecodeHead(c, m, g);
    LoneIsFound(c, g);
    DecodeHeadEffect(c, m, g);
    DecodeHeadIsNext(c, m, g);
    hide FindIdle, Lone, StartDecode, SetBusy, HasGpu, Distinct, DecodeHead;
    CT.AssignGrows(c', m);
  }

  /** Queued requests are in flight, and none of them is the one whose decode ends. */
  lemma QueuedInFlight(c: Core, e: Ev)
    requires Located(c, {}) && e in c.sim.pending && c.decodeQueue != []
    ensures c.decodeQueue[0] in c.inFlight && c.decodeQueue[0] != e.kind.id
  {
    assert c.decodeQueue[0] in Members(c.decodeQueue);
    assert e.kind.id in EventIds(c.sim.pending);
  }

  /** What every tie-free state of either runner gives. */
  lemma DecodeEndsStep(c: Core, m: Engine, e: Ev, c': Core)
    requires Located(c, {}) && Backed(c) && NoIdleWait(c) && c.Now() <= e.time
    requires e in c.sim.pending && Earliest(e, c.sim.pending) && e.kind.DecodeDone? && HasGpu(c.cluster, e.kind.gpu)
    requires Distinct(c.cluster) && c' == ED.OnDecodeDone(Pop(c, e), m, e.kind.id, e.kind.gpu)
    requires Strict(Pop(c, e)) && Strict(c')
    requires GpuAt(c.cluster, e.kind.gpu).role == Unified && c.prefillQueue != [] && c.decodeQueue != []
    ensures c.decodeQueue[0] in c'.inFlight
    ensures c'.inFlight[c.decodeQueue[0]].decodeStart == Some(e.time)
            && c'.inFlight[c.decodeQueue[0]].decodeGpu == Some(e.kind.gpu)
    ensures c'.decodeQueue == c.decodeQueue[1..] && c'.prefillQueue == c.prefillQueue
  {
    var id, g := e.kind.id, e.kind.gpu;
    var c1 := Finish(Release(Pop(c, e), g), id);
    OnlyThisOneFree(c, e);
    QueuedInFlight(c, e);
    assert Distinct(c1.cluster) && c1.decodeQueue == c.decodeQueue && c1.prefillQueue == c.prefillQueue;
    assert c1.decodeQueue[0] in c1.inFlight && c1.Now() == e.time;
    assert c' == AssignPrefill(AssignDecode(c1, m), m);
    hide Located, Backed, NoIdleWait, Strict, Lone, Release, Finish, HasGpu, Distinct, DecodeHead, SetBusy, FindIdle;
    HeadTakesTime(c1, m, g);
    DecodeFirst(c1, m, g);
    DecodeHeadEffect(c1, m, g);
  }

  lemma OrderlyFacts(m: Engine, c: Core, e: Ev, c': Core)
    requires Orderly(c) && StrictTurns(m)(c, e, c') && (c.prefillQueue != [] || c.decodeQueue != [])
    ensures Located(c, {}) && Backed(c) && NoIdleWait(c) && c.Now() <= e.time && Distinct(c.cluster)
    ensures e in c.sim.pending && Earliest(e, c.sim.pending) && ED.CanHandle(Pop(c, e), e)
    ensures c' == ED.Handle(Pop(c, e), m, e) && Strict(Pop(c, e)) && Strict(c')
  {
    assert ED.Turn(c, m, e, c') && Strict(c');
    hide Exclusive, NoIdleWait, Earliest, Strict, ED.Handle;
    ED.TurnKeeps(c, m, e, c');
    StrictBefore(Pop(c, e), c');
  }

  /** In a tie-free run of the event-driven runner, on any cluster: when a decode ends on a GPU for both roles while
      requests wait for both, the longest waiting decode starts there at that moment and no prefill does. */
  lemma DecodeGoesFirst(t: Topology, rs: seq<Request>, m: Engine, states: seq<Core>, events: seq<Ev>, n: nat)
    requires ED.Rested(t, rs) && UniqueIds(rs)
    requires IsTrace(StrictTurns(m), states, events) && states[0] == Loaded(t, rs) && n < |events|
    requires events[n].kind.DecodeDone? && states[n].prefillQueue != [] && states[n].decodeQueue != []
    ensures HasGpu(states[n].cluster, events[n].kind.gpu)
    ensures GpuAt(states[n].cluster, events[n].kind.gpu).role == Unified ==>
              var c, c', g, id := states[n], states[n+1], events[n].kind.gpu, states[n].decodeQueue[0];
              && id in c'.inFlight && c'.inFlight[id].decodeStart == Some(events[n].time)
              && c'.inFlight[id].decodeGpu == Some(g)
              && c'.decodeQueue == c.decodeQueue[1..] && c'.prefillQueue == c.prefillQueue
  {
    hide IsTrace, StrictTurns, Orderly, ED.Rested, Loaded, Located, Backed, NoIdleWait, Strict, Earliest, Distinct,
      HasGpu, ED.OnDecodeDone, ED.OnPrefillDone, ED.OnArrival;
    LoadedOrderly(t, rs);
    RunOrderly(m, states, events, n);
    TraceStep(StrictTurns(m), states, events, n);
    OrderlyFacts(m, states[n], events[n], states[n+1]);
    assert HasGpu(Pop(states[n], events[n]).cluster, events[n].kind.gpu);
    if GpuAt(states[n].cluster, events[n].kind.gpu).role == Unified {
      DecodeEndsStep(states[n], m, events[n], states[n+1]);
    }
  }
}
