/** The event-driven runner (src/serving/scheduler.rs): its handlers, its runs, and what every run achieves,
    simultaneous events included. */
module EventDriven {
  import opened Numbers
  import opened Simulation
  import opened Cluster
  import opened Requests
  import opened Machine
  import opened Lifecycle
  import opened Traces

  function OnArrival(c: Core, m: Engine, id: u64): (r: Core)
    requires Distinct(c.cluster)
    ensures Distinct(c.cluster) ==> Distinct(r.cluster)
  {
    DispatchPrefill(c, m, id)
  }

  function OnPrefillDone(c: Core, m: Engine, id: u64, g: GpuRef): (r: Core)
    requires Distinct(c.cluster) && HasGpu(c.cluster, g)
    ensures Distinct(c.cluster) ==> Distinct(r.cluster)
  {
    AssignDecode(AssignPrefill(DispatchDecode(Release(c, g), m, id), m), m)
  }

  function OnDecodeDone(c: Core, m: Engine, id: u64, g: GpuRef): (r: Core)
    requires Distinct(c.cluster) && HasGpu(c.cluster, g)
    ensures Distinct(c.cluster) ==> Distinct(r.cluster)
  {
    AssignPrefill(AssignDecode(Finish(Release(c, g), id), m), m)
  }

  /** The runner can handle the event: the cluster is addressable, and it is not a fetch. */
  ghost predicate CanHandle(c: Core, e: Ev) {
    && Distinct(c.cluster) && !e.kind.FetchDone?
    && (e.kind.Completes() ==> HasGpu(c.cluster, e.kind.gpu))
  }

  function Handle(c: Core, m: Engine, e: Ev): Core
    requires CanHandle(c, e)
  {
    match e.kind
    case RequestArrival(id) => OnArrival(c, m, id)
    case PrefillDone(id, g) => OnPrefillDone(c, m, id, g)
    case DecodeDone(id, g) => OnDecodeDone(c, m, id, g)
  }

  /** One turn of the event loop. */
  ghost predicate Turn(c: Core, m: Engine, e: Ev, c': Core) {
    && Earliest(e, c.sim.pending)
    && e in c.sim.pending
    && CanHandle(Pop(c, e), e)
    && c' == Handle(Pop(c, e), m, e)
  }

  ghost function Turns(m: Engine): (Core, Ev, Core) -> bool {
    (c, e, c') => Turn(c, m, e, c')
  }

  /** As long as anything is pending, each role has a GPU that is free or will be when some pending event is due. */
  ghost predicate Manned(c: Core) {
    c.sim.pending != {} ==> Staffed(c.cluster, c.sim, Prefill) && Staffed(c.cluster, c.sim, Decode)
  }

  /** What holds whenever the loop looks for its next event. */
  ghost predicate Steady(c: Core) {
    && Located(c, {}) && Staged(c) && Grounded(c) && Live(c) && Manned(c)
    && forall e | e in c.sim.pending :: !e.kind.FetchDone?
  }

  /** Nothing but completions on existing GPUs is added. */
  ghost predicate AddsCompletions(a: Core, b: Core) {
    && SameShape(a.cluster, b.cluster)
    && forall e | e in b.sim.pending && e !in a.sim.pending :: e.kind.Completes() && HasGpu(a.cluster, e.kind.gpu)
  }

  lemma DispatchAdds(c: Core, m: Engine, id: u64)
    requires Distinct(c.cluster)
    ensures AddsCompletions(c, DispatchPrefill(c, m, id)) && AddsCompletions(c, DispatchDecode(c, m, id))
  {}

  lemma {:induction false} AssignPrefillAdds(c: Core, m: Engine)
    requires Distinct(c.cluster)
    ensures AddsCompletions(c, AssignPrefill(c, m))
    decreases |c.prefillQueue|
  {
    if c.prefillQueue != [] && c.Idle(Prefill).Some? {
      var id, rest := c.prefillQueue[0], c.(prefillQueue := c.prefillQueue[1..]);
      var next := if id in rest.inFlight then StartPrefill(rest, m, id, c.Idle(Prefill).value) else rest;
      assert AddsCompletions(c, next);
      AssignPrefillAdds(next, m);
    }
  }

  lemma {:induction false} AssignDecodeAdds(c: Core, m: Engine)
    requires Distinct(c.cluster)
    ensures AddsCompletions(c, AssignDecode(c, m))
    decreases |c.decodeQueue|
  {
    if c.decodeQueue != [] && c.Idle(Decode).Some? {
      var id, rest := c.decodeQueue[0], c.(decodeQueue := c.decodeQueue[1..]);
      var next := if id in rest.inFlight then StartDecode(rest, m, id, c.Idle(Decode).value) else rest;
      assert AddsCompletions(c, next);
      AssignDecodeAdds(next, m);
    }
  }

  lemma AddsTransitive(a: Core, b: Core, c: Core)
    requires AddsCompletions(a, b) && AddsCompletions(b, c)
    ensures AddsCompletions(a, c)
  {}

  lemma HandleAdds(c: Core, m: Engine, e: Ev)
    requires CanHandle(c, e)
    ensures AddsCompletions(c, Handle(c, m, e))
  {
    hide AssignPrefill, AssignDecode;
    match e.kind
    case RequestArrival(id) => DispatchAdds(c, m, id);
    case PrefillDone(id, g) =>
      var c1 := Release(c, g);
      var c2 := DispatchDecode(c1, m, id);
      DispatchAdds(c1, m, id);
      AddsTransitive(c, c1, c2);
      var c3 := AssignPrefill(c2, m);
      AssignPrefillAdds(c2, m);
      AddsTransitive(c, c2, c3);
      AssignDecodeAdds(c3, m);
      AddsTransitive(c, c3, AssignDecode(c3, m));
    case DecodeDone(id, g) =>
      var c1 := Finish(Release(c, g), id);
      AssignDecodeAdds(c1, m);
      AddsTransitive(c, c1, AssignDecode(c1, m));
      AssignPrefillAdds(AssignDecode(c1, m), m);
      AddsTransitive(c, AssignDecode(c1, m), AssignPrefill(AssignDecode(c1, m), m));
  }

  // ---- every run stops, whatever the trace ----

  /** Every pending event can be handled. */
  ghost predicate Addressable(c: Core) {
    Distinct(c.cluster) && forall e | e in c.sim.pending :: CanHandle(c, e)
  }

  lemma PopRemaining(c: Core, e: Ev, a: nat)
    requires e in c.sim.pending
    ensures Remaining(c, a) == Remaining(Pop(c, e), a) + Weight(e.kind, a)
  {
    WeightOf(c.sim.pending, e, a);
  }

  lemma DispatchPrefillShrinks(c: Core, m: Engine, id: u64, a: nat)
    requires Distinct(c.cluster)
    ensures Remaining(DispatchPrefill(c, m, id), a) <= Remaining(c, a) + 2
  {
    hide TotalWeight, SetBusy, HasGpu, GpuAt, Distinct;
    if id in c.inFlight && c.Idle(Prefill).Some? {
      var done := DispatchPrefill(c, m, id).inFlight[id].prefillDone.value;
      AddingWeight(c.sim.pending, Event(done, c.sim.nextSeq, PrefillDone(c.inFlight[id].req.id,
          c.Idle(Prefill).value)), a);
    }
  }

  lemma DispatchDecodeShrinks(c: Core, m: Engine, id: u64, a: nat)
    requires Distinct(c.cluster)
    ensures Remaining(DispatchDecode(c, m, id), a) <= Remaining(c, a) + 1
  {
    hide TotalWeight, SetBusy, HasGpu, GpuAt, Distinct;
    if id in c.inFlight && c.Idle(Decode).Some? {
      var done := DispatchDecode(c, m, id).inFlight[id].finish.value;
      AddingWeight(c.sim.pending, Event(done, c.sim.nextSeq, DecodeDone(c.inFlight[id].req.id,
          c.Idle(Decode).value)), a);
    }
  }

  lemma AddingWeight(pending: set<Ev>, e: Ev, a: nat)
    ensures TotalWeight(pending + {e}, a) <= TotalWeight(pending, a) + Weight(e.kind, a)
  {
    if e in pending {
      assert pending + {e} == pending;
    } else {
      ScheduledWeight(pending, e, a);
    }
  }

  lemma {:induction false} AssignPrefillShrinks(c: Core, m: Engine, a: nat)
    requires Distinct(c.cluster)
    ensures Remaining(AssignPrefill(c, m), a) <= Remaining(c, a)
    decreases |c.prefillQueue|
  {
    if c.prefillQueue != [] && c.Idle(Prefill).Some? {
      var id, rest := c.prefillQueue[0], c.(prefillQueue := c.prefillQueue[1..]);
      DispatchPrefillShrinks(rest, m, id, a);
      AssignPrefillShrinks(DispatchPrefill(rest, m, id), m, a);
    }
  }

  lemma {:induction false} AssignDecodeShrinks(c: Core, m: Engine, a: nat)
    requires Distinct(c.cluster)
    ensures Remaining(AssignDecode(c, m), a) <= Remaining(c, a)
    decreases |c.decodeQueue|
  {
    if c.decodeQueue != [] && c.Idle(Decode).Some? {
      var id, rest := c.decodeQueue[0], c.(decodeQueue := c.decodeQueue[1..]);
      DispatchDecodeShrinks(rest, m, id, a);
      AssignDecodeShrinks(DispatchDecode(rest, m, id), m, a);
    }
  }

  /** A turn always uses up allowance: no trace, cluster or tie makes the loop run on. */
  lemma TurnShrinks(c: Core, m: Engine, e: Ev)
    requires e in c.sim.pending && CanHandle(Pop(c, e), e)
    ensures Remaining(Handle(Pop(c, e), m, e), 3) < Remaining(c, 3)
  {
    var p := Pop(c, e);
    PopRemaining(c, e, 3);
    match e.kind
    case RequestArrival(id) => DispatchPrefillShrinks(p, m, id, 3);
    case PrefillDone(id, g) =>
      var c1 := DispatchDecode(Release(p, g), m, id);
      DispatchDecodeShrinks(Release(p, g), m, id, 3);
      AssignPrefillShrinks(c1, m, 3);
      AssignDecodeShrinks(AssignPrefill(c1, m), m, 3);
    case DecodeDone(id, g) =>
      var c1 := Finish(Release(p, g), id);
      AssignDecodeShrinks(c1, m, 3);
      AssignPrefillShrinks(AssignDecode(c1, m), m, 3);
  }

  lemma TurnAddressable(c: Core, m: Engine, e: Ev)
    requires Addressable(c) && e in c.sim.pending
    ensures CanHandle(Pop(c, e), e) && Addressable(Handle(Pop(c, e), m, e))
  {
    HandleAdds(Pop(c, e), m, e);
  }

  // ---- runs that complete ----

  /** The result of handling a popped event, before the loop invariant is put together again. */
  ghost predicate Handled(c: Core, c': Core) {
    Sound(c', {}) && Live(c') && SameShape(c.cluster, c'.cluster) && Extends(c.sim, c'.sim) && KeepsStaff(c, c')
  }

  lemma ActiveStays(a: Core, b: Core)
    requires Active(a) && a.sim.pending <= b.sim.pending
    ensures Active(b)
  {}

  /** `e` has just been popped: its request is in the handler's hands, in the state the event says. */
  ghost predicate Ready(c: Core, e: Ev) {
    && Sound(c, {e.kind.id}) && StageOf(c.inFlight[e.kind.id], e, c.Now())
    && (!e.kind.FetchDone? ==> c.Now() == e.time)
    && (e.kind.Completes() ==> HasGpu(c.cluster, e.kind.gpu))
    && Staffed(c.cluster, c.sim, Prefill) && Staffed(c.cluster, c.sim, Decode)
  }

  /** Releasing the GPU of a completion leaves its request ready for the next stage. */
  lemma ReadyRelease(c: Core, e: Ev)
    requires Ready(c, e) && e.kind.Completes()
    ensures var id, c1 := e.kind.id, Release(c, e.kind.gpu);
            && Sound(c1, {id}) && Continues(c, c1) && Distinct(c1.cluster)
            && Staffed(c1.cluster, c1.sim, Prefill) && Staffed(c1.cluster, c1.sim, Decode) && id in c1.inFlight
            && (e.kind.PrefillDone? ==> Prefilled(c1.inFlight[id], c1.Now()))
            && (e.kind.DecodeDone? ==> Decoding(c1.inFlight[id], c1.Now()))
  {
    hide Staffed;
    ReleaseKeeps(c, e.kind.gpu, {e.kind.id});
  }

  /** Finishing the request of a decode completion leaves nothing in the handler's hands. */
  lemma ReadyFinish(c: Core, e: Ev, a: nat)
    requires Ready(c, e) && e.kind.DecodeDone?
    ensures var c2 := Finish(Release(c, e.kind.gpu), e.kind.id);
            && Sound(c2, {}) && Distinct(c2.cluster) && SameShape(c.cluster, c2.cluster) && c2.sim == c.sim
            && Staffed(c2.cluster, c2.sim, Prefill) && Staffed(c2.cluster, c2.sim, Decode)
            && Remaining(c2, a) == Remaining(c, a)
  {
    assert HasGpu(c.cluster, e.kind.gpu);
    hide Located, Staged, Grounded, Ready, Staffed, Decoding, TotalWeight;
    ReadyRelease(c, e);
    FinishKeeps(Release(c, e.kind.gpu), e.kind.id);
  }

  lemma ArrivalHandled(c: Core, m: Engine, e: Ev)
    requires Ready(c, e) && e.kind.RequestArrival?
    ensures Handled(c, OnArrival(c, m, e.kind.id)) && SameRequests(c, OnArrival(c, m, e.kind.id))
    ensures Remaining(OnArrival(c, m, e.kind.id), 3) == Remaining(c, 3) + 2
  {
    DispatchPrefillKeeps(c, m, e.kind.id);
    DispatchPrefillWeight(c, m, e.kind.id, 3);
  }

  lemma PrefillDoneHandled(c: Core, m: Engine, e: Ev, a: nat)
    requires Ready(c, e) && e.kind.PrefillDone?
    ensures Handled(c, OnPrefillDone(c, m, e.kind.id, e.kind.gpu))
    ensures SameRequests(c, OnPrefillDone(c, m, e.kind.id, e.kind.gpu))
    ensures Remaining(OnPrefillDone(c, m, e.kind.id, e.kind.gpu), a) == Remaining(c, a) + 1
  {
    var id, g := e.kind.id, e.kind.gpu;
    var c1 := Release(c, g);
    ReadyRelease(c, e);
    hide Located, Staged, Grounded, Active, TotalWeight, Staffed, SameShape, Extends, SameRequests, AssignPrefill,
      AssignDecode, Ready, Prefilled;
    var c2 := DispatchDecode(c1, m, id);
    DispatchDecodeKeeps(c1, m, id);
    DispatchDecodeWeight(c1, m, id, a);
    var c3 := AssignPrefill(c2, m);
    AssignPrefillKeeps(c2, m);
    AssignPrefillWeight(c2, m, a);
    var c4 := AssignDecode(c3, m);
    AssignDecodeKeeps(c3, m);
    AssignDecodeWeight(c3, m, a);
    ContinuesTransitive(c, c1, c2);
    ContinuesTransitive(c, c2, c3);
    ContinuesTransitive(c, c3, c4);
    PendingGrows(c2, c3, c4);
    ActiveStays(c2, c4);
  }

  lemma PendingGrows(a: Core, b: Core, c: Core)
    requires Continues(a, b) && Continues(b, c)
    ensures a.sim.pending <= c.sim.pending
  {}

  lemma ShapeTransitive(a: Topology, b: Topology, c: Topology)
    requires SameShape(a, b) && SameShape(b, c)
    ensures SameShape(a, c)
  {}

  lemma QueuedIsActive(c: Core, c': Core, role: Role)
    requires Distinct(c.cluster) && Staffed(c.cluster, c.sim, role) && c.Idle(role).None? && Continues(c, c')
    ensures Active(c')
  {
    NoIdleMeansActive(c, role);
    ActiveStays(c, c');
  }

  /** Draining both queues leaves every queue live. */
  lemma DrainedHandled(c: Core, m: Engine, a: nat)
    requires Sound(c, {}) && Staffed(c.cluster, c.sim, Prefill) && Staffed(c.cluster, c.sim, Decode)
    ensures var c' := AssignPrefill(AssignDecode(c, m), m);
            Sound(c', {}) && Continues(c, c') && Live(c') && Remaining(c', a) == Remaining(c, a)
  {
    assert Distinct(c.cluster);
    hide Located, Staged, Grounded, Active, Staffed, SameShape, Extends, SameRequests, AssignPrefill, AssignDecode,
      Remaining;
    var c3 := AssignDecode(c, m);
    AssignDecodeKeeps(c, m);
    AssignDecodeWeight(c, m, a);
    var c4 := AssignPrefill(c3, m);
    AssignPrefillKeeps(c3, m);
    AssignPrefillWeight(c3, m, a);
    ContinuesTransitive(c, c3, c4);
    if c4.decodeQueue != [] {
      assert Distinct(c3.cluster) by { GroundedIsDistinct(c3); }
      QueuedIsActive(c3, c4, Decode);
    }
    if c4.prefillQueue != [] {
      assert Distinct(c4.cluster) by { GroundedIsDistinct(c4); }
      NoIdleMeansActive(c4, Prefill);
    }
  }

  lemma GroundedIsDistinct(c: Core)
    requires Grounded(c)
    ensures Distinct(c.cluster)
  {}

  lemma DecodeDoneHandled(c: Core, m: Engine, e: Ev, a: nat)
    requires Ready(c, e) && e.kind.DecodeDone?
    ensures Handled(c, OnDecodeDone(c, m, e.kind.id, e.kind.gpu))
    ensures SameRequests(Finish(Release(c, e.kind.gpu), e.kind.id), OnDecodeDone(c, m, e.kind.id, e.kind.gpu))
    ensures Remaining(OnDecodeDone(c, m, e.kind.id, e.kind.gpu), a) == Remaining(c, a)
  {
    assert HasGpu(c.cluster, e.kind.gpu);
    hide Located, Staged, Grounded, Live, Active, Staffed, SameShape, Extends, SameRequests, AssignPrefill,
      AssignDecode, Ready, Release, Finish, Remaining, HasGpu;
    var c2 := Finish(Release(c, e.kind.gpu), e.kind.id);
    ReadyFinish(c, e, a);
    DrainedHandled(c2, m, a);
    var c4 := AssignPrefill(AssignDecode(c2, m), m);
    ShapeTransitive(c.cluster, c2.cluster, c4.cluster);
    assert KeepsStaff(c2, c4);
  }

  lemma PoppedIsReady(c: Core, e: Ev)
    requires Located(c, {}) && Staged(c) && Grounded(c) && Manned(c)
    requires e in c.sim.pending && Earliest(e, c.sim.pending)
    ensures Ready(Pop(c, e), e)
  {
    PopLocated(c, e);
    PopStaged(c, e);
    PopStaffed(c, e, Prefill);
    PopStaffed(c, e, Decode);
    hide Staffed;
    assert e.kind.id in EventIds(c.sim.pending);
  }

  lemma TurnHandled(c: Core, m: Engine, e: Ev, c': Core)
    requires Steady(c) && Turn(c, m, e, c')
    ensures Handled(Pop(c, e), c') && c'.Now() == e.time
    ensures Remaining(c', 3) + 1 == Remaining(c, 3)
  {
    PoppedIsReady(c, e);
    PopRemaining(c, e, 3);
    assert Pop(c, e).Now() == e.time;
    hide Ready, Sound, SameRequests, OnArrival, OnPrefillDone, OnDecodeDone, Steady, Live, Remaining;
    match e.kind {
      case RequestArrival(id) => ArrivalHandled(Pop(c, e), m, e);
      case PrefillDone(id, g) => PrefillDoneHandled(Pop(c, e), m, e, 3);
      case DecodeDone(id, g) => DecodeDoneHandled(Pop(c, e), m, e, 3);
    }
  }

  lemma SteadyAgain(p: Core, c': Core)
    requires Handled(p, c') && AddsCompletions(p, c')
    requires Staffed(p.cluster, p.sim, Prefill) && Staffed(p.cluster, p.sim, Decode)
    requires forall e | e in p.sim.pending :: !e.kind.FetchDone?
    ensures Steady(c')
  {}

  /** Every turn keeps the loop invariant and uses up exactly one of the events still to come. */
  lemma TurnKeeps(c: Core, m: Engine, e: Ev, c': Core)
    requires Steady(c) && Turn(c, m, e, c')
    ensures Steady(c') && Remaining(c', 3) + 1 == Remaining(c, 3)
    ensures Extends(Pop(c, e).sim, c'.sim) && c'.Now() == e.time
  {
    TurnHandled(c, m, e, c');
    PopStaffed(c, e, Prefill);
    PopStaffed(c, e, Decode);
    hide Staffed;
    HandleAdds(Pop(c, e), m, e);
    SteadyAgain(Pop(c, e), c');
  }

  /** The loop never meets an event it cannot handle: no fetch, no unknown GPU. */
  lemma TurnExists(c: Core, m: Engine, e: Ev)
    requires Steady(c) && e in c.sim.pending && Earliest(e, c.sim.pending)
    ensures CanHandle(Pop(c, e), e) && Turn(c, m, e, Handle(Pop(c, e), m, e))
  {
    PoppedIsReady(c, e);
  }

  lemma TurnAccounted(c: Core, m: Engine, e: Ev, c': Core, book: map<u64, Request>)
    requires Steady(c) && Turn(c, m, e, c') && Accounted(c, book)
    ensures Accounted(c', book)
  {
    PoppedIsReady(c, e);
    var p := Pop(c, e);
    ContinuesAccounted(c, p, book);
    assert forall id | id in c.inFlight :: c.inFlight[id].req.id == id;
    hide Ready, Handled, Accounted, SameRequests, OnArrival, OnPrefillDone, OnDecodeDone, Steady, Finish;
    match e.kind {
      case RequestArrival(id) =>
        ArrivalHandled(p, m, e);
        ContinuesAccounted(p, c', book);
      case PrefillDone(id, g) =>
        PrefillDoneHandled(p, m, e, 3);
        ContinuesAccounted(p, c', book);
      case DecodeDone(id, g) =>
        DecodeDoneHandled(p, m, e, 3);
        ReleaseAccounted(p, g, book);
        FinishAccounted(Release(p, g), id, book);
        ContinuesAccounted(Finish(Release(p, g), id), c', book);
    }
  }

  lemma ReleaseAccounted(c: Core, g: GpuRef, book: map<u64, Request>)
    requires Accounted(c, book) && HasGpu(c.cluster, g)
    ensures Accounted(Release(c, g), book)
  {
    ContinuesAccounted(c, Release(c, g), book);
  }

  // ---- whole runs ----

  /** The loop invariant with its progress: `total` events are handled or still to come. */
  ghost predicate SteadyAfter(i: nat, c: Core, total: int) {
    Steady(c) && Remaining(c, 3) + i == total
  }

  lemma TurnSteady(m: Engine, i: nat, c: Core, e: Ev, c': Core, total: int)
    requires SteadyAfter(i, c, total) && Turns(m)(c, e, c')
    ensures SteadyAfter(i + 1, c', total)
  {
    TurnKeeps(c, m, e, c');
  }

  lemma {:induction false} RunSteady(m: Engine, states: seq<Core>, events: seq<Ev>, n: nat, total: int)
    requires IsTrace(Turns(m), states, events) && SteadyAfter(0, states[0], total) && n <= |events|
    ensures SteadyAfter(n, states[n], total)
  {
    hide *;
    if n > 0 {
      TraceStep(Turns(m), states, events, n - 1);
      RunSteady(m, states, events, n - 1, total);
      TurnSteady(m, n - 1, states[n-1], events[n-1], states[n], total);
    }
  }

  ghost predicate SteadyAccounted(c: Core, book: map<u64, Request>) {
    Steady(c) && Accounted(c, book)
  }

  lemma TurnSteadyAccounted(m: Engine, c: Core, e: Ev, c': Core, book: map<u64, Request>)
    requires SteadyAccounted(c, book) && Turns(m)(c, e, c')
    ensures SteadyAccounted(c', book)
  {
    TurnKeeps(c, m, e, c');
    TurnAccounted(c, m, e, c', book);
  }

  lemma {:induction false} RunAccounted(m: Engine, states: seq<Core>, events: seq<Ev>, n: nat, book: map<u64, Request>)
    requires IsTrace(Turns(m), states, events) && SteadyAccounted(states[0], book) && n <= |events|
    ensures SteadyAccounted(states[n], book)
  {
    hide *;
    if n > 0 {
      TraceStep(Turns(m), states, events, n - 1);
      RunAccounted(m, states, events, n - 1, book);
      TurnSteadyAccounted(m, states[n-1], events[n-1], states[n], book);
    }
  }

  /** Some GPU that serves the role is released by the time of some arrival, hence by the last one. */
  ghost predicate ReadyFor(t: Topology, rs: seq<Request>, role: Role) {
    exists g, r :: HasGpu(t, g) && Serves(GpuAt(t, g), role) && r in rs && GpuAt(t, g).busyUntil <= r.arrival
  }

  /** A cluster and a trace the runner can complete: addressable nodes, and for each role a GPU that is released by the
      last arrival; the others may be busy for as long as they like. */
  ghost predicate Servable(t: Topology, rs: seq<Request>) {
    Distinct(t) && (rs != [] ==> ReadyFor(t, rs, Prefill) && ReadyFor(t, rs, Decode))
  }

  /** Servable, and all GPUs are released by the first arrival. */
  ghost predicate Rested(t: Topology, rs: seq<Request>) {
    Servable(t, rs) && ReleasedBy(t, rs)
  }

  lemma {:induction false} LoadedArrival(t: Topology, rs: seq<Request>, k: nat)
    requires k < |rs|
    ensures exists e :: e in Loaded(t, rs).sim.pending && e.time == rs[k].arrival && e.kind == RequestArrival(rs[k].id)
  {
    var n := |rs| - 1;
    if k < n {
      LoadedArrival(t, rs[..n], k);
      var e :| e in Loaded(t, rs[..n]).sim.pending && e.time == rs[k].arrival && e.kind == RequestArrival(rs[k].id);
      assert e in Loaded(t, rs).sim.pending;
    } else {
      var e := Event(rs[n].arrival, Loaded(t, rs[..n]).sim.nextSeq, RequestArrival(rs[n].id));
      assert e in Loaded(t, rs).sim.pending;
    }
  }

  lemma LoadedStaffed(t: Topology, rs: seq<Request>, role: Role)
    requires ReadyFor(t, rs, role)
    ensures Staffed(t, Loaded(t, rs).sim, role)
  {
    var g, r :| HasGpu(t, g) && Serves(GpuAt(t, g), role) && r in rs && GpuAt(t, g).busyUntil <= r.arrival;
    var k :| 0 <= k < |rs| && rs[k] == r;
    LoadedArrival(t, rs, k);
    assert Foreseen(Loaded(t, rs).sim, GpuAt(t, g).busyUntil);
  }

  lemma LoadedManned(t: Topology, rs: seq<Request>)
    requires Servable(t, rs)
    ensures Manned(Loaded(t, rs)) && Grounded(Loaded(t, rs))
  {
    LoadedQuiet(t, rs);
    if rs != [] {
      LoadedStaffed(t, rs, Prefill);
      LoadedStaffed(t, rs, Decode);
    }
    forall e | e in Loaded(t, rs).sim.pending ensures !e.kind.Completes() {
      LoadedEvents(t, rs, e);
    }
  }

  lemma LoadedSteady(t: Topology, rs: seq<Request>)
    requires Servable(t, rs) && UniqueIds(rs)
    ensures SteadyAfter(0, Loaded(t, rs), 3 * |rs|) && SteadyAccounted(Loaded(t, rs), Book(rs))
  {
    LoadedQuiet(t, rs);
    LoadedLocated(t, rs);
    LoadedStaged(t, rs);
    LoadedManned(t, rs);
    LoadedRemaining(t, rs, 3);
    LoadedAccounted(t, rs);
    forall e | e in Loaded(t, rs).sim.pending ensures !e.kind.FetchDone? {
      LoadedEvents(t, rs, e);
    }
  }

  /** A steady state with nothing pending has nothing left anywhere. */
  lemma DrainedIsDone(c: Core)
    requires Located(c, {}) && Live(c) && c.sim.pending == {}
    ensures c.inFlight == map[] && c.prefillQueue == [] && c.decodeQueue == []
  {
    assert c.inFlight.Keys == {};
  }

  lemma {:induction false} WeightCoversPending(pending: set<Ev>, a: nat)
    requires a >= 1
    ensures |pending| <= TotalWeight(pending, a)
    decreases pending
  {
    if pending != {} {
      var e :| e in pending;
      WeightOf(pending, e, a);
      WeightCoversPending(pending - {e}, a);
    }
  }

  lemma StateAfter(c: Core, i: nat, rs: seq<Request>)
    requires UniqueIds(rs) && SteadyAfter(i, c, 3 * |rs|) && SteadyAccounted(c, Book(rs))
    ensures i <= 3 * |rs|
    ensures c.sim.pending == {} <==> i == 3 * |rs|
    ensures c.sim.pending == {} ==> OneResultEach(c.results, rs)
    ensures forall o | o in c.results :: o.InOrder()
  {
    WeightCoversPending(c.sim.pending, 3);
    if c.sim.pending == {} {
      DrainedIsDone(c);
      AllAccounted(c, rs);
    }
  }

  /** Exactly once: with unique ids and, for each role, a GPU released by the last arrival, every run handles at most
      three events per request, stops exactly after three per request, and then has one ordered result for each
      request. */
  lemma ExactlyOnce(t: Topology, rs: seq<Request>, m: Engine, states: seq<Core>, events: seq<Ev>)
    requires Servable(t, rs) && UniqueIds(rs)
    requires IsTrace(Turns(m), states, events) && states[0] == Loaded(t, rs)
    ensures |events| <= 3 * |rs|
    ensures states[|events|].sim.pending == {} <==> |events| == 3 * |rs|
    ensures states[|events|].sim.pending == {} ==> OneResultEach(states[|events|].results, rs)
    ensures forall o | o in states[|events|].results :: o.InOrder()
  {
    hide Turns, SteadyAfter, SteadyAccounted, Servable, OneResultEach;
    LoadedSteady(t, rs);
    RunSteady(m, states, events, |events|, 3 * |rs|);
    RunAccounted(m, states, events, |events|, Book(rs));
    StateAfter(states[|events|], |events|, rs);
  }

  // ---- who keeps a GPU busy ----

  lemma HandleBacked(c: Core, m: Engine, e: Ev)
    requires CanHandle(c, e) && Backed(c)
    ensures Backed(Handle(c, m, e))
  {
    hide Backed, HasGpu, DispatchPrefill, DispatchDecode, AssignPrefill, AssignDecode, Release;
    match e.kind
    case RequestArrival(id) => DispatchBacked(c, m, id);
    case PrefillDone(id, g) =>
      ReleaseBacked(c, g);
      DispatchBacked(Release(c, g), m, id);
      var c1 := DispatchDecode(Release(c, g), m, id);
      AssignPrefillBacked(c1, m);
      AssignDecodeBacked(AssignPrefill(c1, m), m);
    case DecodeDone(id, g) =>
      ReleaseBacked(c, g);
      FinishBacked(Release(c, g), id);
      var c1 := Finish(Release(c, g), id);
      AssignDecodeBacked(c1, m);
      AssignPrefillBacked(AssignDecode(c1, m), m);
  }

  /** Until the first event all GPUs are released by it; from then on a busy GPU has its own completion pending. */
  ghost predicate Timed(c: Core) {
    Backed(c) || (Untouched(c) && c.prefillQueue == [] && c.decodeQueue == [])
  }

  lemma TurnBacked(c: Core, m: Engine, e: Ev, c': Core)
    requires Timed(c) && Turn(c, m, e, c')
    ensures Backed(c')
  {
    hide Handle, Backed, Untouched;
    PopBacked(c, e);
    HandleBacked(Pop(c, e), m, e);
  }

  lemma LoadedTimed(t: Topology, rs: seq<Request>)
    requires Distinct(t) && ReleasedBy(t, rs)
    ensures Timed(Loaded(t, rs))
  {
    LoadedQuiet(t, rs);
    LoadedUntouched(t, rs);
  }

  lemma {:induction false} RunBacked(m: Engine, states: seq<Core>, events: seq<Ev>, n: nat)
    requires IsTrace(Turns(m), states, events) && Timed(states[0]) && n <= |events|
    ensures Timed(states[n]) && (n > 0 ==> Backed(states[n]))
  {
    hide *;
    if n > 0 {
      TraceStep(Turns(m), states, events, n - 1);
      RunBacked(m, states, events, n - 1);
      TurnIsBacked(m, states[n-1], events[n-1], states[n]);
    }
  }

  lemma TurnIsBacked(m: Engine, c: Core, e: Ev, c': Core)
    requires Timed(c) && Turns(m)(c, e, c')
    ensures Timed(c') && Backed(c')
  {
    hide Handle, Backed, Untouched;
    TurnBacked(c, m, e, c');
  }

  /** When all GPUs are released by the first arrival: after every event, ties allowed and ids repeated or not, a GPU
      that is not free has its own completion pending at exactly its release time. */
  lemma BusyMeansPending(t: Topology, rs: seq<Request>, m: Engine, states: seq<Core>, events: seq<Ev>, n: nat)
    requires Distinct(t) && ReleasedBy(t, rs)
    requires IsTrace(Turns(m), states, events) && states[0] == Loaded(t, rs) && 0 < n <= |events|
    ensures Backed(states[n])
  {
    hide *;
    LoadedTimed(t, rs);
    RunBacked(m, states, events, n);
  }

  // ---- GPUs released too late ----

  /** No GPU serving the role is released by the time of any arrival. */
  ghost predicate AllLate(t: Topology, rs: seq<Request>, role: Role) {
    forall g: GpuRef, r | HasGpu(t, g) && Serves(GpuAt(t, g), role) && r in rs :: r.arrival < GpuAt(t, g).busyUntil
  }

  lemma LateOrReady(t: Topology, rs: seq<Request>, role: Role)
    ensures AllLate(t, rs, role) <==> !ReadyFor(t, rs, role)
  {}

  /** Nothing has happened but arrivals, all of them at moments no GPU is released by. */
  ghost predicate Idling(c: Core, t: Topology, rs: seq<Request>) {
    && c.cluster == t && c.results == []
    && (c.Now() == 0 || exists r :: r in rs && c.Now() <= r.arrival)
    && (forall e | e in c.sim.pending :: e.kind.RequestArrival? && exists r :: r in rs && r.arrival == e.time)
  }

  lemma LateArrivalQueues(t: Topology, rs: seq<Request>, c: Core, e: Ev)
    requires Distinct(t) && AllLate(t, rs, Prefill) && Idling(c, t, rs) && e in c.sim.pending
    ensures Pop(c, e).Idle(Prefill).None?
    ensures exists r :: r in rs && Pop(c, e).Now() <= r.arrival
  {
    var p := Pop(c, e);
    var r :| r in rs && r.arrival == e.time;
    if c.Now() > e.time { r :| r in rs && c.Now() <= r.arrival; }
    assert p.Now() <= r.arrival;
  }

  lemma TurnIdles(t: Topology, rs: seq<Request>, m: Engine, c: Core, e: Ev, c': Core)
    requires Distinct(t) && AllLate(t, rs, Prefill)
    requires Idling(c, t, rs) && Turns(m)(c, e, c')
    ensures Idling(c', t, rs)
  {
    LateArrivalQueues(t, rs, c, e);
  }

  lemma {:induction false} RunIdles(t: Topology, rs: seq<Request>, m: Engine, states: seq<Core>, events: seq<Ev>,
                                    n: nat)
    requires Distinct(t) && AllLate(t, rs, Prefill)
    requires IsTrace(Turns(m), states, events) && Idling(states[0], t, rs) && n <= |events|
    ensures Idling(states[n], t, rs)
  {
    hide *;
    if n > 0 {
      TraceStep(Turns(m), states, events, n - 1);
      RunIdles(t, rs, m, states, events, n - 1);
      TurnIdles(t, rs, m, states[n-1], events[n-1], states[n]);
    }
  }

  lemma LoadedIdles(t: Topology, rs: seq<Request>)
    ensures Idling(Loaded(t, rs), t, rs)
  {
    LoadedQuiet(t, rs);
    forall e | e in Loaded(t, rs).sim.pending
      ensures e.kind.RequestArrival? && exists r :: r in rs && r.arrival == e.time
    {
      LoadedEvents(t, rs, e);
    }
  }

  /** When every prefill GPU is released after the last arrival, no run ever produces a result. */
  lemma LateGpusStrandAll(t: Topology, rs: seq<Request>, m: Engine, states: seq<Core>, events: seq<Ev>)
    requires Distinct(t) && AllLate(t, rs, Prefill)
    requires IsTrace(Turns(m), states, events) && states[0] == Loaded(t, rs)
    ensures states[|events|].results == [] && states[|events|].cluster == t
  {
    hide Turns, AllLate, Loaded;
    LoadedIdles(t, rs);
    RunIdles(t, rs, m, states, events, |events|);
  }

  /** Given a decode GPU released by the last arrival, a finished run has served every request exactly once if and only
      if some prefill GPU is released by the last arrival too. */
  lemma ServedIffReady(t: Topology, rs: seq<Request>, m: Engine, states: seq<Core>, events: seq<Ev>)
    requires Distinct(t) && UniqueIds(rs) && rs != [] && ReadyFor(t, rs, Decode)
    requires IsTrace(Turns(m), states, events) && states[0] == Loaded(t, rs)
    requires states[|events|].sim.pending == {}
    ensures OneResultEach(states[|events|].results, rs) <==> ReadyFor(t, rs, Prefill)
  {
    hide Turns, AllLate, ReadyFor, Loaded;
    LateOrReady(t, rs, Prefill);
    if ReadyFor(t, rs, Prefill) {
      ExactlyOnce(t, rs, m, states, events);
    } else {
      LateGpusStrandAll(t, rs, m, states, events);
    }
  }

  // ---- repeated ids ----

  lemma {:induction false} AssignPrefillRequests(c: Core, m: Engine)
    requires Distinct(c.cluster)
    ensures SameRequests(c, AssignPrefill(c, m))
    decreases |c.prefillQueue|
  {
    if c.prefillQueue != [] && c.Idle(Prefill).Some? {
      var id, rest := c.prefillQueue[0], c.(prefillQueue := c.prefillQueue[1..]);
      var next := if id in rest.inFlight then StartPrefill(rest, m, id, c.Idle(Prefill).value) else rest;
      AssignPrefillRequests(next, m);
    }
  }

  lemma {:induction false} AssignDecodeRequests(c: Core, m: Engine)
    requires Distinct(c.cluster)
    ensures SameRequests(c, AssignDecode(c, m))
    decreases |c.decodeQueue|
  {
    if c.decodeQueue != [] && c.Idle(Decode).Some? {
      var id, rest := c.decodeQueue[0], c.(decodeQueue := c.decodeQueue[1..]);
      var next := if id in rest.inFlight then StartDecode(rest, m, id, c.Idle(Decode).value) else rest;
      AssignDecodeRequests(next, m);
    }
  }

  ghost function Census(c: Core): nat {
    |c.results| + |c.inFlight.Keys|
  }

  lemma SameCensus(a: Core, b: Core)
    requires SameRequests(a, b)
    ensures Census(a) == Census(b)
  {}

  lemma FinishCensus(c: Core, id: u64)
    ensures Census(Finish(c, id)) == Census(c)
  {
    if id in c.inFlight {
      assert Finish(c, id).inFlight.Keys == c.inFlight.Keys - {id};
    }
  }

  lemma PrefillDoneCensus(c: Core, m: Engine, id: u64, g: GpuRef)
    requires Distinct(c.cluster) && HasGpu(c.cluster, g)
    ensures Census(OnPrefillDone(c, m, id, g)) == Census(c)
  {
    var c1 := DispatchDecode(Release(c, g), m, id);
    SameCensus(c, c1);
    AssignPrefillRequests(c1, m);
    SameCensus(c1, AssignPrefill(c1, m));
    AssignDecodeRequests(AssignPrefill(c1, m), m);
    SameCensus(AssignPrefill(c1, m), OnPrefillDone(c, m, id, g));
  }

  lemma DecodeDoneCensus(c: Core, m: Engine, id: u64, g: GpuRef)
    requires Distinct(c.cluster) && HasGpu(c.cluster, g)
    ensures Census(OnDecodeDone(c, m, id, g)) == Census(c)
  {
    var c1 := Finish(Release(c, g), id);
    FinishCensus(Release(c, g), id);
    AssignDecodeRequests(c1, m);
    SameCensus(c1, AssignDecode(c1, m));
    AssignPrefillRequests(AssignDecode(c1, m), m);
    SameCensus(AssignDecode(c1, m), OnDecodeDone(c, m, id, g));
  }

  /** Handling an event never creates a request, whatever the state: a result costs an entry in flight. */
  lemma HandleCensus(c: Core, m: Engine, e: Ev)
    requires CanHandle(c, e)
    ensures Census(Handle(c, m, e)) == Census(c)
  {
    match e.kind
    case RequestArrival(id) => SameCensus(c, OnArrival(c, m, id));
    case PrefillDone(id, g) => PrefillDoneCensus(c, m, id, g);
    case DecodeDone(id, g) => DecodeDoneCensus(c, m, id, g);
  }

  lemma {:induction false} BookBound(rs: seq<Request>)
    ensures |Book(rs).Keys| <= |rs|
  {
    if rs != [] {
      BookBound(rs[..|rs|-1]);
      assert Book(rs).Keys == Book(rs[..|rs|-1]).Keys + {rs[|rs|-1].id};
    }
  }

  lemma {:induction false} RepeatedIdsShrinkBook(rs: seq<Request>, i: nat, j: nat)
    requires i < j < |rs| && rs[i].id == rs[j].id
    ensures |Book(rs).Keys| < |rs|
  {
    var n := |rs| - 1;
    assert Book(rs).Keys == Book(rs[..n]).Keys + {rs[n].id};
    if j < n {
      RepeatedIdsShrinkBook(rs[..n], i, j);
    } else {
      InBook(rs[..n], i);
      BookBound(rs[..n]);
    }
  }

  lemma {:induction false} RunCensus(m: Engine, states: seq<Core>, events: seq<Ev>, n: nat)
    requires IsTrace(Turns(m), states, events) && n <= |events|
    ensures Census(states[n]) == Census(states[0])
  {
    hide *;
    if n > 0 {
      TraceStep(Turns(m), states, events, n - 1);
      RunCensus(m, states, events, n - 1);
      TurnCensus(m, states[n-1], events[n-1], states[n]);
    }
  }

  lemma TurnCensus(m: Engine, c: Core, e: Ev, c': Core)
    requires Turns(m)(c, e, c')
    ensures Census(c') == Census(c)
  {
    HandleCensus(Pop(c, e), m, e);
  }

  lemma LoadedCensus(t: Topology, rs: seq<Request>)
    ensures Census(Loaded(t, rs)) == |Book(rs).Keys|
  {
    LoadedQuiet(t, rs);
    LoadedInFlight(t, rs);
  }

  /** One result per request is possible only for unique ids, and then it is what happens. */
  lemma OneEachIffUnique(t: Topology, rs: seq<Request>, m: Engine, states: seq<Core>, events: seq<Ev>)
    requires Servable(t, rs)
    requires IsTrace(Turns(m), states, events) && states[0] == Loaded(t, rs)
    requires states[|events|].sim.pending == {}
    ensures |states[|events|].results| == |rs| <==> UniqueIds(rs)
  {
    hide Turns, Servable, Loaded, Book;
    if UniqueIds(rs) {
      ExactlyOnce(t, rs, m, states, events);
    } else {
      RunCensus(m, states, events, |events|);
      LoadedCensus(t, rs);
      var i, j :| 0 <= i < j < |rs| && rs[i].id == rs[j].id;
      RepeatedIdsShrinkBook(rs, i, j);
    }
  }

  // ---- order of events ----

  lemma {:induction false} LoadedSequenced(t: Topology, rs: seq<Request>)
    requires |rs| < MAX64
    ensures Sequenced(Loaded(t, rs).sim)
    ensures Loaded(t, rs).sim.nextSeq == |rs| == |Loaded(t, rs).sim.pending|
  {
    if rs != [] {
      LoadedSequenced(t, rs[..|rs|-1]);
    }
  }

  /** The counter has handed out one number per event handled or pending, hence never saturates in a short run. */
  ghost predicate SequencedAfter(i: nat, c: Core, total: int) {
    SteadyAfter(i, c, total) && Sequenced(c.sim) && c.sim.nextSeq <= i + |c.sim.pending|
  }

  lemma TurnSequenced(i: nat, c: Core, m: Engine, e: Ev, c': Core, total: int)
    requires SequencedAfter(i, c, total) && Turns(m)(c, e, c') && total < MAX64
    ensures SequencedAfter(i + 1, c', total)
  {
    TurnKeeps(c, m, e, c');
    WeightCoversPending(c'.sim.pending, 3);
    NumbersStayUnique(c.sim, e, c'.sim, i);
  }

  lemma {:induction false} RunSequenced(m: Engine, states: seq<Core>, events: seq<Ev>, n: nat, total: int)
    requires IsTrace(Turns(m), states, events) && SequencedAfter(0, states[0], total) && total < MAX64 && n <= |events|
    ensures SequencedAfter(n, states[n], total)
  {
    hide *;
    if n > 0 {
      TraceStep(Turns(m), states, events, n - 1);
      RunSequenced(m, states, events, n - 1, total);
      TurnSequenced(n - 1, states[n-1], m, events[n-1], states[n], total);
    }
  }

  ghost predicate SteadyBehind(last: Ev, i: nat, c: Core, total: int) {
    SequencedAfter(i, c, total) && Behind(last, c.sim)
  }

  lemma TurnBehind(i: nat, c: Core, m: Engine, e: Ev, c': Core, last: Ev, total: int)
    requires SteadyBehind(last, i, c, total) && Turns(m)(c, e, c') && total < MAX64
    ensures SteadyBehind(last, i + 1, c', total)
  {
    TurnKeeps(c, m, e, c');
    TurnSequenced(i, c, m, e, c', total);
    BehindStays(last, c.sim, e, c'.sim);
  }

  lemma TurnPutsBehind(i: nat, c: Core, m: Engine, e: Ev, c': Core, total: int)
    requires SequencedAfter(i, c, total) && Turns(m)(c, e, c') && total < MAX64
    ensures SteadyBehind(e, i + 1, c', total) && c'.Now() == e.time
  {
    TurnKeeps(c, m, e, c');
    TurnSequenced(i, c, m, e, c', total);
    PopOvertakes(c.sim, e, c'.sim);
  }

  lemma {:induction false} RunBehind(m: Engine, states: seq<Core>, events: seq<Ev>, k: nat, j: nat, total: int)
    requires IsTrace(Turns(m), states, events) && SequencedAfter(0, states[0], total) && total < MAX64
    requires k < j <= |events|
    ensures SteadyBehind(events[k], j, states[j], total)
    ensures states[k+1].Now() == events[k].time
  {
    hide Turns, SequencedAfter, SteadyBehind;
    if j == k + 1 {
      RunSequenced(m, states, events, k, total);
      TurnPutsBehind(k, states[k], m, events[k], states[k+1], total);
    } else {
      RunBehind(m, states, events, k, j - 1, total);
      TurnBehind(j - 1, states[j-1], m, events[j-1], states[j], events[k], total);
    }
  }

  lemma LoadedSequencedAfter(t: Topology, rs: seq<Request>)
    requires Servable(t, rs) && UniqueIds(rs) && 3 * |rs| < MAX64
    ensures SequencedAfter(0, Loaded(t, rs), 3 * |rs|)
  {
    hide SteadyAfter;
    LoadedSteady(t, rs);
    LoadedSequenced(t, rs);
  }

  lemma NextIsLater(c: Core, m: Engine, e: Ev, c': Core, last: Ev, i: nat, total: int)
    requires SteadyBehind(last, i, c, total) && Turns(m)(c, e, c')
    ensures Before(last, e)
  {}

  /** Events come out in strict order of (time, sequence number) over the whole run, so simultaneous ones come out in
      the order they were scheduled, and the clock shows the time of the event just handled. */
  lemma EventOrder(t: Topology, rs: seq<Request>, m: Engine, states: seq<Core>, events: seq<Ev>, i: nat, j: nat)
    requires Servable(t, rs) && UniqueIds(rs) && 3 * |rs| < MAX64
    requires IsTrace(Turns(m), states, events) && states[0] == Loaded(t, rs) && i < j <= |events|
    ensures j < |events| ==> Before(events[i], events[j])
    ensures states[i+1].Now() == events[i].time
  {
    hide Turns, SequencedAfter, SteadyBehind, Servable;
    LoadedSequencedAfter(t, rs);
    RunBehind(m, states, events, i, j, 3 * |rs|);
    if j < |events| {
      NextIsLater(states[j], m, events[j], states[j+1], events[i], j, 3 * |rs|);
    }
  }
}
