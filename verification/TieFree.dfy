/** Runs without ties: after every handled event all pending completions lie strictly in the future. In such runs a
    GPU never runs two tasks at once, and no request waits while a GPU for it is idle. */
module TieFree {
  import opened Numbers
  import opened Simulation
  import opened Cluster
  import opened Requests
  import opened Machine
  import opened Lifecycle
  import opened Traces
  import opened EventDriven

  /** No completion is due now: none coincides with the event just handled, and none took no time. */
  ghost predicate Strict(c: Core) {
    forall e | e in c.sim.pending && e.kind.Completes() :: c.Now() < e.time
  }

  ghost function StrictTurns(m: Engine): (Core, Ev, Core) -> bool {
    (c, e, c') => Turn(c, m, e, c') && Strict(c')
  }

  /** Mutual exclusion: one pending completion per GPU at most, and it is when the GPU will be released. */
  ghost predicate Exclusive(c: Core) {
    && (forall e, f | e in c.sim.pending && f in c.sim.pending && e.kind.Completes() && f.kind.Completes()
          && e.kind.gpu == f.kind.gpu :: e == f)
    && (forall e | e in c.sim.pending && e.kind.Completes() ::
          HasGpu(c.cluster, e.kind.gpu) && GpuAt(c.cluster, e.kind.gpu).busyUntil == e.time)
  }

  /** Nobody waits for a role while a GPU that serves it is idle. */
  ghost predicate NoIdleWait(c: Core) {
    && Distinct(c.cluster)
    && (c.prefillQueue != [] ==> c.Idle(Prefill).None?)
    && (c.decodeQueue != [] ==> c.Idle(Decode).None?)
  }

  lemma StrictBefore(a: Core, b: Core)
    requires Strict(b) && a.sim.pending <= b.sim.pending && a.Now() == b.Now()
    ensures Strict(a)
  {}

  lemma StartPrefillExclusive(c: Core, m: Engine, id: u64, g: GpuRef)
    requires Exclusive(c) && id in c.inFlight && HasGpu(c.cluster, g)
    requires GpuAt(c.cluster, g).busyUntil <= c.Now()
    requires forall e | e in c.sim.pending && e.kind.CompletesOn(g) :: c.Now() < e.time
    ensures Exclusive(StartPrefill(c, m, id, g))
  {
    assert forall e | e in c.sim.pending && e.kind.Completes() :: e.kind.gpu != g;
  }

  lemma StartDecodeExclusive(c: Core, m: Engine, id: u64, g: GpuRef)
    requires Exclusive(c) && id in c.inFlight && HasGpu(c.cluster, g)
    requires GpuAt(c.cluster, g).busyUntil <= c.Now()
    requires forall e | e in c.sim.pending && e.kind.CompletesOn(g) :: c.Now() < e.time
    ensures Exclusive(StartDecode(c, m, id, g))
  {
    assert forall e | e in c.sim.pending && e.kind.Completes() :: e.kind.gpu != g;
  }

  lemma DispatchExclusive(c: Core, m: Engine, id: u64)
    requires Exclusive(c) && Strict(c) && Distinct(c.cluster)
    ensures Exclusive(DispatchPrefill(c, m, id)) && Exclusive(DispatchDecode(c, m, id))
  {
    if id in c.inFlight {
      if c.Idle(Prefill).Some? { StartPrefillExclusive(c, m, id, c.Idle(Prefill).value); }
      if c.Idle(Decode).Some? { StartDecodeExclusive(c, m, id, c.Idle(Decode).value); }
    }
  }

  lemma {:induction false} AssignPrefillExclusive(c: Core, m: Engine)
    requires Sound(c, {}) && Exclusive(c) && Strict(AssignPrefill(c, m))
    ensures Exclusive(AssignPrefill(c, m))
    decreases |c.prefillQueue|
  {
    if c.prefillQueue != [] && c.Idle(Prefill).Some? {
      var g := c.Idle(Prefill).value;
      var id, rest := c.prefillQueue[0], c.(prefillQueue := c.prefillQueue[1..]);
      MembersOfTail(c.prefillQueue);
      assert Sound(rest, {id});
      var next := StartPrefill(rest, m, id, g);
      StartPrefillKeeps(rest, m, id, g);
      AssignPrefillKeeps(next, m);
      StrictBefore(rest, AssignPrefill(c, m));
      StartPrefillExclusive(rest, m, id, g);
      AssignPrefillExclusive(next, m);
    }
  }

  lemma {:induction false} AssignDecodeExclusive(c: Core, m: Engine)
    requires Sound(c, {}) && Exclusive(c) && Strict(AssignDecode(c, m))
    ensures Exclusive(AssignDecode(c, m))
    decreases |c.decodeQueue|
  {
    if c.decodeQueue != [] && c.Idle(Decode).Some? {
      var g := c.Idle(Decode).value;
      var id, rest := c.decodeQueue[0], c.(decodeQueue := c.decodeQueue[1..]);
      MembersOfTail(c.decodeQueue);
      assert Sound(rest, {id});
      var next := StartDecode(rest, m, id, g);
      StartDecodeKeeps(rest, m, id, g);
      AssignDecodeKeeps(next, m);
      StrictBefore(rest, AssignDecode(c, m));
      StartDecodeExclusive(rest, m, id, g);
      AssignDecodeExclusive(next, m);
    }
  }

  /** The GPU whose completion was just popped has no other task, so releasing it is harmless. */
  lemma ReleaseExclusive(c: Core, e: Ev)
    requires Exclusive(c) && e in c.sim.pending && e.kind.Completes()
    ensures Exclusive(Release(Pop(c, e), e.kind.gpu))
  {}

  lemma PopExclusive(c: Core, e: Ev)
    requires Exclusive(c)
    ensures Exclusive(Pop(c, e))
  {}

  lemma PrefillDoneExclusive(c: Core, m: Engine, e: Ev)
    requires Ready(c, e) && e.kind.PrefillDone?
    requires Exclusive(Release(c, e.kind.gpu)) && Strict(OnPrefillDone(c, m, e.kind.id, e.kind.gpu))
    ensures Exclusive(OnPrefillDone(c, m, e.kind.id, e.kind.gpu))
  {
    var id, c1 := e.kind.id, Release(c, e.kind.gpu);
    ReadyRelease(c, e);
    hide Located, Staged, Grounded, Active, Ready, DispatchDecode, Staffed, Exclusive, AssignPrefill, AssignDecode,
      Prefilled;
    DispatchDecodeKeeps(c1, m, id);
    var c2 := DispatchDecode(c1, m, id);
    AssignPrefillKeeps(c2, m);
    var c3 := AssignPrefill(c2, m);
    AssignDecodeKeeps(c3, m);
    var c4 := AssignDecode(c3, m);
    StrictBefore(c3, c4);
    StrictBefore(c2, c3);
    StrictBefore(c1, c2);
    hide Strict;
    DispatchExclusive(c1, m, id);
    AssignPrefillExclusive(c2, m);
    AssignDecodeExclusive(c3, m);
  }

  lemma DecodeDoneExclusive(c: Core, m: Engine, e: Ev)
    requires Ready(c, e) && e.kind.DecodeDone?
    requires Exclusive(Release(c, e.kind.gpu)) && Strict(OnDecodeDone(c, m, e.kind.id, e.kind.gpu))
    ensures Exclusive(OnDecodeDone(c, m, e.kind.id, e.kind.gpu))
  {
    var c2 := Finish(Release(c, e.kind.gpu), e.kind.id);
    assert Exclusive(c2);
    hide Located, Staged, Grounded, Active, Ready, Staffed, Exclusive, AssignPrefill, AssignDecode, Release, Finish;
    ReadyFinish(c, e, 3);
    AssignDecodeKeeps(c2, m);
    var c3 := AssignDecode(c2, m);
    AssignPrefillKeeps(c3, m);
    StrictBefore(c3, AssignPrefill(c3, m));
    hide Strict;
    AssignDecodeExclusive(c2, m);
    AssignPrefillExclusive(c3, m);
  }

  lemma TurnExclusive(c: Core, m: Engine, e: Ev, c': Core)
    requires Steady(c) && Exclusive(c) && Turn(c, m, e, c') && Strict(c')
    ensures Exclusive(c')
  {
    PoppedIsReady(c, e);
    var p := Pop(c, e);
    TurnKeeps(c, m, e, c');
    StrictBefore(p, c');
    PopExclusive(c, e);
    hide Steady, Ready, Strict, OnPrefillDone, OnDecodeDone;
    match e.kind {
      case RequestArrival(id) =>
        DispatchExclusive(p, m, id);
      case PrefillDone(id, g) =>
        ReleaseExclusive(c, e);
        hide Exclusive;
        PrefillDoneExclusive(p, m, e);
      case DecodeDone(id, g) =>
        ReleaseExclusive(c, e);
        hide Exclusive;
        DecodeDoneExclusive(p, m, e);
    }
  }

  // ---- nobody waits beside an idle GPU ----

  lemma StartKeepsNoIdle(c: Core, m: Engine, id: u64, g: GpuRef, role: Role)
    requires Distinct(c.cluster) && c.Idle(role).None?
    requires id in c.inFlight && HasGpu(c.cluster, g) && GpuAt(c.cluster, g).busyUntil <= c.Now()
    ensures StartPrefill(c, m, id, g).Idle(role).None? && StartDecode(c, m, id, g).Idle(role).None?
  {
    assert !IdleFor(GpuAt(c.cluster, g), c.Now(), role);
    var p, d := StartPrefill(c, m, id, g), StartDecode(c, m, id, g);
    forall h: GpuRef | HasGpu(c.cluster, h)
      ensures !IdleFor(GpuAt(p.cluster, h), c.Now(), role) && !IdleFor(GpuAt(d.cluster, h), c.Now(), role)
    {
      assert !IdleFor(GpuAt(c.cluster, h), c.Now(), role);
    }
  }

  lemma DispatchKeepsNoIdle(c: Core, m: Engine, id: u64, role: Role)
    requires Distinct(c.cluster) && c.Idle(role).None?
    ensures DispatchPrefill(c, m, id).Idle(role).None? && DispatchDecode(c, m, id).Idle(role).None?
  {
    if id in c.inFlight {
      if c.Idle(Prefill).Some? { StartKeepsNoIdle(c, m, id, c.Idle(Prefill).value, role); }
      if c.Idle(Decode).Some? { StartKeepsNoIdle(c, m, id, c.Idle(Decode).value, role); }
    }
  }

  lemma {:induction false} AssignPrefillKeepsNoIdle(c: Core, m: Engine, role: Role)
    requires Distinct(c.cluster) && c.Idle(role).None?
    ensures AssignPrefill(c, m).Idle(role).None?
    decreases |c.prefillQueue|
  {
    if c.prefillQueue != [] && c.Idle(Prefill).Some? {
      var g := c.Idle(Prefill).value;
      var id, rest := c.prefillQueue[0], c.(prefillQueue := c.prefillQueue[1..]);
      if id in rest.inFlight {
        StartKeepsNoIdle(rest, m, id, g, role);
        AssignPrefillKeepsNoIdle(StartPrefill(rest, m, id, g), m, role);
      } else {
        AssignPrefillKeepsNoIdle(rest, m, role);
      }
    }
  }

  lemma {:induction false} AssignDecodeKeepsNoIdle(c: Core, m: Engine, role: Role)
    requires Distinct(c.cluster) && c.Idle(role).None?
    ensures AssignDecode(c, m).Idle(role).None?
    decreases |c.decodeQueue|
  {
    if c.decodeQueue != [] && c.Idle(Decode).Some? {
      var g := c.Idle(Decode).value;
      var id, rest := c.decodeQueue[0], c.(decodeQueue := c.decodeQueue[1..]);
      if id in rest.inFlight {
        StartKeepsNoIdle(rest, m, id, g, role);
        AssignDecodeKeepsNoIdle(StartDecode(rest, m, id, g), m, role);
      } else {
        AssignDecodeKeepsNoIdle(rest, m, role);
      }
    }
  }

  /** Draining both queues, in either order, leaves nobody waiting beside an idle GPU. */
  lemma DrainedNoIdleWait(c: Core, m: Engine)
    requires Sound(c, {})
    ensures NoIdleWait(AssignDecode(AssignPrefill(c, m), m)) && NoIdleWait(AssignPrefill(AssignDecode(c, m), m))
  {
    AssignPrefillKeeps(c, m);
    var a := AssignPrefill(c, m);
    AssignDecodeKeeps(a, m);
    if a.Idle(Prefill).None? { AssignDecodeKeepsNoIdle(a, m, Prefill); }
    AssignDecodeKeeps(c, m);
    var b := AssignDecode(c, m);
    AssignPrefillKeeps(b, m);
    if b.Idle(Decode).None? { AssignPrefillKeepsNoIdle(b, m, Decode); }
  }

  ghost predicate FreesWorker(c: Core, e: Ev, role: Role) {
    e.kind.Completes() && HasGpu(c.cluster, e.kind.gpu) && Serves(GpuAt(c.cluster, e.kind.gpu), role)
  }

  /** Between two events no GPU becomes idle for a role unless the next event is its own completion. */
  lemma NothingReleasedEarly(c: Core, e: Ev, role: Role)
    requires Backed(c) && e in c.sim.pending && Earliest(e, c.sim.pending) && !FreesWorker(c, e, role)
    requires Strict(Pop(c, e)) && c.Now() <= e.time
    requires c.Idle(role).None?
    ensures Pop(c, e).Idle(role).None?
  {
    forall h: GpuRef | HasGpu(c.cluster, h) ensures !IdleFor(GpuAt(c.cluster, h), e.time, role) {
      assert !IdleFor(GpuAt(c.cluster, h), c.Now(), role);
      if Serves(GpuAt(c.cluster, h), role) {
        var f :| f in c.sim.pending && f.kind.CompletesOn(h) && f.time == GpuAt(c.cluster, h).busyUntil;
        assert f in Pop(c, e).sim.pending;
      }
    }
  }

  /** Who waits while a role has no idle GPU still finds none when the next event is not a completion. */
  lemma StillNoIdle(c: Core, e: Ev, role: Role)
    requires Steady(c) && Timed(c) && e in c.sim.pending && Earliest(e, c.sim.pending) && !e.kind.Completes()
    requires Strict(Pop(c, e)) && c.Idle(role).None? && (c.prefillQueue != [] || c.decodeQueue != [])
    ensures Pop(c, e).Idle(role).None?
  {
    assert Backed(c) && c.Now() <= e.time;
    hide Steady, Timed, Backed, Strict;
    NothingReleasedEarly(c, e, role);
  }

  lemma ArrivalNoIdleWait(c: Core, m: Engine, e: Ev)
    requires Steady(c) && Timed(c) && NoIdleWait(c)
    requires e in c.sim.pending && Earliest(e, c.sim.pending) && e.kind.RequestArrival?
    requires Strict(Pop(c, e))
    ensures NoIdleWait(OnArrival(Pop(c, e), m, e.kind.id))
  {
    var p := Pop(c, e);
    hide Steady, Timed, Strict;
    if c.prefillQueue != [] { StillNoIdle(c, e, Prefill); }
    if c.decodeQueue != [] { StillNoIdle(c, e, Decode); }
    if p.Idle(Prefill).None? { DispatchKeepsNoIdle(p, m, e.kind.id, Prefill); }
    if p.Idle(Decode).None? { DispatchKeepsNoIdle(p, m, e.kind.id, Decode); }
  }

  lemma PrefillDoneNoIdleWait(c: Core, m: Engine, e: Ev)
    requires Ready(c, e) && e.kind.PrefillDone?
    ensures NoIdleWait(OnPrefillDone(c, m, e.kind.id, e.kind.gpu))
  {
    var id, c1 := e.kind.id, Release(c, e.kind.gpu);
    ReadyRelease(c, e);
    hide Located, Staged, Grounded, Continues, Active, NoIdleWait, Ready, DispatchDecode, Staffed;
    DispatchDecodeKeeps(c1, m, id);
    DrainedNoIdleWait(DispatchDecode(c1, m, id), m);
  }

  lemma DecodeDoneNoIdleWait(c: Core, m: Engine, e: Ev)
    requires Ready(c, e) && e.kind.DecodeDone?
    ensures NoIdleWait(OnDecodeDone(c, m, e.kind.id, e.kind.gpu))
  {
    assert HasGpu(c.cluster, e.kind.gpu);
    hide Located, Staged, Grounded, NoIdleWait, Ready, Staffed, Release, Finish;
    ReadyFinish(c, e, 3);
    DrainedNoIdleWait(Finish(Release(c, e.kind.gpu), e.kind.id), m);
  }

  lemma TurnNoIdleWait(c: Core, m: Engine, e: Ev, c': Core)
    requires Steady(c) && Timed(c) && NoIdleWait(c) && Turn(c, m, e, c') && Strict(c')
    ensures NoIdleWait(c')
  {
    PoppedIsReady(c, e);
    TurnKeeps(c, m, e, c');
    StrictBefore(Pop(c, e), c');
    hide Steady, Timed, NoIdleWait, Strict, Ready, OnArrival, OnPrefillDone, OnDecodeDone;
    match e.kind {
      case RequestArrival(id) => ArrivalNoIdleWait(c, m, e);
      case PrefillDone(id, g) => PrefillDoneNoIdleWait(Pop(c, e), m, e);
      case DecodeDone(id, g) => DecodeDoneNoIdleWait(Pop(c, e), m, e);
    }
  }

  // ---- whole runs ----

  ghost predicate Orderly(c: Core) {
    Steady(c) && Timed(c) && Exclusive(c) && NoIdleWait(c)
  }

  lemma TurnOrderly(m: Engine, c: Core, e: Ev, c': Core)
    requires Orderly(c) && StrictTurns(m)(c, e, c')
    ensures Orderly(c')
  {
    hide Steady, Backed, Untouched, Exclusive, NoIdleWait, Turn, Strict;
    TurnKeeps(c, m, e, c');
    TurnBacked(c, m, e, c');
    TurnExclusive(c, m, e, c');
    TurnNoIdleWait(c, m, e, c');
  }

  lemma {:induction false} RunOrderly(m: Engine, states: seq<Core>, events: seq<Ev>, n: nat)
    requires IsTrace(StrictTurns(m), states, events) && Orderly(states[0]) && n <= |events|
    ensures Orderly(states[n])
  {
    hide *;
    if n > 0 {
      TraceStep(StrictTurns(m), states, events, n - 1);
      RunOrderly(m, states, events, n - 1);
      TurnOrderly(m, states[n-1], events[n-1], states[n]);
    }
  }

  ghost predicate NothingStarted(c: Core) {
    && c.prefillQueue == [] && c.decodeQueue == []
    && forall e | e in c.sim.pending :: !e.kind.Completes()
  }

  lemma SteadyIsOrderly(c: Core)
    requires Steady(c) && Timed(c) && NothingStarted(c)
    ensures Orderly(c)
  {
    hide Timed;
  }

  lemma LoadedNothingStarted(t: Topology, rs: seq<Request>)
    ensures NothingStarted(Loaded(t, rs))
  {
    LoadedQuiet(t, rs);
    forall e | e in Loaded(t, rs).sim.pending ensures !e.kind.Completes() {
      LoadedEvents(t, rs, e);
    }
  }

  lemma LoadedOrderly(t: Topology, rs: seq<Request>)
    requires Rested(t, rs) && UniqueIds(rs)
    ensures Orderly(Loaded(t, rs))
  {
    assert Servable(t, rs) && Distinct(t) && ReleasedBy(t, rs);
    hide Steady, Timed, NothingStarted, Orderly, Rested, Servable;
    LoadedSteady(t, rs);
    LoadedTimed(t, rs);
    LoadedNothingStarted(t, rs);
    SteadyIsOrderly(Loaded(t, rs));
  }

  /** In a tie-free run, after every event: each GPU has at most one pending completion, which is its release time,
      and no request waits for a role that an idle GPU serves. */
  lemma ExclusionAndNoWaste(t: Topology, rs: seq<Request>, m: Engine, states: seq<Core>, events: seq<Ev>, i: nat)
    requires Rested(t, rs) && UniqueIds(rs)
    requires IsTrace(StrictTurns(m), states, events) && states[0] == Loaded(t, rs) && i <= |events|
    ensures Exclusive(states[i]) && NoIdleWait(states[i])
  {
    hide StrictTurns, Exclusive, NoIdleWait, Steady, Rested;
    LoadedOrderly(t, rs);
    RunOrderly(m, states, events, i);
  }

  /** Orderly, and the task that ends with `f` is under way or over. */
  ghost predicate Tracked(f: Ev, c: Core) {
    Orderly(c) && (f in c.sim.pending || f.time <= c.Now())
  }

  lemma TurnTracked(m: Engine, f: Ev, c: Core, e: Ev, c': Core)
    requires Tracked(f, c) && StrictTurns(m)(c, e, c')
    ensures Tracked(f, c')
  {
    hide Steady, Timed, Exclusive, NoIdleWait, Strict;
    TurnOrderly(m, c, e, c');
    TurnKeeps(c, m, e, c');
  }

  lemma {:induction false} RunTracked(m: Engine, f: Ev, states: seq<Core>, events: seq<Ev>, k: nat, n: nat)
    requires IsTrace(StrictTurns(m), states, events) && k <= n <= |events| && Tracked(f, states[k])
    ensures Tracked(f, states[n])
  {
    hide StrictTurns, Tracked;
    if k < n {
      RunTracked(m, f, states, events, k, n - 1);
      TurnTracked(m, f, states[n-1], events[n-1], states[n]);
    }
  }

  /** Tasks on one GPU never overlap: once the task that ends with `g` is under way, every other task ever seen on
      that GPU (its end `f` pending in the same or an earlier state) is over. */
  lemma TasksDoNotOverlap(t: Topology, rs: seq<Request>, m: Engine, states: seq<Core>, events: seq<Ev>,
                          i: nat, f: Ev, j: nat, g: Ev)
    requires Rested(t, rs) && UniqueIds(rs)
    requires IsTrace(StrictTurns(m), states, events) && states[0] == Loaded(t, rs) && i <= j <= |events|
    requires f in states[i].sim.pending && g in states[j].sim.pending && f != g
    requires f.kind.Completes() && g.kind.Completes() && f.kind.gpu == g.kind.gpu
    ensures f.time <= states[j].Now()
  {
    hide StrictTurns, NoIdleWait, Steady, Rested;
    LoadedOrderly(t, rs);
    RunOrderly(m, states, events, i);
    RunTracked(m, f, states, events, i, j);
  }

  // ---- tasks as intervals ----

  /** When the task that ends with `f` began, as the entry of its request records it. */
  function BeganAt(c: Core, f: Ev): Option<u64>
    requires f.kind.id in c.inFlight
  {
    if f.kind.PrefillDone? then c.inFlight[f.kind.id].prefillStart else c.inFlight[f.kind.id].decodeStart
  }

  /** A task under way in `b` begins now, or was under way in `a` and began when it is recorded there. */
  ghost predicate BeginsOrGoesOn(a: Core, b: Core, f: Ev)
    requires f.kind.id in b.inFlight
  {
    || BeganAt(b, f) == Some(b.Now())
    || (f in a.sim.pending && f.kind.id in a.inFlight && BeganAt(b, f) == BeganAt(a, f))
  }

  ghost predicate Stamped(a: Core, b: Core) {
    forall f | f in b.sim.pending && f.kind.Completes() && f.kind.id in b.inFlight :: BeginsOrGoesOn(a, b, f)
  }

  lemma OthersNotPending(c: Core, id: u64, f: Ev)
    requires Located(c, {id}) && f in c.sim.pending
    ensures f.kind.id != id && f.kind.id in c.inFlight
  {
    assert f.kind.id in EventIds(c.sim.pending);
  }

  lemma StartsStamped(a: Core, c: Core, m: Engine, id: u64, g: GpuRef)
    requires Located(c, {id}) && HasGpu(c.cluster, g) && Stamped(a, c)
    ensures Stamped(a, StartPrefill(c, m, id, g)) && Stamped(a, StartDecode(c, m, id, g))
  {
    assert id in c.inFlight && c.inFlight[id].req.id == id;
    hide Located, HasGpu, SetBusy;
    var p, d := StartPrefill(c, m, id, g), StartDecode(c, m, id, g);
    forall f | f in p.sim.pending && f.kind.Completes() && f.kind.id in p.inFlight ensures BeginsOrGoesOn(a, p, f) {
      if f in c.sim.pending { OthersNotPending(c, id, f); assert BeginsOrGoesOn(a, c, f); }
    }
    forall f | f in d.sim.pending && f.kind.Completes() && f.kind.id in d.inFlight ensures BeginsOrGoesOn(a, d, f) {
      if f in c.sim.pending { OthersNotPending(c, id, f); assert BeginsOrGoesOn(a, c, f); }
    }
  }

  lemma DispatchStamped(a: Core, c: Core, m: Engine, id: u64)
    requires Located(c, {id}) && Distinct(c.cluster) && Stamped(a, c)
    ensures Stamped(a, DispatchPrefill(c, m, id)) && Stamped(a, DispatchDecode(c, m, id))
  {
    assert id in c.inFlight;
    hide Located, StartPrefill, StartDecode, Distinct;
    if c.Idle(Prefill).Some? { StartsStamped(a, c, m, id, c.Idle(Prefill).value); }
    if c.Idle(Decode).Some? { StartsStamped(a, c, m, id, c.Idle(Decode).value); }
  }

  lemma {:induction false} AssignPrefillStamped(a: Core, c: Core, m: Engine)
    requires Sound(c, {}) && Stamped(a, c)
    ensures Stamped(a, AssignPrefill(c, m))
    decreases |c.prefillQueue|
  {
    if c.prefillQueue != [] && c.Idle(Prefill).Some? {
      var g := c.Idle(Prefill).value;
      var id, rest := c.prefillQueue[0], c.(prefillQueue := c.prefillQueue[1..]);
      PrefillHead(c);
      assert Stamped(a, rest);
      hide Staged, Grounded, Continues, Active, Unstarted, Stamped;
      StartPrefillKeeps(rest, m, id, g);
      StartsStamped(a, rest, m, id, g);
      AssignPrefillStamped(a, StartPrefill(rest, m, id, g), m);
    }
  }

  lemma {:induction false} AssignDecodeStamped(a: Core, c: Core, m: Engine)
    requires Sound(c, {}) && Stamped(a, c)
    ensures Stamped(a, AssignDecode(c, m))
    decreases |c.decodeQueue|
  {
    if c.decodeQueue != [] && c.Idle(Decode).Some? {
      var g := c.Idle(Decode).value;
      var id, rest := c.decodeQueue[0], c.(decodeQueue := c.decodeQueue[1..]);
      DecodeHead(c);
      assert Stamped(a, rest);
      hide Staged, Grounded, Continues, Active, Prefilled, Stamped;
      StartDecodeKeeps(rest, m, id, g);
      StartsStamped(a, rest, m, id, g);
      AssignDecodeStamped(a, StartDecode(rest, m, id, g), m);
    }
  }

  lemma PrefillDoneStamped(a: Core, c: Core, m: Engine, e: Ev)
    requires Ready(c, e) && e.kind.PrefillDone? && Stamped(a, c)
    ensures Distinct(c.cluster) && HasGpu(c.cluster, e.kind.gpu)
    ensures Stamped(a, OnPrefillDone(c, m, e.kind.id, e.kind.gpu))
  {
    var id, c1 := e.kind.id, Release(c, e.kind.gpu);
    assert Stamped(a, c1);
    ReadyRelease(c, e);
    hide Located, Staged, Grounded, Active, Ready, Staffed, Stamped, DispatchDecode, AssignPrefill, AssignDecode,
      Prefilled;
    var c2 := DispatchDecode(c1, m, id);
    DispatchDecodeKeeps(c1, m, id);
    DispatchStamped(a, c1, m, id);
    AssignPrefillKeeps(c2, m);
    AssignPrefillStamped(a, c2, m);
    AssignDecodeStamped(a, AssignPrefill(c2, m), m);
  }

  lemma DecodeDoneStamped(a: Core, c: Core, m: Engine, e: Ev)
    requires Ready(c, e) && e.kind.DecodeDone? && Stamped(a, c)
    ensures Distinct(c.cluster) && HasGpu(c.cluster, e.kind.gpu)
    ensures Stamped(a, OnDecodeDone(c, m, e.kind.id, e.kind.gpu))
  {
    var c2 := Finish(Release(c, e.kind.gpu), e.kind.id);
    FinishStamped(a, c, e);
    ReadyFinish(c, e, 3);
    assert Distinct(c.cluster) && HasGpu(c.cluster, e.kind.gpu);
    hide Located, Staged, Grounded, Active, Ready, Staffed, Stamped, Release, Finish, AssignPrefill, AssignDecode;
    AssignDecodeKeeps(c2, m);
    AssignDecodeStamped(a, c2, m);
    AssignPrefillStamped(a, AssignDecode(c2, m), m);
  }

  lemma FinishStamped(a: Core, c: Core, e: Ev)
    requires Stamped(a, c) && e.kind.Completes() && HasGpu(c.cluster, e.kind.gpu)
    ensures Stamped(a, Finish(Release(c, e.kind.gpu), e.kind.id))
  {
    hide HasGpu, SetBusy;
    var c2 := Finish(Release(c, e.kind.gpu), e.kind.id);
    forall f | f in c2.sim.pending && f.kind.Completes() && f.kind.id in c2.inFlight ensures BeginsOrGoesOn(a, c2, f) {
      assert BeginsOrGoesOn(a, c, f);
    }
  }

  lemma ReadyLocated(c: Core, e: Ev)
    requires Ready(c, e)
    ensures Located(c, {e.kind.id}) && Distinct(c.cluster)
  {
    hide Located;
  }

  lemma TurnStamped(c: Core, m: Engine, e: Ev, c': Core)
    requires Steady(c) && Turn(c, m, e, c')
    ensures Stamped(c, c')
  {
    hide Located, Staged, Grounded, Live, Manned, Ready, OnPrefillDone, OnDecodeDone, DispatchPrefill, Earliest;
    PoppedIsReady(c, e);
    var p := Pop(c, e);
    ReadyLocated(p, e);
    assert Stamped(c, p);
    hide Stamped;
    match e.kind {
      case RequestArrival(id) => DispatchStamped(c, p, m, id);
      case PrefillDone(id, g) => PrefillDoneStamped(c, p, m, e);
      case DecodeDone(id, g) => DecodeDoneStamped(c, p, m, e);
    }
  }

  lemma PendingInFlight(c: Core, f: Ev)
    requires Orderly(c) && f in c.sim.pending
    ensures f.kind.id in c.inFlight
  {
    assert f.kind.id in EventIds(c.sim.pending);
  }

  lemma StampedTask(m: Engine, c: Core, e: Ev, c': Core, f: Ev)
    requires Orderly(c) && StrictTurns(m)(c, e, c') && f in c'.sim.pending && f.kind.Completes() && f.kind.id in c'.inFlight
    ensures BeginsOrGoesOn(c, c', f)
  {
    assert Turn(c, m, e, c') && Steady(c);
    hide Orderly, Turn, Steady, BeginsOrGoesOn;
    TurnStamped(c, m, e, c');
  }

  /** The recorded start of a task under way is the moment of a state in which the task was already under way. */
  lemma {:induction false} BeganInRun(t: Topology, rs: seq<Request>, m: Engine, states: seq<Core>, events: seq<Ev>,
                                      j: nat, f: Ev) returns (k: nat)
    requires Rested(t, rs) && UniqueIds(rs)
    requires IsTrace(StrictTurns(m), states, events) && states[0] == Loaded(t, rs) && j <= |events|
    requires f in states[j].sim.pending && f.kind.Completes()
    ensures k <= j && f in states[k].sim.pending && f.kind.id in states[j].inFlight
    ensures BeganAt(states[j], f) == Some(states[k].Now())
  {
    hide Rested, UniqueIds, StrictTurns, Orderly, Loaded;
    LoadedOrderly(t, rs);
    RunOrderly(m, states, events, j);
    PendingInFlight(states[j], f);
    if j == 0 {
      k := 0;
      LoadedNothingStarted(t, rs);
    } else {
      RunOrderly(m, states, events, j - 1);
      TraceStep(StrictTurns(m), states, events, j - 1);
      StampedTask(m, states[j-1], events[j-1], states[j], f);
      if BeganAt(states[j], f) == Some(states[j].Now()) {
        k := j;
      } else {
        k := BeganInRun(t, rs, m, states, events, j - 1, f);
      }
    }
  }

  /** In a tie-free run no two tasks on one GPU overlap in time: of two tasks ever seen under way there, each from the
      start its request's entry records to its own end, one ends before the other starts. */
  lemma IntervalsDisjoint(t: Topology, rs: seq<Request>, m: Engine, states: seq<Core>, events: seq<Ev>,
                          i: nat, f: Ev, j: nat, g: Ev)
    requires Rested(t, rs) && UniqueIds(rs)
    requires IsTrace(StrictTurns(m), states, events) && states[0] == Loaded(t, rs) && i <= |events| && j <= |events|
    requires f in states[i].sim.pending && g in states[j].sim.pending && f != g
    requires f.kind.Completes() && g.kind.Completes() && f.kind.gpu == g.kind.gpu
    ensures f.kind.id in states[i].inFlight && g.kind.id in states[j].inFlight
    ensures BeganAt(states[i], f).Some? && BeganAt(states[j], g).Some?
    ensures f.time <= BeganAt(states[j], g).value || g.time <= BeganAt(states[i], f).value
  {
    hide Rested, UniqueIds, StrictTurns, IsTrace, Loaded, BeganAt;
    var k := BeganInRun(t, rs, m, states, events, i, f);
    var l := BeganInRun(t, rs, m, states, events, j, g);
    if k <= l {
      TasksDoNotOverlap(t, rs, m, states, events, k, f, l, g);
    } else {
      TasksDoNotOverlap(t, rs, m, states, events, l, g, k, f);
    }
  }
}
