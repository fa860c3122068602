/** Small runs that show what goes wrong without the conditions of the theorems: simultaneous events, prefills that
    overtake each other, GPUs that serve both roles, and GPUs still marked busy by an earlier run. */
module Counterexamples {
  import opened Numbers
  import opened Simulation
  import opened Cluster
  import opened Requests
  import NR = NoReuse
  import opened Machine
  import opened Lifecycle
  import opened Traces
  import opened EventDriven
  import opened TieFree
  import opened TwoStage
  import Fcfs

  // ---- one node with prefill GPU 0, decode GPU 2, and GPU 1 for a second prefill worker or none ----

  function Cell(a: u64, b: u64, d: u64, second: Role): Topology {
    [Node(0, [Gpu(0, 0, a, Prefill), Gpu(1, 0, b, second), Gpu(2, 0, d, Decode)])]
  }

  function Trio(a: u64, b: u64, d: u64): Topology {
    Cell(a, b, d, Prefill)
  }

  /** One prefill and one decode GPU. */
  function Duo(a: u64, d: u64): Topology {
    Cell(a, 0, d, CacheOnly)
  }

  const P0 := GpuRef(0, 0)
  const P1 := GpuRef(0, 1)
  const D := GpuRef(0, 2)

  lemma CellGpus(a: u64, b: u64, d: u64, second: Role)
    ensures Distinct(Cell(a, b, d, second))
    ensures forall g: GpuRef :: HasGpu(Cell(a, b, d, second), g) <==> g.node == 0 && g.idx < 3
    ensures GpuAt(Cell(a, b, d, second), P0) == Gpu(0, 0, a, Prefill)
    ensures GpuAt(Cell(a, b, d, second), P1) == Gpu(1, 0, b, second)
    ensures GpuAt(Cell(a, b, d, second), D) == Gpu(2, 0, d, Decode)
  {
    var t := Cell(a, b, d, second);
    assert NodeIndex(t, 0) == 0;
    forall g: GpuRef ensures HasGpu(t, g) <==> g.node == 0 && g.idx < 3 {
      var i := NodeIndex(t, g.node);
      assert i < 1 ==> t[i].nodeId == g.node;
    }
  }

  lemma CellIdle(a: u64, b: u64, d: u64, second: Role, now: u64)
    requires Distinct(Cell(a, b, d, second)) && (second == Prefill || second == CacheOnly)
    ensures a <= now && (a <= b || second == CacheOnly) ==> FindIdle(Cell(a, b, d, second), now, Prefill) == Some(P0)
    ensures b <= now && b < a && second == Prefill ==> FindIdle(Cell(a, b, d, second), now, Prefill) == Some(P1)
    ensures now < a && (now < b || second == CacheOnly) ==> FindIdle(Cell(a, b, d, second), now, Prefill) == None
    ensures d <= now ==> FindIdle(Cell(a, b, d, second), now, Decode) == Some(D)
  {
    var t := Cell(a, b, d, second);
    var gpus := t[0].gpus;
    assert gpus[0] == Gpu(0, 0, a, Prefill) && gpus[1] == Gpu(1, 0, b, second) && gpus[2] == Gpu(2, 0, d, Decode);
    OneNode(t, now, Prefill);
    OneNode(t, now, Decode);
    var p, q := NodeIdle(gpus, now, Prefill), NodeIdle(gpus, now, Decode);
    assert IdleFor(gpus[0], now, Prefill) <==> a <= now;
    assert IdleFor(gpus[1], now, Prefill) <==> b <= now && second == Prefill;
    assert !IdleFor(gpus[2], now, Prefill);
    assert !IdleFor(gpus[0], now, Decode) && !IdleFor(gpus[1], now, Decode);
    assert IdleFor(gpus[2], now, Decode) <==> d <= now;
  }

  lemma OneNode(t: Topology, now: u64, role: Role)
    requires Distinct(t) && |t| == 1
    ensures var r := NodeIdle(t[0].gpus, now, role);
            FindIdle(t, now, role) == if r.Some? then Some(GpuRef(t[0].nodeId, r.value)) else None
  {
    assert FindIdleAmong(t, 0, now, role) == None;
  }

  lemma CellSetBusy(a: u64, b: u64, d: u64, second: Role, until: u64)
    requires var t := Cell(a, b, d, second); HasGpu(t, P0) && HasGpu(t, P1) && HasGpu(t, D)
    ensures SetBusy(Cell(a, b, d, second), P0, until) == Cell(until, b, d, second)
    ensures SetBusy(Cell(a, b, d, second), P1, until) == Cell(a, until, d, second)
    ensures SetBusy(Cell(a, b, d, second), D, until) == Cell(a, b, until, second)
  {
    var t := Cell(a, b, d, second);
    assert NodeIndex(t, 0) == 0;
    var gpus := t[0].gpus;
    assert gpus[0 := Gpu(0, 0, until, Prefill)] == Cell(until, b, d, second)[0].gpus;
    assert gpus[1 := Gpu(1, 0, until, second)] == Cell(a, until, d, second)[0].gpus;
    assert gpus[2 := Gpu(2, 0, until, Decode)] == Cell(a, b, until, second)[0].gpus;
    assert forall n: Node :: t[0 := n] == [n];
  }

  // ---- GPUs that an earlier run left marked busy ----

  function Single(arrival: u64): Request {
    Request(7, 0, 0, arrival, 1, 1, 1)
  }

  lemma LoadedSingle(t: Topology, r: Request)
    ensures Loaded(t, [r]) == Core(Sim(0, {Event(r.arrival, 0, RequestArrival(r.id))}, 1), t, map[r.id := NewInFlight(r)], [], [], [])
  {
    assert [r][..0] == [];
    assert Loaded(t, [r]) == Admit(Loaded(t, []), r);
    assert Loaded(t, []) == Core(NewSim(), t, map[], [], [], []);
  }

  /** A request that arrives while both prefill GPUs still carry a later release time from a previous run is queued
      for ever: the run ends after one event without a result. */
  lemma StaleGpusStrandRequests(m: Engine, arrival: u64, a: u64, b: u64, d: u64)
      returns (states: seq<Core>, events: seq<Ev>)
    requires arrival < a && arrival < b
    ensures IsTrace(Turns(m), states, events) && states[0] == Loaded(Trio(a, b, d), [Single(arrival)])
    ensures states[|events|].sim.pending == {} && states[|events|].results == []
    ensures states[|events|].prefillQueue == [Single(arrival).id]
  {
    var t, r := Trio(a, b, d), Single(arrival);
    var e := Event(arrival, 0, RequestArrival(r.id));
    CellGpus(a, b, d, Prefill);
    CellIdle(a, b, d, Prefill, arrival);
    LoadedSingle(t, r);
    hide Loaded, FindIdle;
    var s0 := Loaded(t, [r]);
    assert Earliest(e, {e});
    var s1 := Handle(Pop(s0, e), m, e);
    assert Turns(m)(s0, e, s1);
    states, events := [s0, s1], [e];
  }

  // ---- prefills that overtake each other ----

  /** A long prompt arrives at 0 and a short one at 1. */
  const LONG := Request(0, 0, 0, 0, 100, 100, 50)
  const SHORT := Request(1, 1, 0, 1, 10, 10, 1)

  /** A prefill takes as long as the prompt is, a decode step one unit. */
  function Plainly(): Engine {
    Engine(tokens => tokens, (b, p) => 1, 1)
  }

  lemma LoadedTwo(t: Topology, r: Request, q: Request)
    requires r.id != q.id
    ensures Loaded(t, [r, q]) == Core(Sim(0, {Event(r.arrival, 0, RequestArrival(r.id)), Event(q.arrival, 1, RequestArrival(q.id))}, 2),
                                      t, map[r.id := NewInFlight(r), q.id := NewInFlight(q)], [], [], [])
  {
    assert [r, q][..1] == [r];
    LoadedSingle(t, r);
    assert Loaded(t, [r, q]) == Admit(Loaded(t, [r]), q);
  }

  /** The same two requests with two prefill workers and one decode worker: the baseline keeps the short one waiting
      for the decode of the long one, the event-driven runner does not. There are no ties; the prefills are out of
      step. */
  lemma OvertakingBreaksEquivalence() returns (states: seq<Core>, events: seq<Ev>)
    ensures IsTrace(Turns(Plainly()), states, events) && states[0] == Loaded(Trio(0, 0, 0), [LONG, SHORT])
    ensures SHORT.id in states[|events|].inFlight && states[|events|].inFlight[SHORT.id].decodeStart == Some(11)
    ensures NR.ServeAll(Plainly(), NR.Workers(NR.Fresh(2), NR.Fresh(1)), [LONG, SHORT])[1].decodeStart == 150
  {
    states, events := OvertakingRun();
    OvertakingBaseline();
  }

  lemma OvertakingBaseline()
    ensures NR.ServeAll(Plainly(), NR.Workers(NR.Fresh(2), NR.Fresh(1)), [LONG, SHORT])[1].decodeStart == 150
  {
    var w, rs, m := NR.Workers(NR.Fresh(2), NR.Fresh(1)), [LONG, SHORT], Plainly();
    NR.ServedAt(m, w, rs, 2, 1);
    assert NR.Fresh(2) == [0, 0] && NR.Fresh(1) == [0];
    var o := NR.ServeOne(m, w, LONG);
    assert o.finish == 150;
    assert NR.Met(m, w, rs, 0) == w;
    assert NR.Met(m, w, rs, 1) == NR.Occupy(w, o);
  }

  lemma OvertakingRun() returns (states: seq<Core>, events: seq<Ev>)
    ensures IsTrace(Turns(Plainly()), states, events) && states[0] == Loaded(Trio(0, 0, 0), [LONG, SHORT])
    ensures SHORT.id in states[|events|].inFlight && states[|events|].inFlight[SHORT.id].decodeStart == Some(11)
  {
    var m := Plainly();
    var a0, a1 := Event(0, 0, RequestArrival(0)), Event(1, 1, RequestArrival(1));
    var p0, p1 := Event(100, 2, PrefillDone(0, P0)), Event(11, 3, PrefillDone(1, P1));
    LoadedTwo(Trio(0, 0, 0), LONG, SHORT);
    hide Turns, Loaded, Cell, Handle;
    var s0 := Loaded(Trio(0, 0, 0), [LONG, SHORT]);
    var s1 := FirstStep(s0, m, a0, a1, p0);
    var s2 := SecondStep(s1, m, a1, p0, p1);
    var s3 := ThirdStep(s2, m, p0, p1);
    ThreeTurns(Turns(m), s0, a0, s1, a1, s2, p1, s3);
    states, events := [s0, s1, s2, s3], [a0, a1, p1];
  }

  lemma ThreeTurns<S(!new), E(!new)>(step: (S, E, S) -> bool, s0: S, e0: E, s1: S, e1: E, s2: S, e2: E, s3: S)
    requires step(s0, e0, s1) && step(s1, e1, s2) && step(s2, e2, s3)
    ensures IsTrace(step, [s0, s1, s2, s3], [e0, e1, e2])
  {}

  lemma FirstStep(s0: Core, m: Engine, a0: Ev, a1: Ev, p0: Ev) returns (s1: Core)
    requires m == Plainly() && a0 == Event(0, 0, RequestArrival(0)) && a1 == Event(1, 1, RequestArrival(1))
    requires p0 == Event(100, 2, PrefillDone(0, P0))
    requires s0 == Core(Sim(0, {a0, a1}, 2), Trio(0, 0, 0), map[0 := NewInFlight(LONG), 1 := NewInFlight(SHORT)], [], [], [])
    ensures Turns(m)(s0, a0, s1)
    ensures s1.sim == Sim(0, {a1, p0}, 3) && s1.cluster == Trio(100, 0, 0) && s1.prefillQueue == []
            && s1.decodeQueue == []
    ensures s1.inFlight.Keys == {0, 1} && s1.inFlight[1] == NewInFlight(SHORT)
  {
    CellGpus(0, 0, 0, Prefill);
    CellIdle(0, 0, 0, Prefill, 0);
    CellSetBusy(0, 0, 0, Prefill, 100);
    hide FindIdle, SetBusy, Cell;
    s1 := Handle(Pop(s0, a0), m, a0);
    assert Earliest(a0, s0.sim.pending);
    assert {a0, a1} - {a0} + {p0} == {a1, p0};
  }

  lemma SecondStep(s1: Core, m: Engine, a1: Ev, p0: Ev, p1: Ev) returns (s2: Core)
    requires m == Plainly() && a1 == Event(1, 1, RequestArrival(1)) && p0 == Event(100, 2, PrefillDone(0, P0))
    requires p1 == Event(11, 3, PrefillDone(1, P1))
    requires s1.sim == Sim(0, {a1, p0}, 3) && s1.cluster == Trio(100, 0, 0) && s1.prefillQueue == []
             && s1.decodeQueue == []
    requires s1.inFlight.Keys == {0, 1} && s1.inFlight[1] == NewInFlight(SHORT)
    ensures Turns(m)(s1, a1, s2)
    ensures s2.sim == Sim(1, {p0, p1}, 4) && s2.cluster == Trio(100, 11, 0) && s2.prefillQueue == []
            && s2.decodeQueue == []
    ensures 1 in s2.inFlight && s2.inFlight[1].req == SHORT
  {
    CellGpus(100, 0, 0, Prefill);
    CellIdle(100, 0, 0, Prefill, 1);
    CellSetBusy(100, 0, 0, Prefill, 11);
    hide FindIdle, SetBusy, Cell;
    s2 := Handle(Pop(s1, a1), m, a1);
    assert Earliest(a1, s1.sim.pending);
    assert {a1, p0} - {a1} + {p1} == {p0, p1};
  }

  lemma ThirdStep(s2: Core, m: Engine, p0: Ev, p1: Ev) returns (s3: Core)
    requires m == Plainly() && p0 == Event(100, 2, PrefillDone(0, P0)) && p1 == Event(11, 3, PrefillDone(1, P1))
    requires s2.sim == Sim(1, {p0, p1}, 4) && s2.cluster == Trio(100, 11, 0) && s2.prefillQueue == []
             && s2.decodeQueue == []
    requires 1 in s2.inFlight && s2.inFlight[1].req == SHORT
    ensures Turns(m)(s2, p1, s3)
    ensures 1 in s3.inFlight && s3.inFlight[1].decodeStart == Some(11)
  {
    CellGpus(100, 11, 0, Prefill);
    CellIdle(100, 11, 0, Prefill, 11);
    CellSetBusy(100, 11, 0, Prefill, 11);
    hide FindIdle, SetBusy, Cell;
    assert Earliest(p1, s2.sim.pending);
    s3 := Handle(Pop(s2, p1), m, p1);
  }

  /** The two requests on two workers of either kind. */
  ghost predicate TwoByTwo(x: Plan) {
    x.m == Plainly() && x.w == NR.Workers([0, 0], [0, 0]) && x.rs == [LONG, SHORT] && x.Valid()
  }

  lemma FirstFree(a: u64, b: u64)
    ensures NR.FreeAt([a, b]) == if b < a then b else a
    ensures a <= b ==> forall until: u64 :: NR.Claim([a, b], until) == [until, b]
    ensures b < a ==> forall until: u64 :: NR.Claim([a, b], until) == [a, until]
  {
    assert [a, b][..1] == [a];
    assert NR.EarliestWorker([a]) == 0;
  }

  lemma OutOfStepFronts(x: Plan)
    requires TwoByTwo(x)
    ensures x.Front(0).prefillDone == 100 && x.Front(0).decodeStart == 100
    ensures x.Front(1).prefillDone == 11 && x.Front(1).decodeStart == 11
  {
    FirstFree(0, 0);
    FirstFree(100, 0);
    FirstFree(150, 0);
    hide NR.FreeAt, NR.Claim, Plan.Valid;
    assert NR.Met(x.m, x.w, x.rs, 0) == x.w;
    NR.MetStep(x.m, x.w, x.rs, 0);
    assert NR.Met(x.m, x.w, x.rs, 1) == NR.Workers([100, 0], [150, 0]);
    hide NR.Met;
  }

  lemma OutOfStepLine(x: Plan)
    requires TwoByTwo(x)
    ensures x.Fits() && |x.line| == |x.place| == 2 && x.line == [1, 0] && x.place == [1, 0]
  {
    OutOfStepFronts(x);
    hide Plan.Front;
    assert x.EndsFirst(x.line[0], x.line[1]);
    assert x.line[0] == 1 && x.line[1] == 0;
  }

  lemma OutOfStepBacks(x: Plan)
    requires TwoByTwo(x)
    ensures x.Fits() && x.line == [1, 0]
    ensures x.Back(0).decodeStart == 11 && x.Back(0).finish == 12
    ensures x.Back(1).decodeStart == 100 && x.Back(1).finish == 150
  {
    OutOfStepFronts(x);
    OutOfStepLine(x);
    FirstFree(0, 0);
    FirstFree(12, 0);
    assert x.Pool(0) == [0, 0];
    hide NR.FreeAt, NR.Claim, Plan.Valid, Plan.Fits, Plan.Front, Plan.Back, Plan.Pool;
    PoolNext(x, 0);
    PoolNext(x, 1);
  }

  lemma OutOfStepFacts(x: Plan)
    requires TwoByTwo(x)
    ensures x.Fits() && x.NoTies() && !x.InStep() && x.SameStarts()
  {
    hide Plan.Front, Plan.Back, Plan.Valid, Plan.Fits;
    OutOfStepFronts(x);
    OutOfStepLine(x);
    OutOfStepBacks(x);
    assert x.rs[0].arrival == 0 && x.rs[1].arrival == 1;
  }

  lemma TwoByTwoPlan()
    ensures TwoByTwo(PlanOf(Plainly(), NR.Workers(NR.Fresh(2), NR.Fresh(2)), [LONG, SHORT]))
  {
    assert NR.Fresh(2) == [0, 0];
    assert Fcfs.Trace([LONG, SHORT]);
    hide LineOf, PlacesOf, Plan.Valid, Fcfs.Trace, Plainly;
    PlanOfValid(Plainly(), NR.Workers(NR.Fresh(2), NR.Fresh(2)), [LONG, SHORT]);
  }

  /** With two decode workers as well the same two requests overtake each other just the same, yet both decodes start
      at the same moment in both closed forms: it is the coincidence of the starts that decides, not the order in which
      prefills end. */
  lemma OutOfStepYetEqual()
    ensures var x := PlanOf(Plainly(), NR.Workers(NR.Fresh(2), NR.Fresh(2)), [LONG, SHORT]);
            x.Fits() && x.NoTies() && !x.InStep() && x.SameStarts()
  {
    hide *;
    TwoByTwoPlan();
    OutOfStepFacts(PlanOf(Plainly(), NR.Workers(NR.Fresh(2), NR.Fresh(2)), [LONG, SHORT]));
  }

  // ---- a GPU that serves both roles ----

  /** One GPU for both roles and one for prefill only. */
  function Pair(a: u64, b: u64): Topology {
    [Node(0, [Gpu(0, 0, a, Unified), Gpu(1, 0, b, Prefill)])]
  }

  lemma PairGpus(a: u64, b: u64)
    ensures Distinct(Pair(a, b)) && HasGpu(Pair(a, b), P0) && HasGpu(Pair(a, b), P1)
    ensures Serves(GpuAt(Pair(a, b), P0), Decode)
  {
    assert NodeIndex(Pair(a, b), 0) == 0;
  }

  lemma PairIdle(a: u64, b: u64, now: u64)
    requires Distinct(Pair(a, b))
    ensures a <= now && a <= b ==> FindIdle(Pair(a, b), now, Prefill) == Some(P0)
    ensures b <= now < a ==> FindIdle(Pair(a, b), now, Prefill) == Some(P1)
    ensures a <= now ==> FindIdle(Pair(a, b), now, Decode) == Some(P0)
    ensures now < a ==> FindIdle(Pair(a, b), now, Decode) == None
  {
    var t := Pair(a, b);
    var gpus := t[0].gpus;
    assert gpus[0] == Gpu(0, 0, a, Unified) && gpus[1] == Gpu(1, 0, b, Prefill);
    OneNode(t, now, Prefill);
    OneNode(t, now, Decode);
    var p, q := NodeIdle(gpus, now, Prefill), NodeIdle(gpus, now, Decode);
    assert IdleFor(gpus[0], now, Prefill) <==> a <= now;
    assert IdleFor(gpus[1], now, Prefill) <==> b <= now;
    assert IdleFor(gpus[0], now, Decode) <==> a <= now;
    assert !IdleFor(gpus[1], now, Decode);
  }

  lemma PairSetBusy(a: u64, b: u64, until: u64)
    requires var t := Pair(a, b); HasGpu(t, P0) && HasGpu(t, P1)
    ensures SetBusy(Pair(a, b), P0, until) == Pair(until, b)
    ensures SetBusy(Pair(a, b), P1, until) == Pair(a, until)
  {
    var t := Pair(a, b);
    assert NodeIndex(t, 0) == 0;
    var gpus := t[0].gpus;
    assert gpus[0 := Gpu(0, 0, until, Unified)] == Pair(until, b)[0].gpus;
    assert gpus[1 := Gpu(1, 0, until, Prefill)] == Pair(a, until)[0].gpus;
    assert forall n: Node :: t[0 := n] == [n];
  }

  const LA := Event(0, 0, RequestArrival(0))
  const SA := Event(1, 1, RequestArrival(1))
  const LP := Event(100, 2, PrefillDone(0, P0))
  const SP := Event(11, 3, PrefillDone(1, P1))

  /** The long request has not been decoded yet. */
  ghost predicate Both(c: Core) {
    && c.inFlight.Keys == {0, 1} && c.inFlight[0].req == LONG && c.inFlight[1].req == SHORT
    && c.inFlight[0].decodeStart.None? && c.inFlight[1].decodeStart.None?
    && c.inFlight[0].prefillTokens == 0 && c.inFlight[1].prefillTokens == 0 && c.prefillQueue == []
  }

  /** One of the two starts its prefill. */
  lemma StartsPrefill(d: Core, id: u64, g: GpuRef, done: u64) returns (s: Core)
    requires Both(d) && id in d.inFlight && HasGpu(d.cluster, g) && done == d.Now() + d.inFlight[id].req.promptTokens
    requires done <= MAX64
    ensures s == StartPrefill(d, Plainly(), id, g) && Both(s) && s.decodeQueue == d.decodeQueue
    ensures s.sim == Scheduled(d.sim, done, PrefillDone(id, g)) && s.cluster == SetBusy(d.cluster, g, done)
  {
    hide SetBusy, HasGpu;
    s := StartPrefill(d, Plainly(), id, g);
  }

  lemma UnifiedStep0(s0: Core) returns (s1: Core)
    requires s0.sim == Sim(0, {LA, SA}, 2) && s0.cluster == Pair(0, 0) && s0.decodeQueue == [] && Both(s0)
    ensures StrictTurns(Plainly())(s0, LA, s1)
    ensures s1.sim == Sim(0, {SA, LP}, 3) && s1.cluster == Pair(100, 0) && s1.decodeQueue == [] && Both(s1)
  {
    PairGpus(0, 0);
    PairIdle(0, 0, 0);
    PairSetBusy(0, 0, 100);
    hide FindIdle, SetBusy, Pair;
    assert Earliest(LA, s0.sim.pending);
    var d := Pop(s0, LA);
    assert {LA, SA} - {LA} == {SA};
    s1 := StartsPrefill(d, 0, P0, 100);
    assert Handle(d, Plainly(), LA) == s1;
    assert {SA} + {LP} == {SA, LP};
    hide Handle, Both;
    assert Turn(s0, Plainly(), LA, s1);
    assert Strict(s1);
  }

  lemma UnifiedStep1(s1: Core) returns (s2: Core)
    requires s1.sim == Sim(0, {SA, LP}, 3) && s1.cluster == Pair(100, 0) && s1.decodeQueue == [] && Both(s1)
    ensures StrictTurns(Plainly())(s1, SA, s2)
    ensures s2.sim == Sim(1, {LP, SP}, 4) && s2.cluster == Pair(100, 11) && s2.decodeQueue == [] && Both(s2)
  {
    PairGpus(100, 0);
    PairIdle(100, 0, 1);
    PairSetBusy(100, 0, 11);
    hide FindIdle, SetBusy, Pair;
    assert Earliest(SA, s1.sim.pending);
    var d := Pop(s1, SA);
    assert {SA, LP} - {SA} == {LP};
    s2 := StartsPrefill(d, 1, P1, 11);
    assert Handle(d, Plainly(), SA) == s2;
    assert {LP} + {SP} == {LP, SP};
    hide Handle, Both;
    assert Turn(s1, Plainly(), SA, s2);
    assert Strict(s2);
  }

  lemma UnifiedStep2(s2: Core) returns (s3: Core)
    requires s2.sim == Sim(1, {LP, SP}, 4) && s2.cluster == Pair(100, 11) && s2.decodeQueue == [] && Both(s2)
    ensures StrictTurns(Plainly())(s2, SP, s3)
    ensures s3.sim == Sim(11, {LP}, 4) && s3.cluster == Pair(100, 11) && s3.decodeQueue == [1] && Both(s3)
  {
    PairGpus(100, 11);
    PairIdle(100, 11, 11);
    PairSetBusy(100, 11, 11);
    hide FindIdle, SetBusy, Pair;
    assert Earliest(SP, s2.sim.pending);
    var d := Release(Pop(s2, SP), P1);
    assert {LP, SP} - {SP} == {LP};
    s3 := d.(decodeQueue := [1]);
    assert DispatchDecode(d, Plainly(), 1) == s3;
    assert AssignPrefill(s3, Plainly()) == s3 && AssignDecode(s3, Plainly()) == s3;
    assert Handle(Pop(s2, SP), Plainly(), SP) == s3;
    hide Handle, Both;
    assert Turn(s2, Plainly(), SP, s3);
    assert Strict(s3);
  }

  lemma UnifiedStep3(s3: Core) returns (s4: Core)
    requires s3.sim == Sim(11, {LP}, 4) && s3.cluster == Pair(100, 11) && s3.decodeQueue == [1] && Both(s3)
    ensures StrictTurns(Plainly())(s3, LP, s4)
    ensures s4.decodeQueue == [1] && 0 in s4.inFlight && s4.inFlight[0].decodeStart == Some(100)
  {
    PairGpus(100, 11);
    PairIdle(100, 11, 100);
    PairSetBusy(100, 11, 100);
    PairSetBusy(100, 11, 150);
    PairGpus(150, 11);
    PairIdle(150, 11, 100);
    hide FindIdle, SetBusy, Pair;
    assert Earliest(LP, s3.sim.pending);
    var d := Release(Pop(s3, LP), P0);
    s4 := StartDecode(d, Plainly(), 0, P0);
    assert DispatchDecode(d, Plainly(), 0) == s4;
    assert s4.cluster == Pair(150, 11);
    assert AssignPrefill(s4, Plainly()) == s4 && AssignDecode(s4, Plainly()) == s4;
    assert Handle(Pop(s3, LP), Plainly(), LP) == s4;
    assert {LP} - {LP} == {} && s4.sim.pending == {Event(150, 4, DecodeDone(0, P0))};
    hide Handle, Both;
    assert Turn(s3, Plainly(), LP, s4);
    assert Strict(s4);
  }

  lemma FourTurns<S(!new), E(!new)>(step: (S, E, S) -> bool, s0: S, e0: E, s1: S, e1: E, s2: S, e2: E, s3: S, e3: E,
                                    s4: S)
    requires step(s0, e0, s1) && step(s1, e1, s2) && step(s2, e2, s3) && step(s3, e3, s4)
    ensures IsTrace(step, [s0, s1, s2, s3, s4], [e0, e1, e2, e3])
  {}

  /** A tie-free run on one GPU for both roles and one for prefill: the short request has waited for decode since 11
      when the long one, prefilled until 100 on the GPU for both, starts its decode there ahead of it. */
  lemma UnifiedGpuOvertakes() returns (states: seq<Core>, events: seq<Ev>)
    ensures IsTrace(StrictTurns(Plainly()), states, events) && |events| == 4
    ensures states[0] == Loaded(Pair(0, 0), [LONG, SHORT])
    ensures states[3].decodeQueue == [SHORT.id] && states[3].Now() == 11
    ensures LONG.id in states[4].inFlight && states[4].inFlight[LONG.id].decodeStart == Some(100)
    ensures states[4].decodeQueue == [SHORT.id]
  {
    LoadedTwo(Pair(0, 0), LONG, SHORT);
    hide StrictTurns, Loaded, Pair, Plainly;
    var s0 := Loaded(Pair(0, 0), [LONG, SHORT]);
    var s1 := UnifiedStep0(s0);
    var s2 := UnifiedStep1(s1);
    var s3 := UnifiedStep2(s2);
    var s4 := UnifiedStep3(s3);
    FourTurns(StrictTurns(Plainly()), s0, LA, s1, SA, s2, SP, s3, LP, s4);
    states, events := [s0, s1, s2, s3, s4], [LA, SA, SP, LP];
  }

  // ---- simultaneous events ----

  /** The second request arrives at the very moment the first prefill ends. */
  const FIRST := Request(0, 0, 0, 0, 10, 10, 1)
  const SECOND := Request(1, 1, 0, 10, 10, 10, 1)
  const THIRD := Request(2, 2, 0, 15, 10, 10, 1)

  const A0 := Event(0, 0, RequestArrival(0))
  const A1 := Event(10, 1, RequestArrival(1))
  const A2 := Event(15, 2, RequestArrival(2))
  const PD0 := Event(10, 3, PrefillDone(0, P0))
  const PD1 := Event(20, 4, PrefillDone(1, P0))
  const DD0 := Event(11, 5, DecodeDone(0, D))

  lemma LoadedTie()
    ensures Loaded(Duo(0, 0), [FIRST, SECOND, THIRD])
            == Core(Sim(0, {A0, A1, A2}, 3), Duo(0, 0),
                    map[0 := NewInFlight(FIRST), 1 := NewInFlight(SECOND), 2 := NewInFlight(THIRD)], [], [], [])
  {
    var rs := [FIRST, SECOND, THIRD];
    assert rs[..2] == [FIRST, SECOND];
    LoadedTwo(Duo(0, 0), FIRST, SECOND);
    assert Loaded(Duo(0, 0), rs) == Admit(Loaded(Duo(0, 0), [FIRST, SECOND]), THIRD);
  }

  /** The state in which only clock, pending events, GPUs and the entries still of interest are fixed. */
  ghost predicate At(c: Core, now: u64, pending: set<Ev>, nextSeq: u64, t: Topology) {
    && c.sim == Sim(now, pending, nextSeq) && c.cluster == t && c.prefillQueue == [] && c.decodeQueue == []
    && 2 in c.inFlight && c.inFlight[2] == NewInFlight(THIRD)
  }

  lemma TieStep0(s0: Core) returns (s1: Core)
    requires At(s0, 0, {A0, A1, A2}, 3, Duo(0, 0))
    requires 0 in s0.inFlight && s0.inFlight[0] == NewInFlight(FIRST) && 1 in s0.inFlight
             && s0.inFlight[1] == NewInFlight(SECOND)
    ensures Turns(Plainly())(s0, A0, s1) && At(s1, 0, {A1, A2, PD0}, 4, Duo(10, 0))
    ensures 0 in s1.inFlight && s1.inFlight[0].req == FIRST && 1 in s1.inFlight && s1.inFlight[1] == NewInFlight(SECOND)
  {
    CellGpus(0, 0, 0, CacheOnly);
    CellIdle(0, 0, 0, CacheOnly, 0);
    CellSetBusy(0, 0, 0, CacheOnly, 10);
    hide FindIdle, SetBusy, Cell;
    assert Earliest(A0, s0.sim.pending);
    s1 := Handle(Pop(s0, A0), Plainly(), A0);
    assert {A0, A1, A2} - {A0} + {PD0} == {A1, A2, PD0};
  }

  lemma TieStep1(s1: Core) returns (s2: Core)
    requires At(s1, 0, {A1, A2, PD0}, 4, Duo(10, 0))
    requires 0 in s1.inFlight && s1.inFlight[0].req == FIRST && 1 in s1.inFlight
             && s1.inFlight[1] == NewInFlight(SECOND)
    ensures Turns(Plainly())(s1, A1, s2) && At(s2, 10, {A2, PD0, PD1}, 5, Duo(20, 0))
    ensures 0 in s2.inFlight && s2.inFlight[0].req == FIRST
  {
    CellGpus(10, 0, 0, CacheOnly);
    CellIdle(10, 0, 0, CacheOnly, 10);
    CellSetBusy(10, 0, 0, CacheOnly, 20);
    hide FindIdle, SetBusy, Cell;
    assert Earliest(A1, s1.sim.pending);
    s2 := Handle(Pop(s1, A1), Plainly(), A1);
    assert {A1, A2, PD0} - {A1} + {PD1} == {A2, PD0, PD1};
  }

  lemma TieReleases(s2: Core) returns (c1: Core)
    requires At(s2, 10, {A2, PD0, PD1}, 5, Duo(20, 0)) && 0 in s2.inFlight && s2.inFlight[0].req == FIRST
    ensures HasGpu(s2.cluster, P0) && c1 == Release(Pop(s2, PD0), P0) && At(c1, 10, {A2, PD1}, 5, Duo(10, 0))
    ensures 0 in c1.inFlight && c1.inFlight[0].req == FIRST && Earliest(PD0, s2.sim.pending)
  {
    CellGpus(20, 0, 0, CacheOnly);
    CellSetBusy(20, 0, 0, CacheOnly, 10);
    hide FindIdle, SetBusy, Cell, NewInFlight;
    c1 := Release(Pop(s2, PD0), P0);
    assert {A2, PD0, PD1} - {PD0} == {A2, PD1};
  }

  lemma TieDecodes(c1: Core) returns (c2: Core)
    requires At(c1, 10, {A2, PD1}, 5, Duo(10, 0)) && 0 in c1.inFlight && c1.inFlight[0].req == FIRST
    ensures Distinct(c1.cluster) && c2 == DispatchDecode(c1, Plainly(), 0) && At(c2, 10, {A2, PD1, DD0}, 6, Duo(10, 11))
  {
    CellGpus(10, 0, 0, CacheOnly);
    CellIdle(10, 0, 0, CacheOnly, 10);
    CellSetBusy(10, 0, 0, CacheOnly, 11);
    hide FindIdle, SetBusy, Cell, NewInFlight;
    c2 := DispatchDecode(c1, Plainly(), 0);
    assert {A2, PD1} + {DD0} == {A2, PD1, DD0};
  }

  lemma TieStep2(s2: Core) returns (s3: Core)
    requires At(s2, 10, {A2, PD0, PD1}, 5, Duo(20, 0)) && 0 in s2.inFlight && s2.inFlight[0].req == FIRST
    ensures Turns(Plainly())(s2, PD0, s3) && At(s3, 10, {A2, PD1, DD0}, 6, Duo(10, 11))
  {
    var c1 := TieReleases(s2);
    CellGpus(20, 0, 0, CacheOnly);
    hide Cell, SetBusy, Release, DispatchDecode, Earliest, NewInFlight;
    s3 := TieDecodes(c1);
  }

  lemma TieStep3(s3: Core) returns (s4: Core)
    requires At(s3, 10, {A2, PD1, DD0}, 6, Duo(10, 11))
    ensures Turns(Plainly())(s3, DD0, s4) && At(s4, 11, {A2, PD1}, 6, Duo(10, 11))
  {
    CellGpus(10, 0, 11, CacheOnly);
    CellSetBusy(10, 0, 11, CacheOnly, 11);
    hide FindIdle, SetBusy, Cell;
    assert Earliest(DD0, s3.sim.pending);
    s4 := Handle(Pop(s3, DD0), Plainly(), DD0);
    assert {A2, PD1, DD0} - {DD0} == {A2, PD1};
  }

  lemma TieStep4(s4: Core) returns (s5: Core)
    requires At(s4, 11, {A2, PD1}, 6, Duo(10, 11))
    ensures Turns(Plainly())(s4, A2, s5)
    ensures 2 in s5.inFlight && s5.inFlight[2].prefillStart == Some(15)
  {
    CellGpus(10, 0, 11, CacheOnly);
    CellIdle(10, 0, 11, CacheOnly, 15);
    hide FindIdle, SetBusy, Cell;
    assert Earliest(A2, s4.sim.pending);
    s5 := Handle(Pop(s4, A2), Plainly(), A2);
  }

  lemma FiveTurns<S(!new), E(!new)>(step: (S, E, S) -> bool, s0: S, e0: E, s1: S, e1: E, s2: S, e2: E, s3: S, e3: E,
                                    s4: S,
                                    e4: E, s5: S)
    requires step(s0, e0, s1) && step(s1, e1, s2) && step(s2, e2, s3) && step(s3, e3, s4) && step(s4, e4, s5)
    ensures IsTrace(step, [s0, s1, s2, s3, s4, s5], [e0, e1, e2, e3, e4])
  {}

  lemma TieBaseline()
    ensures NR.ServeAll(Plainly(), NR.Workers(NR.Fresh(1), NR.Fresh(1)), [FIRST, SECOND, THIRD])[2].prefillStart == 20
  {
    var w, rs, m := NR.Workers(NR.Fresh(1), NR.Fresh(1)), [FIRST, SECOND, THIRD], Plainly();
    NR.ServedAt(m, w, rs, 3, 2);
    assert NR.Fresh(1) == [0];
    var o := NR.ServeOne(m, w, FIRST);
    assert NR.Met(m, w, rs, 0) == w;
    assert NR.Met(m, w, rs, 1) == NR.Occupy(w, o) == NR.Workers([10], [11]);
    var q := NR.ServeOne(m, NR.Workers([10], [11]), SECOND);
    assert NR.Met(m, w, rs, 2) == NR.Occupy(NR.Workers([10], [11]), q) == NR.Workers([20], [21]);
  }

  /** On a fresh cluster with one prefill and one decode GPU: the arrival at the moment a prefill ends is handled
      first, since it was scheduled first, and finds the GPU released already. Two completions are then pending on
      that GPU, the earlier one releases it while the other task runs, and the third request starts beside it, five
      units before the baseline would start it. */
  lemma TieBreaksExclusionAndEquivalence() returns (states: seq<Core>, events: seq<Ev>)
    ensures IsTrace(Turns(Plainly()), states, events) && |events| == 5
    ensures states[0] == Loaded(Duo(0, 0), [FIRST, SECOND, THIRD])
    ensures !Exclusive(states[2])
    ensures 2 in states[5].inFlight && states[5].inFlight[2].prefillStart == Some(15)
    ensures NR.ServeAll(Plainly(), NR.Workers(NR.Fresh(1), NR.Fresh(1)), [FIRST, SECOND, THIRD])[2].prefillStart == 20
  {
    TieBaseline();
    LoadedTie();
    hide Turns, Loaded, Cell, Handle, NR.ServeAll, Plainly;
    var s0 := Loaded(Duo(0, 0), [FIRST, SECOND, THIRD]);
    var s1 := TieStep0(s0);
    var s2 := TieStep1(s1);
    assert PD0 in s2.sim.pending && PD1 in s2.sim.pending && PD0 != PD1;
    assert !Exclusive(s2);
    hide Exclusive;
    var s3 := TieStep2(s2);
    var s4 := TieStep3(s3);
    var s5 := TieStep4(s4);
    FiveTurns(Turns(Plainly()), s0, A0, s1, A1, s2, PD0, s3, DD0, s4, A2, s5);
    states, events := [s0, s1, s2, s3, s4, s5], [A0, A1, PD0, DD0, A2];
  }
}
