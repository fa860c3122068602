/** The state both event-driven runners share and the steps they take on it: dispatching a request to a GPU or a
    queue, draining the queues, releasing GPUs (src/serving/scheduler.rs, src/serving/inflight.rs). */
module Machine {
  import opened Numbers
  import opened Simulation
  import opened Cluster
  import opened Requests
  import opened Tiers

  datatype Kind =
    | RequestArrival(id: u64)
    | PrefillDone(id: u64, gpu: GpuRef)
    | FetchDone(id: u64)
    | DecodeDone(id: u64, gpu: GpuRef)
  {
    /** The event releases a GPU. */
    predicate Completes() { PrefillDone? || DecodeDone? }

    predicate CompletesOn(g: GpuRef) { Completes() && gpu == g }
  }

  type Ev = Event<Kind>

  datatype InFlight = InFlight(
    req: Request,
    prefillStart: Option<u64>, prefillDone: Option<u64>,
    decodeStart: Option<u64>, firstToken: Option<u64>, finish: Option<u64>,
    prefillGpu: Option<GpuRef>, decodeGpu: Option<GpuRef>,
    prefillTokens: u32, fetchTier: Option<TierKind>)
  {
    /** Tokens the next prefill runs over; zero stands for the whole prompt. */
    function EffectiveTokens(): u32 {
      if prefillTokens == 0 then req.promptTokens else prefillTokens
    }

    function IntoResult(): RequestResult {
      RequestResult(req.id, req.session, req.turn, req.arrival,
        Or(prefillStart, req.arrival), Or(prefillDone, req.arrival), Or(decodeStart, req.arrival),
        Or(firstToken, req.arrival), Or(finish, req.arrival), req.promptTokens, req.outputTokens)
    }
  }

  function Or(o: Option<u64>, default: u64): u64 {
    if o.Some? then o.value else default
  }

  function NewInFlight(r: Request): InFlight {
    InFlight(r, None, None, None, None, None, None, None, 0, None)
  }

  datatype Core = Core(
    sim: Sim<Kind>, cluster: Topology, inFlight: map<u64, InFlight>,
    prefillQueue: seq<u64>, decodeQueue: seq<u64>, results: seq<RequestResult>)
  {
    function Now(): u64 { sim.now }

    function Idle(role: Role): Option<GpuRef>
      requires Distinct(cluster)
    {
      FindIdle(cluster, sim.now, role)
    }
  }

  // ---- the steps ----

  function StartPrefill(c: Core, m: Engine, id: u64, g: GpuRef): (r: Core)
    requires id in c.inFlight && HasGpu(c.cluster, g)
    ensures Distinct(c.cluster) ==> Distinct(r.cluster)
  {
    var f := c.inFlight[id];
    var done := SatAdd(c.Now(), m.prefillTime(f.EffectiveTokens()));
    c.(inFlight := c.inFlight[id := f.(prefillStart := Some(c.Now()), prefillDone := Some(done), prefillGpu := Some(g))],
       cluster := SetBusy(c.cluster, g, done),
       sim := Scheduled(c.sim, done, PrefillDone(f.req.id, g)))
  }

  function StartDecode(c: Core, m: Engine, id: u64, g: GpuRef): (r: Core)
    requires id in c.inFlight && HasGpu(c.cluster, g)
    ensures Distinct(c.cluster) ==> Distinct(r.cluster)
  {
    var f := c.inFlight[id];
    var step := m.StepFor(f.req.promptTokens);
    var finish := SatAdd(c.Now(), SatMul(step, f.req.outputTokens));
    c.(inFlight := c.inFlight[id := f.(decodeStart := Some(c.Now()), firstToken := Some(SatAdd(c.Now(), step)),
                                       finish := Some(finish), decodeGpu := Some(g))],
       cluster := SetBusy(c.cluster, g, finish),
       sim := Scheduled(c.sim, finish, DecodeDone(f.req.id, g)))
  }

  /** Start the prefill on an idle GPU, or queue the request. */
  function DispatchPrefill(c: Core, m: Engine, id: u64): (r: Core)
    requires Distinct(c.cluster)
    ensures Distinct(c.cluster) ==> Distinct(r.cluster)
  {
    match c.Idle(Prefill)
    case Some(g) => if id in c.inFlight then StartPrefill(c, m, id, g) else c
    case None => c.(prefillQueue := c.prefillQueue + [id])
  }

  function DispatchDecode(c: Core, m: Engine, id: u64): (r: Core)
    requires Distinct(c.cluster)
    ensures Distinct(c.cluster) ==> Distinct(r.cluster)
  {
    if id !in c.inFlight then c else
    match c.Idle(Decode)
    case Some(g) => StartDecode(c, m, id, g)
    case None => c.(decodeQueue := c.decodeQueue + [id])
  }

  /** `try_assign_prefill`: serve the head of the queue while some GPU is idle. */
  function AssignPrefill(c: Core, m: Engine): (r: Core)
    requires Distinct(c.cluster)
    ensures Distinct(c.cluster) ==> Distinct(r.cluster)
    decreases |c.prefillQueue|
  {
    if c.prefillQueue == [] then c else
    match c.Idle(Prefill)
    case None => c
    case Some(g) =>
      var id, rest := c.prefillQueue[0], c.(prefillQueue := c.prefillQueue[1..]);
      AssignPrefill(if id in rest.inFlight then StartPrefill(rest, m, id, g) else rest, m)
  }

  function AssignDecode(c: Core, m: Engine): (r: Core)
    requires Distinct(c.cluster)
    ensures Distinct(c.cluster) ==> Distinct(r.cluster)
    decreases |c.decodeQueue|
  {
    if c.decodeQueue == [] then c else
    match c.Idle(Decode)
    case None => c
    case Some(g) =>
      var id, rest := c.decodeQueue[0], c.(decodeQueue := c.decodeQueue[1..]);
      AssignDecode(if id in rest.inFlight then StartDecode(rest, m, id, g) else rest, m)
  }

  /** The GPU is free from now on, whatever its release time said. */
  function Release(c: Core, g: GpuRef): (r: Core)
    requires HasGpu(c.cluster, g)
    ensures Distinct(c.cluster) ==> Distinct(r.cluster)
  {
    c.(cluster := SetBusy(c.cluster, g, c.Now()))
  }

  function Finish(c: Core, id: u64): Core {
    if id in c.inFlight then
      c.(inFlight := c.inFlight - {id}, results := c.results + [c.inFlight[id].IntoResult()])
    else c
  }

  function Pop(c: Core, e: Ev): Core {
    c.(sim := Popped(c.sim, e))
  }

  /** Schedule the arrival of a request and take it in. */
  function Admit(c: Core, r: Request): Core {
    c.(sim := Scheduled(c.sim, r.arrival, RequestArrival(r.id)), inFlight := c.inFlight[r.id := NewInFlight(r)])
  }

  /** Arrivals scheduled in the order given, every request in flight, nothing else going on. */
  function Loaded(t: Topology, rs: seq<Request>): Core {
    if rs == [] then Core(NewSim(), t, map[], [], [], [])
    else Admit(Loaded(t, rs[..|rs|-1]), rs[|rs|-1])
  }
}
