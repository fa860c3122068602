/** `EventDrivenRunner` as an object: the loop of src/serving/scheduler.rs:52-78 and its handlers. */
module EventDrivenRunner {
  import opened Numbers
  import opened Simulation
  import opened Cluster
  import opened Requests
  import opened Machine
  import opened Lifecycle
  import opened Traces
  import opened EventDriven
  import opened ServingState

  class Runner {
    const serving: Serving

    constructor (cluster: Topology, engine: Engine)
      ensures serving.State() == Loaded(cluster, []) && serving.engine == engine
      ensures fresh(serving) && fresh(serving.sim) && fresh(serving.sim.queue)
    {
      serving := new Serving(cluster, engine);
    }

    method OnArrival(id: u64)
      requires Distinct(serving.cluster)
      modifies serving, serving.sim.queue
      ensures serving.sim == old(serving.sim)
      ensures serving.State() == EventDriven.OnArrival(old(serving.State()), serving.engine, id)
    {
      serving.DispatchPrefill(id);
    }

    method OnPrefillDone(id: u64, g: GpuRef)
      requires Distinct(serving.cluster) && HasGpu(serving.cluster, g)
      modifies serving, serving.sim.queue
      ensures serving.sim == old(serving.sim)
      ensures serving.State() == EventDriven.OnPrefillDone(old(serving.State()), serving.engine, id, g)
    {
      serving.ReleaseGpu(g);
      serving.DispatchDecode(id);
      serving.TryAssignPrefill();
      serving.TryAssignDecode();
    }

    method OnDecodeDone(id: u64, g: GpuRef)
      requires Distinct(serving.cluster) && HasGpu(serving.cluster, g)
      modifies serving, serving.sim.queue
      ensures serving.sim == old(serving.sim)
      ensures serving.State() == EventDriven.OnDecodeDone(old(serving.State()), serving.engine, id, g)
    {
      serving.ReleaseGpu(g);
      serving.FinishRequest(id);
      serving.TryAssignDecode();
      serving.TryAssignPrefill();
    }

    /** The caller must not pass a fetch event: the original panics on one. */
    method HandleEvent(e: Ev)
      requires CanHandle(serving.State(), e)
      modifies serving, serving.sim.queue
      ensures serving.sim == old(serving.sim)
      ensures serving.State() == Handle(old(serving.State()), serving.engine, e)
    {
      match e.kind
      case RequestArrival(id) => OnArrival(id);
      case PrefillDone(id, g) => OnPrefillDone(id, g);
      case DecodeDone(id, g) => OnDecodeDone(id, g);
    }

    /** Every run ends, without meeting an event it cannot handle, in a state with nothing pending; `states` and
        `events` record it. Only the GPUs' release times survive from earlier runs. */
    method Run(requests: seq<Request>)
        returns (results: seq<RequestResult>, ghost states: seq<Core>, ghost events: seq<Ev>)
      requires Distinct(serving.cluster)
      modifies serving
      ensures IsTrace(Turns(serving.engine), states, events)
      ensures states[0] == Loaded(old(serving.cluster), SortBy(requests, RequestKey))
      ensures states[|events|].sim.pending == {}
      ensures results == SortBy(states[|events|].results, ResultKey)
    {
      var sorted := SortBy(requests, RequestKey);
      serving.Clear();
      serving.Load(sorted);
      states, events := [serving.State()], [];
      LoadedAddressable(old(serving.cluster), sorted);
      var e := serving.sim.Step();
      while e.Some?
        invariant fresh(serving.sim) && fresh(serving.sim.queue)
        invariant IsTrace(Turns(serving.engine), states, events)
        invariant states[0] == Loaded(old(serving.cluster), sorted)
        invariant Addressable(states[|events|])
        invariant e.None? ==> serving.State() == states[|events|] && serving.State().sim.pending == {}
        invariant e.Some? ==> && e.value in states[|events|].sim.pending
                              && Earliest(e.value, states[|events|].sim.pending)
                              && serving.State() == Pop(states[|events|], e.value)
        decreases Remaining(states[|events|], 3), e.Some?
      {
        ghost var before := states[|events|];
        TurnAddressable(before, serving.engine, e.value);
        TurnShrinks(before, serving.engine, e.value);
        HandleEvent(e.value);
        assert Turns(serving.engine)(before, e.value, serving.State());
        TraceGrows(Turns(serving.engine), states, events, e.value, serving.State());
        states, events := states + [serving.State()], events + [e.value];
        e := serving.sim.Step();
      }
      results := SortBy(serving.results, ResultKey);
    }
  }

  lemma LoadedAddressable(t: Topology, rs: seq<Request>)
    requires Distinct(t)
    ensures Addressable(Loaded(t, rs))
  {
    LoadedQuiet(t, rs);
    forall e | e in Loaded(t, rs).sim.pending ensures CanHandle(Loaded(t, rs), e) {
      LoadedEvents(t, rs, e);
    }
  }
}
