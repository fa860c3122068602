/** The mutable state of a runner. `EventDrivenRunner` and `CacheAwareRunner` keep the same fields and drain their
    queues with the same loops (src/serving/scheduler.rs:187-303, src/serving/cache_runner.rs:500-543). */
module ServingState {
  import opened Numbers
  import opened Simulation
  import opened Cluster
  import opened Requests
  import opened Machine

  class Serving {
    const engine: Engine
    var sim: Simulator<Kind>
    var cluster: Topology
    var inFlight: map<u64, InFlight>
    var prefillQueue: seq<u64>
    var decodeQueue: seq<u64>
    var results: seq<RequestResult>

    ghost function State(): Core
      reads this, sim, sim.queue
    {
      Core(sim.State(), cluster, inFlight, prefillQueue, decodeQueue, results)
    }

    constructor (cluster: Topology, engine: Engine)
      ensures State() == Loaded(cluster, []) && this.engine == engine
      ensures fresh(sim) && fresh(sim.queue)
    {
      this.engine := engine;
      this.cluster := cluster;
      sim := new Simulator<Kind>();
      inFlight, prefillQueue, decodeQueue, results := map[], [], [], [];
    }

    /** `clear_state`: everything but the GPUs' release times. */
    method Clear()
      modifies this
      ensures State() == Loaded(old(cluster), [])
      ensures fresh(sim) && fresh(sim.queue)
    {
      sim := new Simulator<Kind>();
      inFlight, prefillQueue, decodeQueue, results := map[], [], [], [];
    }

    /** Schedule all arrivals in the given order and take the requests in. */
    method Load(rs: seq<Request>)
      requires State() == Loaded(cluster, [])
      modifies this, sim.queue
      ensures State() == Loaded(old(cluster), rs)
      ensures sim == old(sim)
    {
      for i := 0 to |rs|
        invariant State() == Loaded(old(cluster), rs[..i]) && sim == old(sim)
      {
        assert rs[..i+1][..i] == rs[..i];
        sim.Schedule(rs[i].arrival, RequestArrival(rs[i].id));
        inFlight := inFlight[rs[i].id := NewInFlight(rs[i])];
      }
      assert rs[..|rs|] == rs;
    }

    /** `start_prefill`. */
    method StartPrefill(id: u64, g: GpuRef)
      requires id in inFlight && HasGpu(cluster, g)
      modifies this, sim.queue
      ensures sim == old(sim)
      ensures State() == Machine.StartPrefill(old(State()), engine, id, g)
    {
      var f := inFlight[id];
      var tokens := if f.prefillTokens == 0 then f.req.promptTokens else f.prefillTokens;
      var done := SatAdd(sim.now, engine.prefillTime(tokens));
      inFlight := inFlight[id := f.(prefillStart := Some(sim.now), prefillDone := Some(done), prefillGpu := Some(g))];
      cluster := SetBusy(cluster, g, done);
      sim.Schedule(done, PrefillDone(f.req.id, g));
    }

    /** `start_decode`. */
    method StartDecode(id: u64, g: GpuRef)
      requires id in inFlight && HasGpu(cluster, g)
      modifies this, sim.queue
      ensures sim == old(sim)
      ensures State() == Machine.StartDecode(old(State()), engine, id, g)
    {
      var f := inFlight[id];
      var step := engine.decodeStep(engine.batch, f.req.promptTokens);
      var finish := SatAdd(sim.now, SatMul(step, f.req.outputTokens));
      inFlight := inFlight[id := f.(decodeStart := Some(sim.now), firstToken := Some(SatAdd(sim.now, step)),
                                    finish := Some(finish), decodeGpu := Some(g))];
      cluster := SetBusy(cluster, g, finish);
      sim.Schedule(finish, DecodeDone(f.req.id, g));
    }

    method DispatchPrefill(id: u64)
      requires Distinct(cluster)
      modifies this, sim.queue
      ensures sim == old(sim)
      ensures State() == Machine.DispatchPrefill(old(State()), engine, id)
    {
      var g := FindIdle(cluster, sim.now, Prefill);
      if g.Some? {
        if id in inFlight {
          StartPrefill(id, g.value);
        }
      } else {
        prefillQueue := prefillQueue + [id];
      }
    }

    method DispatchDecode(id: u64)
      requires Distinct(cluster)
      modifies this, sim.queue
      ensures sim == old(sim)
      ensures State() == Machine.DispatchDecode(old(State()), engine, id)
    {
      if id in inFlight {
        var g := FindIdle(cluster, sim.now, Decode);
        if g.Some? {
          StartDecode(id, g.value);
        } else {
          decodeQueue := decodeQueue + [id];
        }
      }
    }

    /** `try_assign_prefill`. */
    method TryAssignPrefill()
      requires Distinct(cluster)
      modifies this, sim.queue
      ensures sim == old(sim)
      ensures State() == AssignPrefill(old(State()), engine)
    {
      while prefillQueue != []
        invariant sim == old(sim) && Distinct(cluster)
        invariant AssignPrefill(State(), engine) == AssignPrefill(old(State()), engine)
        decreases |prefillQueue|
      {
        var g := FindIdle(cluster, sim.now, Prefill);
        if g.None? { break; }
        var id := prefillQueue[0];
        prefillQueue := prefillQueue[1..];
        if id in inFlight {
          StartPrefill(id, g.value);
        }
      }
    }

    /** `try_assign_decode`. */
    method TryAssignDecode()
      requires Distinct(cluster)
      modifies this, sim.queue
      ensures sim == old(sim)
      ensures State() == AssignDecode(old(State()), engine)
    {
      while decodeQueue != []
        invariant sim == old(sim) && Distinct(cluster)
        invariant AssignDecode(State(), engine) == AssignDecode(old(State()), engine)
        decreases |decodeQueue|
      {
        var g := FindIdle(cluster, sim.now, Decode);
        if g.None? { break; }
        var id := decodeQueue[0];
        decodeQueue := decodeQueue[1..];
        if id in inFlight {
          StartDecode(id, g.value);
        }
      }
    }

    method ReleaseGpu(g: GpuRef)
      requires HasGpu(cluster, g)
      modifies this`cluster
      ensures State() == Release(old(State()), g)
    {
      cluster := SetBusy(cluster, g, sim.now);
    }

    /** Turn a request in flight into its result. */
    method FinishRequest(id: u64)
      modifies this`inFlight, this`results
      ensures State() == Finish(old(State()), id)
    {
      if id in inFlight {
        results := results + [inFlight[id].IntoResult()];
        inFlight := inFlight - {id};
      }
    }
  }
}
