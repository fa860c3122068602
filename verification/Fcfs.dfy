/** First come, first served: in a tie-free run the requests whose prefill has started always form an initial segment
    of the trace, and with separate decode GPUs decodes start in the order the prefills completed. */
module Fcfs {
  import opened Numbers
  import opened Simulation
  import opened Cluster
  import opened Requests
  import opened Machine
  import opened Lifecycle
  import opened Traces
  import opened EventDriven
  import opened TieFree

  function Ids(rs: seq<Request>, i: nat, j: nat): (q: seq<u64>)
    requires i <= j <= |rs|
    ensures |q| == j - i
    ensures forall k | 0 <= k < j - i :: q[k] == rs[i + k].id
  {
    seq<u64>(j - i, k requires 0 <= k < j - i => rs[i + k].id)
  }

  lemma IdsHead(rs: seq<Request>, i: nat, j: nat)
    requires i < j <= |rs|
    ensures Ids(rs, i, j)[0] == rs[i].id && Ids(rs, i, j)[1..] == Ids(rs, i + 1, j)
  {}

  lemma IdsPush(rs: seq<Request>, i: nat, j: nat)
    requires i <= j < |rs|
    ensures Ids(rs, i, j) + [rs[j].id] == Ids(rs, i, j + 1)
  {}

  function ArrivalOf(rs: seq<Request>, k: nat): Ev
    requires k < |rs|
  {
    Event(rs[k].arrival, Cap(k), RequestArrival(rs[k].id))
  }

  /** The arrivals still to come are those of the requests from `a` on. */
  ghost predicate Arrivals(c: Core, rs: seq<Request>, a: nat) {
    && (forall k | a <= k < |rs| :: ArrivalOf(rs, k) in c.sim.pending)
    && (forall e | e in c.sim.pending && e.kind.RequestArrival? :: exists k :: a <= k < |rs| && e == ArrivalOf(rs, k))
  }

  /** The first `a` requests have arrived, and the first `p` of them have started their prefill. */
  ghost predicate Order(c: Core, rs: seq<Request>, p: nat, a: nat) {
    && p <= a <= |rs| && Arrivals(c, rs, a)
    && (forall k | p <= k < |rs| :: rs[k].id in c.inFlight && Unstarted(c.inFlight[rs[k].id]))
    && (forall k | 0 <= k < p && rs[k].id in c.inFlight :: c.inFlight[rs[k].id].prefillStart.Some?)
    && (forall id | id in c.decodeQueue && id in c.inFlight :: c.inFlight[id].prefillStart.Some?)
  }

  ghost predicate Trace(rs: seq<Request>) {
    UniqueIds(rs) && SortedBy(rs, RequestKey) && |rs| < MAX64
  }

  lemma StartPrefillOrder(c: Core, m: Engine, rs: seq<Request>, p: nat, a: nat, g: GpuRef)
    requires Trace(rs) && Order(c, rs, p, a) && p < a && HasGpu(c.cluster, g)
    ensures Order(StartPrefill(c, m, rs[p].id, g), rs, p + 1, a)
  {
    forall k | p + 1 <= k < |rs| ensures rs[k].id != rs[p].id {}
  }

  lemma StartDecodeOrder(c: Core, m: Engine, rs: seq<Request>, p: nat, a: nat, id: u64, g: GpuRef)
    requires Order(c, rs, p, a) && HasGpu(c.cluster, g)
    requires id in c.inFlight && c.inFlight[id].prefillStart.Some?
    ensures Order(StartDecode(c, m, id, g), rs, p, a)
  {
    forall k | p <= k < |rs| ensures rs[k].id != id {}
  }

  lemma DispatchDecodeOrder(c: Core, m: Engine, rs: seq<Request>, p: nat, a: nat, id: u64)
    requires Order(c, rs, p, a) && Distinct(c.cluster)
    requires id in c.inFlight && c.inFlight[id].prefillStart.Some?
    ensures Order(DispatchDecode(c, m, id), rs, p, a)
    ensures DispatchDecode(c, m, id).prefillQueue == c.prefillQueue
  {
    if c.Idle(Decode).Some? {
      StartDecodeOrder(c, m, rs, p, a, id, c.Idle(Decode).value);
    }
  }

  lemma {:induction false} AssignDecodeOrder(c: Core, m: Engine, rs: seq<Request>, p: nat, a: nat)
    requires Order(c, rs, p, a) && Distinct(c.cluster)
    ensures Order(AssignDecode(c, m), rs, p, a) && AssignDecode(c, m).prefillQueue == c.prefillQueue
    decreases |c.decodeQueue|
  {
    if c.decodeQueue != [] && c.Idle(Decode).Some? {
      var g := c.Idle(Decode).value;
      var id, rest := c.decodeQueue[0], c.(decodeQueue := c.decodeQueue[1..]);
      assert id in c.decodeQueue;
      assert Order(rest, rs, p, a);
      if id in rest.inFlight {
        StartDecodeOrder(rest, m, rs, p, a, id, g);
        AssignDecodeOrder(StartDecode(rest, m, id, g), m, rs, p, a);
      } else {
        AssignDecodeOrder(rest, m, rs, p, a);
      }
    }
  }

  lemma {:induction false} AssignPrefillOrder(c: Core, m: Engine, rs: seq<Request>, p: nat, a: nat) returns (p': nat)
    requires Trace(rs) && Order(c, rs, p, a) && c.prefillQueue == Ids(rs, p, a) && Distinct(c.cluster)
    ensures p <= p' && Order(AssignPrefill(c, m), rs, p', a) && AssignPrefill(c, m).prefillQueue == Ids(rs, p', a)
    decreases |c.prefillQueue|
  {
    p' := p;
    if c.prefillQueue != [] && c.Idle(Prefill).Some? {
      var g := c.Idle(Prefill).value;
      var id, rest := c.prefillQueue[0], c.(prefillQueue := c.prefillQueue[1..]);
      IdsHead(rs, p, a);
      StartPrefillOrder(rest, m, rs, p, a, g);
      p' := AssignPrefillOrder(StartPrefill(rest, m, id, g), m, rs, p + 1, a);
    }
  }

  /** The next arrival to come out is the next request of the trace. */
  lemma ArrivalsInOrder(c: Core, rs: seq<Request>, a: nat, e: Ev)
    requires Trace(rs) && a <= |rs| && Arrivals(c, rs, a)
    requires e in c.sim.pending && Earliest(e, c.sim.pending) && e.kind.RequestArrival?
    ensures a < |rs| && e == ArrivalOf(rs, a)
  {
    var k :| a <= k < |rs| && e == ArrivalOf(rs, k);
    assert !Before(ArrivalOf(rs, a), e);
    assert a < k ==> KeyLeq(RequestKey(rs[a]), RequestKey(rs[k]));
  }

  lemma PopArrival(c: Core, rs: seq<Request>, a: nat)
    requires Trace(rs) && Arrivals(c, rs, a) && a < |rs|
    ensures Arrivals(Pop(c, ArrivalOf(rs, a)), rs, a + 1)
  {
    var c' := Pop(c, ArrivalOf(rs, a));
    forall k | a + 1 <= k < |rs| ensures ArrivalOf(rs, k) in c'.sim.pending {
      assert rs[a].id != rs[k].id;
    }
    forall e | e in c'.sim.pending && e.kind.RequestArrival?
      ensures exists k :: a + 1 <= k < |rs| && e == ArrivalOf(rs, k)
    {
      var k :| a <= k < |rs| && e == ArrivalOf(rs, k);
    }
  }

  lemma PopArrivalOrder(c: Core, rs: seq<Request>, p: nat, a: nat)
    requires Trace(rs) && Order(c, rs, p, a) && a < |rs|
    ensures Order(Pop(c, ArrivalOf(rs, a)), rs, p, a + 1)
  {
    PopArrival(c, rs, a);
  }

  lemma PopOtherOrder(c: Core, rs: seq<Request>, p: nat, a: nat, e: Ev)
    requires Order(c, rs, p, a) && e.kind.Completes()
    ensures Order(Pop(c, e), rs, p, a)
  {}

  lemma FinishOrder(c: Core, rs: seq<Request>, p: nat, a: nat, id: u64, t: u64)
    requires Order(c, rs, p, a) && id in c.inFlight && Decoding(c.inFlight[id], t)
    ensures Order(Finish(c, id), rs, p, a)
  {
    forall k | p <= k < |rs| ensures rs[k].id != id {}
  }

  /** Some initial segment has started and the rest of the arrived requests wait in order. */
  ghost predicate ServedInOrder(c: Core, rs: seq<Request>) {
    exists p, a :: Order(c, rs, p, a) && c.prefillQueue == Ids(rs, p, a)
  }

  /** The arriving request is the next one, and it can only start at once if nobody is queued. */
  lemma ArrivalIsNext(c: Core, rs: seq<Request>, p: nat, a: nat, e: Ev)
    requires Trace(rs) && Orderly(c) && Order(c, rs, p, a) && c.prefillQueue == Ids(rs, p, a)
    requires e in c.sim.pending && Earliest(e, c.sim.pending) && e.kind.RequestArrival? && Strict(Pop(c, e))
    ensures a < |rs| && e == ArrivalOf(rs, a) && Order(Pop(c, e), rs, p, a + 1)
    ensures Pop(c, e).Idle(Prefill).Some? ==> p == a
  {
    hide Exclusive, Steady, Timed, Trace, Arrivals;
    assert Arrivals(c, rs, a);
    assert p < a ==> c.prefillQueue != [] && c.Idle(Prefill).None?;
    hide Order, Strict;
    ArrivalsInOrder(c, rs, a, e);
    PopArrivalOrder(c, rs, p, a);
    if p < a {
      StillNoIdle(c, e, Prefill);
    }
  }

  lemma DispatchPrefillOrder(c: Core, m: Engine, rs: seq<Request>, p: nat, a: nat)
    requires Trace(rs) && Distinct(c.cluster) && a < |rs| && Order(c, rs, p, a + 1) && p <= a
    requires c.prefillQueue == Ids(rs, p, a) && (c.Idle(Prefill).Some? ==> p == a)
    ensures ServedInOrder(DispatchPrefill(c, m, rs[a].id), rs)
  {
    var c' := DispatchPrefill(c, m, rs[a].id);
    match c.Idle(Prefill)
    case Some(g) =>
      StartPrefillOrder(c, m, rs, p, a + 1, g);
      assert Order(c', rs, a + 1, a + 1) && c'.prefillQueue == Ids(rs, a + 1, a + 1);
    case None =>
      IdsPush(rs, p, a);
      assert Order(c', rs, p, a + 1) && c'.prefillQueue == Ids(rs, p, a + 1);
  }

  lemma ArrivalTurnInOrder(c: Core, m: Engine, e: Ev, rs: seq<Request>)
    requires Trace(rs) && Orderly(c) && ServedInOrder(c, rs)
    requires e in c.sim.pending && Earliest(e, c.sim.pending) && e.kind.RequestArrival? && Strict(Pop(c, e))
    ensures ServedInOrder(OnArrival(Pop(c, e), m, e.kind.id), rs)
  {
    var p, a :| Order(c, rs, p, a) && c.prefillQueue == Ids(rs, p, a);
    ArrivalIsNext(c, rs, p, a, e);
    DispatchPrefillOrder(Pop(c, e), m, rs, p, a);
  }

  lemma PrefillDoneTurnInOrder(c: Core, m: Engine, e: Ev, rs: seq<Request>)
    requires Trace(rs) && Orderly(c) && ServedInOrder(c, rs)
    requires e in c.sim.pending && Earliest(e, c.sim.pending) && e.kind.PrefillDone? && HasGpu(c.cluster, e.kind.gpu)
    ensures ServedInOrder(OnPrefillDone(Pop(c, e), m, e.kind.id, e.kind.gpu), rs)
  {
    var p, a :| Order(c, rs, p, a) && c.prefillQueue == Ids(rs, p, a);
    PoppedIsReady(c, e);
    PopOtherOrder(c, rs, p, a, e);
    var q := Release(Pop(c, e), e.kind.gpu);
    assert Order(q, rs, p, a);
    var q1 := DispatchDecode(q, m, e.kind.id);
    DispatchDecodeOrder(q, m, rs, p, a, e.kind.id);
    var p' := AssignPrefillOrder(q1, m, rs, p, a);
    AssignDecodeOrder(AssignPrefill(q1, m), m, rs, p', a);
  }

  lemma DecodeDoneTurnInOrder(c: Core, m: Engine, e: Ev, rs: seq<Request>)
    requires Trace(rs) && Orderly(c) && ServedInOrder(c, rs)
    requires e in c.sim.pending && Earliest(e, c.sim.pending) && e.kind.DecodeDone? && HasGpu(c.cluster, e.kind.gpu)
    ensures ServedInOrder(OnDecodeDone(Pop(c, e), m, e.kind.id, e.kind.gpu), rs)
  {
    var p, a :| Order(c, rs, p, a) && c.prefillQueue == Ids(rs, p, a);
    PoppedIsReady(c, e);
    PopOtherOrder(c, rs, p, a, e);
    var q := Release(Pop(c, e), e.kind.gpu);
    assert Order(q, rs, p, a);
    FinishOrder(q, rs, p, a, e.kind.id, e.time);
    var q1 := Finish(q, e.kind.id);
    AssignDecodeOrder(q1, m, rs, p, a);
    var p' := AssignPrefillOrder(AssignDecode(q1, m), m, rs, p, a);
  }

  // ---- prefills over whole runs ----

  ghost predicate OrderlyInOrder(rs: seq<Request>, c: Core) {
    Trace(rs) && Orderly(c) && ServedInOrder(c, rs)
  }

  lemma TurnInOrder(m: Engine, rs: seq<Request>, c: Core, e: Ev, c': Core)
    requires OrderlyInOrder(rs, c) && StrictTurns(m)(c, e, c')
    ensures OrderlyInOrder(rs, c')
  {
    TurnOrderly(m, c, e, c');
    match e.kind {
      case RequestArrival(id) =>
        TurnKeeps(c, m, e, c');
        StrictBefore(Pop(c, e), c');
        ArrivalTurnInOrder(c, m, e, rs);
      case PrefillDone(id, g) => PrefillDoneTurnInOrder(c, m, e, rs);
      case DecodeDone(id, g) => DecodeDoneTurnInOrder(c, m, e, rs);
    }
  }

  lemma {:induction false} RunInOrder(m: Engine, rs: seq<Request>, states: seq<Core>, events: seq<Ev>, n: nat)
    requires IsTrace(StrictTurns(m), states, events) && OrderlyInOrder(rs, states[0]) && n <= |events|
    ensures OrderlyInOrder(rs, states[n])
  {
    hide *;
    if n > 0 {
      TraceStep(StrictTurns(m), states, events, n - 1);
      RunInOrder(m, rs, states, events, n - 1);
      TurnInOrder(m, rs, states[n-1], events[n-1], states[n]);
    }
  }

  lemma {:induction false} LoadedArrivals(t: Topology, rs: seq<Request>)
    requires |rs| < MAX64
    ensures Loaded(t, rs).sim.nextSeq == |rs|
    ensures forall k | 0 <= k < |rs| :: ArrivalOf(rs, k) in Loaded(t, rs).sim.pending
    ensures forall e | e in Loaded(t, rs).sim.pending :: exists k :: 0 <= k < |rs| && e == ArrivalOf(rs, k)
  {
    if rs != [] {
      var n := |rs| - 1;
      var init := rs[..n];
      LoadedArrivals(t, init);
      forall k | 0 <= k < |rs| ensures ArrivalOf(rs, k) in Loaded(t, rs).sim.pending {
        if k < n { assert ArrivalOf(init, k) == ArrivalOf(rs, k); }
      }
      forall e | e in Loaded(t, rs).sim.pending ensures exists k :: 0 <= k < |rs| && e == ArrivalOf(rs, k) {
        if e in Loaded(t, init).sim.pending {
          var k :| 0 <= k < n && e == ArrivalOf(init, k);
          assert e == ArrivalOf(rs, k);
        } else {
          assert e == ArrivalOf(rs, n);
        }
      }
    }
  }

  lemma LoadedServedInOrder(t: Topology, rs: seq<Request>)
    requires Trace(rs)
    ensures Order(Loaded(t, rs), rs, 0, 0) && ServedInOrder(Loaded(t, rs), rs)
  {
    var c := Loaded(t, rs);
    LoadedArrivals(t, rs);
    LoadedQuiet(t, rs);
    forall k | 0 <= k < |rs| ensures rs[k].id in c.inFlight && Unstarted(c.inFlight[rs[k].id]) {
      LoadedEntry(t, rs, k);
    }
    assert Order(c, rs, 0, 0) && c.prefillQueue == Ids(rs, 0, 0);
  }

  ghost predicate PrefillBegun(c: Core, id: u64) {
    id !in c.inFlight || c.inFlight[id].prefillStart.Some?
  }

  lemma BegunIsInitial(c: Core, rs: seq<Request>, i: nat, j: nat)
    requires ServedInOrder(c, rs) && i < j < |rs| && PrefillBegun(c, rs[j].id)
    ensures PrefillBegun(c, rs[i].id)
  {
    var p, a :| Order(c, rs, p, a) && c.prefillQueue == Ids(rs, p, a);
  }

  /** In a tie-free run, on any cluster, prefills start in arrival order: whenever the prefill of request `j` of the
      sorted trace has started, so has that of every request before it. */
  lemma PrefillsInArrivalOrder(t: Topology, rs: seq<Request>, m: Engine, states: seq<Core>, events: seq<Ev>,
                               n: nat, i: nat, j: nat)
    requires Rested(t, rs) && Trace(rs)
    requires IsTrace(StrictTurns(m), states, events) && states[0] == Loaded(t, rs) && n <= |events|
    requires i < j < |rs| && PrefillBegun(states[n], rs[j].id)
    ensures PrefillBegun(states[n], rs[i].id)
  {
    hide StrictTurns, Orderly, Rested, ServedInOrder, PrefillBegun;
    LoadedOrderly(t, rs);
    LoadedServedInOrder(t, rs);
    RunInOrder(m, rs, states, events, n);
    BegunIsInitial(states[n], rs, i, j);
  }

  // ---- decodes ----

  /** No GPU serves both roles. */
  ghost predicate Disaggregated(t: Topology) {
    forall g: GpuRef | HasGpu(t, g) :: GpuAt(t, g).role != Unified
  }

  ghost predicate Roles(c: Core) {
    && Disaggregated(c.cluster)
    && (forall e | e in c.sim.pending && e.kind.PrefillDone? :: HasGpu(c.cluster, e.kind.gpu) && Serves(GpuAt(c.cluster, e.kind.gpu), Prefill))
    && (forall e | e in c.sim.pending && e.kind.DecodeDone? :: HasGpu(c.cluster, e.kind.gpu) && Serves(GpuAt(c.cluster, e.kind.gpu), Decode))
  }

  lemma StartPrefillRoles(c: Core, m: Engine, id: u64, g: GpuRef)
    requires Distinct(c.cluster) && Roles(c) && id in c.inFlight && HasGpu(c.cluster, g)
    requires Serves(GpuAt(c.cluster, g), Prefill)
    ensures Roles(StartPrefill(c, m, id, g))
  {}

  lemma StartDecodeRoles(c: Core, m: Engine, id: u64, g: GpuRef)
    requires Distinct(c.cluster) && Roles(c) && id in c.inFlight && HasGpu(c.cluster, g)
    requires Serves(GpuAt(c.cluster, g), Decode)
    ensures Roles(StartDecode(c, m, id, g))
  {}

  lemma DispatchRoles(c: Core, m: Engine, id: u64)
    requires Distinct(c.cluster) && Roles(c)
    ensures Roles(DispatchPrefill(c, m, id)) && Roles(DispatchDecode(c, m, id))
  {
    hide StartPrefill, StartDecode;
    if id in c.inFlight {
      if c.Idle(Prefill).Some? { StartPrefillRoles(c, m, id, c.Idle(Prefill).value); }
      if c.Idle(Decode).Some? { StartDecodeRoles(c, m, id, c.Idle(Decode).value); }
    }
  }

  lemma {:induction false} AssignPrefillRoles(c: Core, m: Engine)
    requires Distinct(c.cluster) && Roles(c)
    ensures Roles(AssignPrefill(c, m))
    decreases |c.prefillQueue|
  {
    if c.prefillQueue != [] && c.Idle(Prefill).Some? {
      var id, rest := c.prefillQueue[0], c.(prefillQueue := c.prefillQueue[1..]);
      DispatchRoles(rest, m, id);
      AssignPrefillRoles(DispatchPrefill(rest, m, id), m);
    }
  }

  lemma {:induction false} AssignDecodeRoles(c: Core, m: Engine)
    requires Distinct(c.cluster) && Roles(c)
    ensures Roles(AssignDecode(c, m))
    decreases |c.decodeQueue|
  {
    if c.decodeQueue != [] && c.Idle(Decode).Some? {
      var id, rest := c.decodeQueue[0], c.(decodeQueue := c.decodeQueue[1..]);
      DispatchRoles(rest, m, id);
      var next := if id in rest.inFlight then DispatchDecode(rest, m, id) else rest;
      AssignDecodeRoles(next, m);
    }
  }

  lemma ReleaseRoles(c: Core, g: GpuRef)
    requires Distinct(c.cluster) && HasGpu(c.cluster, g) && Roles(c)
    ensures Roles(Release(c, g))
  {}

  lemma FinishRoles(c: Core, id: u64)
    requires Roles(c)
    ensures Roles(Finish(c, id))
  {}

  lemma HandleRoles(c: Core, m: Engine, e: Ev)
    requires CanHandle(c, e) && Roles(c)
    ensures Roles(Handle(c, m, e))
  {
    hide Roles, HasGpu, DispatchPrefill, DispatchDecode, AssignPrefill, AssignDecode, Distinct, Release, Finish;
    match e.kind
    case RequestArrival(id) => DispatchRoles(c, m, id);
    case PrefillDone(id, g) =>
      ReleaseRoles(c, g);
      DispatchRoles(Release(c, g), m, id);
      var c1 := DispatchDecode(Release(c, g), m, id);
      AssignPrefillRoles(c1, m);
      AssignDecodeRoles(AssignPrefill(c1, m), m);
    case DecodeDone(id, g) =>
      ReleaseRoles(c, g);
      FinishRoles(Release(c, g), id);
      var c1 := Finish(Release(c, g), id);
      FinishKeepsDistinct(Release(c, g), id);
      AssignDecodeRoles(c1, m);
      AssignPrefillRoles(AssignDecode(c1, m), m);
  }

  lemma FinishKeepsDistinct(c: Core, id: u64)
    requires Distinct(c.cluster)
    ensures Distinct(Finish(c, id).cluster)
  {}

  /** Requests whose prefill has completed, in order of completion. */
  function PrefillsDone(events: seq<Ev>): seq<u64> {
    if events == [] then []
    else
      var n := |events| - 1;
      PrefillsDone(events[..n]) + if events[n].kind.PrefillDone? then [events[n].kind.id] else []
  }

  /** Of the prefilled requests, exactly the first `s` have started their decode; the others queue for it in order. */
  ghost predicate DecodeOrder(c: Core, done: seq<u64>, s: nat) {
    && s <= |done| && c.decodeQueue == done[s..]
    && (forall k | 0 <= k < s && done[k] in c.inFlight :: c.inFlight[done[k]].decodeStart.Some?)
    && (forall id | id in c.inFlight && c.inFlight[id].decodeStart.Some? :: id in done[..s])
  }

  ghost predicate DecodedInOrder(c: Core, done: seq<u64>) {
    exists s: nat :: DecodeOrder(c, done, s)
  }

  lemma StartDecodeDecodeOrder(c: Core, m: Engine, done: seq<u64>, s: nat, g: GpuRef, rest: Core)
    requires DecodeOrder(c, done, s) && s < |done| && done[s] in c.inFlight && HasGpu(c.cluster, g)
    requires rest == c.(decodeQueue := c.decodeQueue[1..])
    ensures DecodeOrder(StartDecode(rest, m, done[s], g), done, s + 1)
  {
    var c' := StartDecode(rest, m, done[s], g);
    assert c'.decodeQueue == done[s+1..];
    assert done[..s+1] == done[..s] + [done[s]];
  }

  lemma {:induction false} AssignDecodeDecodeOrder(c: Core, m: Engine, done: seq<u64>, s: nat)
    requires DecodeOrder(c, done, s) && Sound(c, {})
    ensures DecodedInOrder(AssignDecode(c, m), done)
    decreases |c.decodeQueue|
  {
    if c.decodeQueue != [] && c.Idle(Decode).Some? {
      var g := c.Idle(Decode).value;
      var id, rest := c.decodeQueue[0], c.(decodeQueue := c.decodeQueue[1..]);
      DecodeHead(c);
      assert id == done[s];
      hide Located, Staged, Grounded, Continues, Active, Prefilled, StartDecode;
      StartDecodeKeeps(rest, m, id, g);
      StartDecodeDecodeOrder(c, m, done, s, g, rest);
      hide DecodeOrder;
      AssignDecodeDecodeOrder(StartDecode(rest, m, id, g), m, done, s + 1);
    }
  }

  lemma {:induction false} AssignPrefillDecodeOrder(c: Core, m: Engine, done: seq<u64>, s: nat)
    requires Distinct(c.cluster) && DecodeOrder(c, done, s)
    ensures DecodeOrder(AssignPrefill(c, m), done, s)
    decreases |c.prefillQueue|
  {
    if c.prefillQueue != [] && c.Idle(Prefill).Some? {
      var g := c.Idle(Prefill).value;
      var id, rest := c.prefillQueue[0], c.(prefillQueue := c.prefillQueue[1..]);
      var next := if id in rest.inFlight then StartPrefill(rest, m, id, g) else rest;
      assert DecodeOrder(next, done, s);
      AssignPrefillDecodeOrder(next, m, done, s);
    }
  }

  /** A request that has just been prefilled joins the end of the line, or starts at once when there is none. */
  lemma DispatchDecodeOrderly(c: Core, m: Engine, done: seq<u64>, s: nat, id: u64) returns (s': nat)
    requires DecodeOrder(c, done, s) && Distinct(c.cluster) && id in c.inFlight
    requires c.decodeQueue != [] ==> c.Idle(Decode).None?
    ensures DecodeOrder(DispatchDecode(c, m, id), done + [id], s')
  {
    var all := done + [id];
    match c.Idle(Decode)
    case Some(g) =>
      assert s == |done|;
      s' := s + 1;
      assert all[s'..] == [] && all[..s'] == done[..s] + [id];
    case None =>
      s' := s;
      assert all[s..] == done[s..] + [id] && all[..s] == done[..s];
  }

  lemma DispatchPrefillDecodeOrder(c: Core, m: Engine, done: seq<u64>, s: nat, id: u64)
    requires Distinct(c.cluster) && DecodeOrder(c, done, s)
    ensures DecodeOrder(DispatchPrefill(c, m, id), done, s)
  {}

  /** Orderly, and decodes have started in the order of the completed prefills `done`. */
  ghost predicate DecodeLine(c: Core, done: seq<u64>) {
    Orderly(c) && Roles(c) && DecodedInOrder(c, done)
  }

  function DoneBy(e: Ev): seq<u64> {
    if e.kind.PrefillDone? then [e.kind.id] else []
  }

  lemma PrefillGpu(c: Core, e: Ev)
    requires Orderly(c) && Roles(c) && e in c.sim.pending && e.kind.PrefillDone?
    ensures Backed(c) && HasGpu(c.cluster, e.kind.gpu) && !Serves(GpuAt(c.cluster, e.kind.gpu), Decode)
    ensures c.decodeQueue != [] ==> c.Idle(Decode).None?
    ensures Staged(c)
  {
    hide Located, Staged, Exclusive, Live, Staffed;
    assert Timed(c);
  }

  lemma ReleaseGivesNoDecode(c: Core, g: GpuRef)
    requires Distinct(c.cluster) && HasGpu(c.cluster, g) && !Serves(GpuAt(c.cluster, g), Decode) && c.Idle(Decode).None?
    ensures Release(c, g).Idle(Decode).None?
  {
    forall h: GpuRef | HasGpu(Release(c, g).cluster, h)
      ensures !IdleFor(GpuAt(Release(c, g).cluster, h), c.Now(), Decode)
    {
      assert !IdleFor(GpuAt(c.cluster, h), c.Now(), Decode);
    }
  }

  /** Releasing a prefill GPU gives no decode worker back. */
  lemma PrefillGpuNoDecode(c: Core, e: Ev)
    requires Orderly(c) && Roles(c) && e in c.sim.pending && Earliest(e, c.sim.pending) && e.kind.PrefillDone?
    requires Strict(Pop(c, e)) && c.decodeQueue != []
    ensures HasGpu(c.cluster, e.kind.gpu) && Release(Pop(c, e), e.kind.gpu).Idle(Decode).None?
  {
    PrefillGpu(c, e);
    assert c.Now() <= e.time && Distinct(c.cluster);
    hide Orderly, Roles, Strict, Backed, Staged, HasGpu, GpuAt;
    NothingReleasedEarly(c, e, Decode);
    ReleaseGivesNoDecode(Pop(c, e), e.kind.gpu);
  }

  lemma ReleaseDecodeOrder(c: Core, g: GpuRef, done: seq<u64>, s: nat)
    requires HasGpu(c.cluster, g) && DecodeOrder(c, done, s)
    ensures DecodeOrder(Release(c, g), done, s)
  {
    hide HasGpu;
  }

  lemma PrefillDoneDecodeOrder(c: Core, m: Engine, e: Ev, done: seq<u64>, s: nat)
    requires Ready(c, e) && e.kind.PrefillDone? && DecodeOrder(c, done, s)
    requires HasGpu(c.cluster, e.kind.gpu)
    requires c.decodeQueue != [] ==> Release(c, e.kind.gpu).Idle(Decode).None?
    ensures DecodedInOrder(OnPrefillDone(c, m, e.kind.id, e.kind.gpu), done + [e.kind.id])
  {
    hide Located, Staged, Grounded, Active, Ready, Staffed, Prefilled, DecodeOrder, Continues, AssignPrefill,
      AssignDecode, HasGpu, SetBusy;
    var id, c1 := e.kind.id, Release(c, e.kind.gpu);
    ReadyRelease(c, e);
    ReleaseDecodeOrder(c, e.kind.gpu, done, s);
    assert c1.decodeQueue == c.decodeQueue;
    hide Release;
    var s' := DispatchDecodeOrderly(c1, m, done, s, id);
    DispatchDecodeKeeps(c1, m, id);
    hide DispatchDecode;
    var c2 := DispatchDecode(c1, m, id);
    AssignPrefillDecodeOrder(c2, m, done + [id], s');
    AssignPrefillKeeps(c2, m);
    AssignDecodeDecodeOrder(AssignPrefill(c2, m), m, done + [id], s');
  }

  lemma DecodeDoneDecodeOrder(c: Core, m: Engine, e: Ev, done: seq<u64>, s: nat)
    requires Ready(c, e) && e.kind.DecodeDone? && DecodeOrder(c, done, s)
    ensures DecodedInOrder(OnDecodeDone(c, m, e.kind.id, e.kind.gpu), done)
  {
    var c2 := Finish(Release(c, e.kind.gpu), e.kind.id);
    assert DecodeOrder(c2, done, s);
    ReadyFinish(c, e, 3);
    hide Located, Staged, Grounded, Active, Ready, Staffed, DecodeOrder, Release, Finish, AssignPrefill, AssignDecode;
    AssignDecodeDecodeOrder(c2, m, done, s);
    AssignDecodeKeeps(c2, m);
    var s': nat :| DecodeOrder(AssignDecode(c2, m), done, s');
    AssignPrefillDecodeOrder(AssignDecode(c2, m), m, done, s');
  }

  lemma AppendNothing(done: seq<u64>)
    ensures done + [] == done
  {}

  lemma PopDecodeOrder(c: Core, e: Ev, done: seq<u64>, s: nat)
    requires DecodeOrder(c, done, s)
    ensures DecodeOrder(Pop(c, e), done, s)
  {}

  lemma TurnDecodedInOrder(m: Engine, c: Core, e: Ev, c': Core, done: seq<u64>)
    requires DecodeLine(c, done) && Turn(c, m, e, c') && Strict(Pop(c, e)) && Ready(Pop(c, e), e)
    ensures DecodedInOrder(c', done + DoneBy(e))
  {
    hide Orderly, Roles, Ready, Strict, DecodeOrder, OnPrefillDone, OnDecodeDone, DispatchPrefill, Earliest;
    var s: nat :| DecodeOrder(c, done, s);
    PopDecodeOrder(c, e, done, s);
    if e.kind.PrefillDone? && c.decodeQueue != [] { PrefillGpuNoDecode(c, e); }
    AppendNothing(done);
    match e.kind {
      case RequestArrival(id) => DispatchPrefillDecodeOrder(Pop(c, e), m, done, s, id);
      case PrefillDone(id, g) => PrefillDoneDecodeOrder(Pop(c, e), m, e, done, s);
      case DecodeDone(id, g) => DecodeDoneDecodeOrder(Pop(c, e), m, e, done, s);
    }
  }

  lemma DecodeLineParts(c: Core, done: seq<u64>)
    requires DecodeLine(c, done)
    ensures Orderly(c) && Steady(c) && Roles(c)
  {
    hide Steady, Exclusive, NoIdleWait, Roles, DecodedInOrder;
  }

  lemma PopReady(c: Core, m: Engine, e: Ev, c': Core)
    requires Steady(c) && StrictTurns(m)(c, e, c')
    ensures Ready(Pop(c, e), e) && Strict(Pop(c, e)) && Strict(c') && Turn(c, m, e, c')
    ensures CanHandle(Pop(c, e), e) && c' == Handle(Pop(c, e), m, e)
  {
    PoppedIsReady(c, e);
    TurnKeeps(c, m, e, c');
    StrictBefore(Pop(c, e), c');
  }

  lemma PopRoles(c: Core, e: Ev)
    requires Roles(c)
    ensures Roles(Pop(c, e))
  {}

  lemma TurnDecodeLine(m: Engine, c: Core, e: Ev, c': Core, done: seq<u64>)
    requires DecodeLine(c, done) && StrictTurns(m)(c, e, c')
    ensures DecodeLine(c', done + DoneBy(e))
  {
    DecodeLineParts(c, done);
    hide Steady, Orderly, Roles, Strict, DecodedInOrder, Ready, Turn, StrictTurns, Handle, CanHandle;
    PopReady(c, m, e, c');
    TurnOrderly(m, c, e, c');
    TurnDecodedInOrder(m, c, e, c', done);
    PopRoles(c, e);
    HandleRoles(Pop(c, e), m, e);
  }

  lemma OneMoreDone(events: seq<Ev>, n: nat)
    requires n < |events|
    ensures PrefillsDone(events[..n+1]) == PrefillsDone(events[..n]) + DoneBy(events[n])
    ensures PrefillsDone(events[..0]) == []
  {
    assert events[..n+1][..n] == events[..n];
  }

  lemma {:induction false} RunDecodeLine(m: Engine, states: seq<Core>, events: seq<Ev>, n: nat)
    requires IsTrace(StrictTurns(m), states, events) && DecodeLine(states[0], []) && n <= |events|
    ensures DecodeLine(states[n], PrefillsDone(events[..n]))
  {
    hide StrictTurns, DecodeLine, IsTrace, DoneBy;
    if n > 0 {
      TraceStep(StrictTurns(m), states, events, n - 1);
      RunDecodeLine(m, states, events, n - 1);
      OneMoreDone(events, n - 1);
      TurnDecodeLine(m, states[n-1], events[n-1], states[n], PrefillsDone(events[..n-1]));
    }
  }

  ghost predicate DecodeBegun(c: Core, id: u64) {
    id !in c.inFlight || c.inFlight[id].decodeStart.Some?
  }

  lemma DecodeBegunIsInitial(c: Core, done: seq<u64>, i: nat, j: nat)
    requires DecodeLine(c, done) && i < j < |done| && DecodeBegun(c, done[j])
    ensures DecodeBegun(c, done[i])
  {
    var s: nat :| DecodeOrder(c, done, s);
    if s <= j {
      assert c.decodeQueue[j - s] == done[j];
      assert done[j] in Members(c.decodeQueue);
    }
  }

  lemma LoadedDecodeLine(t: Topology, rs: seq<Request>)
    requires Rested(t, rs) && UniqueIds(rs) && Disaggregated(t)
    ensures DecodeLine(Loaded(t, rs), [])
  {
    var c := Loaded(t, rs);
    LoadedOrderly(t, rs);
    LoadedNothingStarted(t, rs);
    LoadedQuiet(t, rs);
    LoadedInFlight(t, rs);
    assert DecodeOrder(c, [], 0);
  }

  /** In a tie-free run on a cluster whose GPUs serve one role each, decodes start in the order in which the prefills
      completed: a request never starts decoding while one that was prefilled before it still waits. */
  lemma DecodesInCompletionOrder(t: Topology, rs: seq<Request>, m: Engine, states: seq<Core>, events: seq<Ev>,
                                 n: nat, i: nat, j: nat)
    requires Rested(t, rs) && UniqueIds(rs) && Disaggregated(t)
    requires IsTrace(StrictTurns(m), states, events) && states[0] == Loaded(t, rs) && n <= |events|
    requires i < j < |PrefillsDone(events[..n])| && DecodeBegun(states[n], PrefillsDone(events[..n])[j])
    ensures DecodeBegun(states[n], PrefillsDone(events[..n])[i])
  {
    hide StrictTurns, DecodeLine, DecodeBegun, Rested;
    LoadedDecodeLine(t, rs);
    RunDecodeLine(m, states, events, n);
    DecodeBegunIsInitial(states[n], PrefillsDone(events[..n]), i, j);
  }

  // ---- GPUs that serve both roles ----

  /** Nobody's decode start changes. */
  ghost predicate SameDecodes(a: Core, b: Core) {
    && a.inFlight.Keys == b.inFlight.Keys
    && forall id | id in a.inFlight :: b.inFlight[id].decodeStart == a.inFlight[id].decodeStart
  }

  /** Nobody's decode start is lost. */
  ghost predicate KeepsDecodes(a: Core, b: Core) {
    && a.inFlight.Keys == b.inFlight.Keys
    && forall id | id in a.inFlight && a.inFlight[id].decodeStart.Some? :: b.inFlight[id].decodeStart.Some?
  }

  lemma StartDecodes(c: Core, m: Engine, id: u64, g: GpuRef)
    requires id in c.inFlight && HasGpu(c.cluster, g)
    ensures SameDecodes(c, StartPrefill(c, m, id, g)) && KeepsDecodes(c, StartDecode(c, m, id, g))
  {
    hide SetBusy, HasGpu;
  }

  lemma {:induction false} AssignPrefillDecodes(c: Core, m: Engine)
    requires Distinct(c.cluster)
    ensures SameDecodes(c, AssignPrefill(c, m)) && AssignPrefill(c, m).decodeQueue == c.decodeQueue
    decreases |c.prefillQueue|
  {
    hide HasGpu, Distinct, FindIdle;
    if c.prefillQueue != [] && c.Idle(Prefill).Some? {
      var g := c.Idle(Prefill).value;
      var id, rest := c.prefillQueue[0], c.(prefillQueue := c.prefillQueue[1..]);
      if id in rest.inFlight {
        StartDecodes(rest, m, id, g);
        AssignPrefillDecodes(StartPrefill(rest, m, id, g), m);
      } else {
        AssignPrefillDecodes(rest, m);
      }
    }
  }

  lemma {:induction false} AssignDecodeDecodes(c: Core, m: Engine)
    requires Distinct(c.cluster)
    ensures KeepsDecodes(c, AssignDecode(c, m))
    decreases |c.decodeQueue|
  {
    hide HasGpu, Distinct, FindIdle;
    if c.decodeQueue != [] && c.Idle(Decode).Some? {
      var g := c.Idle(Decode).value;
      var id, rest := c.decodeQueue[0], c.(decodeQueue := c.decodeQueue[1..]);
      if id in rest.inFlight {
        StartDecodes(rest, m, id, g);
        AssignDecodeDecodes(StartDecode(rest, m, id, g), m);
      } else {
        AssignDecodeDecodes(rest, m);
      }
    }
  }

  lemma ReleaseIdles(c: Core, g: GpuRef, role: Role)
    requires Distinct(c.cluster) && HasGpu(c.cluster, g) && Serves(GpuAt(c.cluster, g), role)
    ensures Release(c, g).Idle(role).Some?
  {
    assert IdleFor(GpuAt(Release(c, g).cluster, g), c.Now(), role);
  }

  /** After the release, the request just prefilled starts its decode if and only if some GPU is idle for it. */
  lemma DispatchedIffIdle(c: Core, m: Engine, id: u64)
    requires Distinct(c.cluster) && id in c.inFlight && c.inFlight[id].decodeStart.None?
    ensures var c' := AssignDecode(AssignPrefill(DispatchDecode(c, m, id), m), m);
            id in c'.inFlight && (c'.inFlight[id].decodeStart.Some? <==> c.Idle(Decode).Some?)
  {
    var c1 := DispatchDecode(c, m, id);
    if c.Idle(Decode).None? {
      assert c1.Idle(Decode).None?;
      AssignPrefillKeepsNoIdle(c1, m, Decode);
    }
    AssignPrefillDecodes(c1, m);
    AssignDecodeDecodes(AssignPrefill(c1, m), m);
    hide FindIdle, HasGpu, Distinct;
  }

  /** In a tie-free run, on any cluster: while others wait for decode, a request whose prefill ends starts its decode at
      once, ahead of them all, if and only if the GPU it was prefilled on serves decode as well. */
  lemma OvertakesIffUnified(m: Engine, c: Core, e: Ev, c': Core)
    requires Orderly(c) && StrictTurns(m)(c, e, c') && e.kind.PrefillDone? && c.decodeQueue != []
    ensures HasGpu(c.cluster, e.kind.gpu) && e.kind.id in c'.inFlight
    ensures c'.inFlight[e.kind.id].decodeStart.Some? <==> Serves(GpuAt(c.cluster, e.kind.gpu), Decode)
  {
    var d, g := Pop(c, e), e.kind.gpu;
    assert Steady(c) && NoIdleWait(c) && Timed(c);
    hide Steady, Timed, Exclusive, NoIdleWait, Strict, DispatchDecode, AssignPrefill, AssignDecode, Earliest;
    PopReady(c, m, e, c');
    PrefilledAfterPop(d, e);
    if Serves(GpuAt(c.cluster, g), Decode) {
      ReleaseIdles(d, g, Decode);
    } else {
      QueuedFindNoGpu(c, e);
      ReleaseGivesNoDecode(d, g);
    }
    DispatchedIffIdle(Release(d, g), m, e.kind.id);
  }

  lemma PrefilledAfterPop(c: Core, e: Ev)
    requires Ready(c, e) && e.kind.PrefillDone?
    ensures HasGpu(c.cluster, e.kind.gpu) && Distinct(c.cluster)
    ensures e.kind.id in c.inFlight && c.inFlight[e.kind.id].decodeStart.None?
  {}

  lemma QueuedFindNoGpu(c: Core, e: Ev)
    requires Orderly(c) && e in c.sim.pending && Earliest(e, c.sim.pending) && e.kind.PrefillDone?
    requires HasGpu(c.cluster, e.kind.gpu) && !Serves(GpuAt(c.cluster, e.kind.gpu), Decode)
    requires Strict(Pop(c, e)) && c.decodeQueue != []
    ensures Distinct(c.cluster) && Pop(c, e).Idle(Decode).None?
  {
    assert Backed(c) && c.Now() <= e.time && c.Idle(Decode).None?;
    hide Orderly, Backed, Strict;
    NothingReleasedEarly(c, e, Decode);
  }

  /** The same for whole runs. */
  lemma WhoOvertakes(t: Topology, rs: seq<Request>, m: Engine, states: seq<Core>, events: seq<Ev>, n: nat)
    requires Rested(t, rs) && UniqueIds(rs)
    requires IsTrace(StrictTurns(m), states, events) && states[0] == Loaded(t, rs) && n < |events|
    requires events[n].kind.PrefillDone? && states[n].decodeQueue != []
    ensures var id, g := events[n].kind.id, events[n].kind.gpu;
            && HasGpu(states[n].cluster, g) && id in states[n+1].inFlight
            && (states[n+1].inFlight[id].decodeStart.Some? <==> Serves(GpuAt(states[n].cluster, g), Decode))
  {
    hide *;
    LoadedOrderly(t, rs);
    RunOrderly(m, states, events, n);
    TraceStep(StrictTurns(m), states, events, n);
    OvertakesIffUnified(m, states[n], events[n], states[n+1]);
  }
}
