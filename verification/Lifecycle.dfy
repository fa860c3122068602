/** The life of a request on the machine: where it is, what its timestamps are, who keeps a GPU busy, and how much of
    its way is left. Every step of the machine keeps this picture, ties between events included. */
module Lifecycle {
  import opened Numbers
  import opened Simulation
  import opened Cluster
  import opened Requests
  import opened Machine

  // ---- where every request is ----

  function EventIds(pending: set<Ev>): set<u64> {
    set e | e in pending :: e.kind.id
  }

  function Members(q: seq<u64>): set<u64> {
    set x | x in q
  }

  predicate NoDup(q: seq<u64>) {
    forall i, j | 0 <= i < j < |q| :: q[i] != q[j]
  }

  /** Each request in flight is in exactly one place: one pending event, one queue position, or the hands of the
      running handler (`loose`). */
  ghost predicate Located(c: Core, loose: set<u64>) {
    && (forall e, f | e in c.sim.pending && f in c.sim.pending && e.kind.id == f.kind.id :: e == f)
    && NoDup(c.prefillQueue) && NoDup(c.decodeQueue)
    && EventIds(c.sim.pending) !! Members(c.prefillQueue) !! Members(c.decodeQueue) !! loose
    && c.inFlight.Keys == EventIds(c.sim.pending) + Members(c.prefillQueue) + Members(c.decodeQueue) + loose
    && (forall id | id in c.inFlight :: c.inFlight[id].req.id == id)
  }

  // ---- what is known about its timestamps there ----

  predicate Unstarted(f: InFlight) {
    f.prefillStart.None? && f.prefillDone.None? && f.decodeStart.None? && f.firstToken.None? && f.finish.None?
  }

  predicate Prefilling(f: InFlight, done: u64) {
    && f.prefillStart.Some? && f.prefillDone == Some(done)
    && f.decodeStart.None? && f.firstToken.None? && f.finish.None?
    && f.req.arrival <= f.prefillStart.value <= done
  }

  /** Ready for decode by `t`: prefilled, or excused from prefill by a complete hit. */
  predicate PrefillOver(f: InFlight, t: u64) {
    && f.req.arrival <= t
    && (f.prefillStart.None? ==> f.prefillDone.None?)
    && (f.prefillStart.Some? ==> f.prefillDone.Some? && f.req.arrival <= f.prefillStart.value <= f.prefillDone.value <= t)
  }

  predicate Prefilled(f: InFlight, t: u64) {
    PrefillOver(f, t) && f.decodeStart.None? && f.firstToken.None? && f.finish.None?
  }

  predicate Decoding(f: InFlight, done: u64) {
    && f.decodeStart.Some? && f.firstToken.Some? && f.finish == Some(done)
    && PrefillOver(f, f.decodeStart.value)
    && f.decodeStart.value <= f.firstToken.value && f.decodeStart.value <= done
    && (f.req.outputTokens >= 1 ==> f.firstToken.value <= done)
  }

  predicate StageOf(f: InFlight, e: Ev, now: u64) {
    match e.kind
    case RequestArrival(_) => Unstarted(f) && e.time == f.req.arrival
    case FetchDone(_) => Unstarted(f) && f.req.arrival <= now
    case PrefillDone(_, _) => Prefilling(f, e.time)
    case DecodeDone(_, _) => Decoding(f, e.time)
  }

  ghost predicate Staged(c: Core) {
    && (forall e | e in c.sim.pending :: e.kind.FetchDone? || c.Now() <= e.time)
    && (forall e | e in c.sim.pending && e.kind.id in c.inFlight :: StageOf(c.inFlight[e.kind.id], e, c.Now()))
    && (forall id | id in c.prefillQueue && id in c.inFlight ::
          Unstarted(c.inFlight[id]) && c.inFlight[id].req.arrival <= c.Now())
    && (forall id | id in c.decodeQueue && id in c.inFlight :: Prefilled(c.inFlight[id], c.Now()))
    && (forall r | r in c.results :: r.InOrder())
  }

  // ---- who keeps a GPU busy ----

  ghost predicate Running(pending: set<Ev>, g: GpuRef, until: u64) {
    exists e :: e in pending && e.kind.CompletesOn(g) && e.time == until
  }

  /** Completions name real GPUs. */
  ghost predicate Grounded(c: Core) {
    && Distinct(c.cluster)
    && (forall e | e in c.sim.pending && e.kind.Completes() :: HasGpu(c.cluster, e.kind.gpu))
  }

  /** A GPU that is not free yet has its own completion pending at its release time. */
  ghost predicate Backed(c: Core) {
    && Grounded(c)
    && (forall g: GpuRef | HasGpu(c.cluster, g) && c.Now() < GpuAt(c.cluster, g).busyUntil ::
          Running(c.sim.pending, g, GpuAt(c.cluster, g).busyUntil))
  }

  /** Before the first event: nothing is scheduled but arrivals, and every GPU is released by then. */
  ghost predicate Untouched(c: Core) {
    && Distinct(c.cluster)
    && (forall e | e in c.sim.pending :: !e.kind.Completes())
    && (forall e, g: GpuRef | e in c.sim.pending && HasGpu(c.cluster, g) :: GpuAt(c.cluster, g).busyUntil <= e.time)
  }

  ghost predicate Active(c: Core) {
    c.sim.pending != {}
  }

  /** Whatever is queued will be looked at again. */
  ghost predicate Live(c: Core) {
    c.prefillQueue != [] || c.decodeQueue != [] ==> Active(c)
  }

  /** The moment lies behind, or some pending event is not due before it. */
  ghost predicate Foreseen(s: Sim<Kind>, at: u64) {
    at <= s.now || exists e :: e in s.pending && at <= e.time
  }

  /** Some GPU serving the role is free, or will be when some pending event is due. */
  ghost predicate Staffed(t: Topology, s: Sim<Kind>, role: Role) {
    exists g :: HasGpu(t, g) && Serves(GpuAt(t, g), role) && Foreseen(s, GpuAt(t, g).busyUntil)
  }

  ghost predicate KeepsStaff(a: Core, b: Core) {
    && (Staffed(a.cluster, a.sim, Prefill) ==> Staffed(b.cluster, b.sim, Prefill))
    && (Staffed(a.cluster, a.sim, Decode) ==> Staffed(b.cluster, b.sim, Decode))
  }

  ghost predicate SameRequests(a: Core, b: Core) {
    && b.inFlight.Keys == a.inFlight.Keys
    && (forall id | id in b.inFlight :: b.inFlight[id].req == a.inFlight[id].req)
    && b.results == a.results
  }

  /** `b` comes from `a` by starting or queueing requests only. */
  ghost predicate Continues(a: Core, b: Core) {
    Extends(a.sim, b.sim) && SameShape(a.cluster, b.cluster) && SameRequests(a, b) && KeepsStaff(a, b)
  }

  lemma ContinuesTransitive(a: Core, b: Core, c: Core)
    requires Continues(a, b) && Continues(b, c)
    ensures Continues(a, c)
  {
    ExtendsTransitive(a.sim, b.sim, c.sim);
  }

  /** The invariant between the steps of a handler that holds the requests in `loose`. */
  ghost predicate Sound(c: Core, loose: set<u64>) {
    Located(c, loose) && Staged(c) && Grounded(c)
  }

  // ---- every step keeps it ----

  lemma PopLocated(c: Core, e: Ev)
    requires Located(c, {}) && e in c.sim.pending
    ensures Located(Pop(c, e), {e.kind.id})
  {
    var c' := Pop(c, e);
    forall x ensures x in EventIds(c.sim.pending) <==> x in EventIds(c'.sim.pending) || x == e.kind.id {
      if x in EventIds(c.sim.pending) {
        var f :| f in c.sim.pending && f.kind.id == x;
        if f != e { assert f in c'.sim.pending; }
      }
    }
    assert e.kind.id !in EventIds(c'.sim.pending);
    assert e.kind.id in EventIds(c.sim.pending);
  }

  lemma PopBacked(c: Core, e: Ev)
    requires Backed(c) || Untouched(c)
    requires e in c.sim.pending
    ensures Backed(Pop(c, e))
  {
    var c' := Pop(c, e);
    forall g: GpuRef | HasGpu(c'.cluster, g) && c'.Now() < GpuAt(c'.cluster, g).busyUntil
      ensures Running(c'.sim.pending, g, GpuAt(c'.cluster, g).busyUntil)
    {
      if Backed(c) {
        var f :| f in c.sim.pending && f.kind.CompletesOn(g) && f.time == GpuAt(c.cluster, g).busyUntil;
        assert f in c'.sim.pending;
      }
    }
  }

  lemma PopStaged(c: Core, e: Ev)
    requires Staged(c) && Earliest(e, c.sim.pending)
    ensures Staged(Pop(c, e))
    ensures !e.kind.FetchDone? ==> Pop(c, e).Now() == e.time
    ensures e.kind.id in c.inFlight ==> StageOf(c.inFlight[e.kind.id], e, Pop(c, e).Now())
  {
    forall f | f in Pop(c, e).sim.pending ensures f.kind.FetchDone? || Pop(c, e).Now() <= f.time {
      assert !Before(f, e);
    }
  }

  lemma ScheduledLocated(c: Core, c': Core, e: Ev)
    requires Located(c, {e.kind.id})
    requires c'.sim.pending == c.sim.pending + {e}
    requires c'.prefillQueue == c.prefillQueue && c'.decodeQueue == c.decodeQueue
    requires c'.inFlight.Keys == c.inFlight.Keys
    requires forall id | id in c'.inFlight :: c'.inFlight[id].req == c.inFlight[id].req
    ensures Located(c', {})
  {
    forall x ensures x in EventIds(c'.sim.pending) <==> x in EventIds(c.sim.pending) || x == e.kind.id {
      if x in EventIds(c.sim.pending) {
        var f :| f in c.sim.pending && f.kind.id == x;
        assert f in c'.sim.pending;
      }
      if x == e.kind.id { assert e in c'.sim.pending; }
    }
    assert forall f | f in c.sim.pending :: f.kind.id in EventIds(c.sim.pending);
  }

  lemma BusyBacked(c: Core, c': Core, e: Ev)
    requires Backed(c) && e.kind.Completes() && HasGpu(c.cluster, e.kind.gpu)
    requires c'.Now() == c.Now() && c'.sim.pending == c.sim.pending + {e}
    requires c'.cluster == SetBusy(c.cluster, e.kind.gpu, e.time)
    ensures Backed(c')
  {
    forall g: GpuRef | HasGpu(c'.cluster, g) && c'.Now() < GpuAt(c'.cluster, g).busyUntil
      ensures Running(c'.sim.pending, g, GpuAt(c'.cluster, g).busyUntil)
    {
      if g == e.kind.gpu {
        assert e in c'.sim.pending;
      } else {
        var f :| f in c.sim.pending && f.kind.CompletesOn(g) && f.time == GpuAt(c.cluster, g).busyUntil;
        assert f in c'.sim.pending;
      }
    }
  }

  // ---- some GPU will be there ----

  lemma ForeseenLater(s: Sim<Kind>, s': Sim<Kind>, at: u64)
    requires Foreseen(s, at) && s.now <= s'.now && s.pending <= s'.pending
    ensures Foreseen(s', at)
  {
    if s.now < at {
      var e :| e in s.pending && at <= e.time;
      assert e in s'.pending;
    }
  }

  lemma StaffGrows(t: Topology, s: Sim<Kind>, s': Sim<Kind>, role: Role)
    requires Staffed(t, s, role) && s.now <= s'.now && s.pending <= s'.pending
    ensures Staffed(t, s', role)
  {
    var g :| HasGpu(t, g) && Serves(GpuAt(t, g), role) && Foreseen(s, GpuAt(t, g).busyUntil);
    ForeseenLater(s, s', GpuAt(t, g).busyUntil);
  }

  /** Occupying a GPU until a moment that is foreseen leaves every role staffed. */
  lemma StaffStays(t: Topology, s: Sim<Kind>, g: GpuRef, until: u64, s': Sim<Kind>, role: Role)
    requires Staffed(t, s, role) && HasGpu(t, g) && s.now <= s'.now && s.pending <= s'.pending && Foreseen(s', until)
    ensures Staffed(SetBusy(t, g, until), s', role)
  {
    var h :| HasGpu(t, h) && Serves(GpuAt(t, h), role) && Foreseen(s, GpuAt(t, h).busyUntil);
    ForeseenLater(s, s', GpuAt(t, h).busyUntil);
    var t' := SetBusy(t, g, until);
    assert HasGpu(t', h) && Serves(GpuAt(t', h), role) && Foreseen(s', GpuAt(t', h).busyUntil);
  }

  lemma StartKeepsStaff(c: Core, c': Core, g: GpuRef, until: u64, kind: Kind)
    requires HasGpu(c.cluster, g) && c'.cluster == SetBusy(c.cluster, g, until)
    requires c'.sim == Scheduled(c.sim, until, kind)
    ensures KeepsStaff(c, c')
  {
    assert Event(until, c.sim.nextSeq, kind) in c'.sim.pending;
    assert Foreseen(c'.sim, until);
    hide Staffed, Foreseen, HasGpu, SetBusy;
    if Staffed(c.cluster, c.sim, Prefill) { StaffStays(c.cluster, c.sim, g, until, c'.sim, Prefill); }
    if Staffed(c.cluster, c.sim, Decode) { StaffStays(c.cluster, c.sim, g, until, c'.sim, Decode); }
  }

  lemma ReleaseKeepsStaff(c: Core, g: GpuRef)
    requires HasGpu(c.cluster, g)
    ensures KeepsStaff(c, Release(c, g))
  {
    assert Foreseen(c.sim, c.Now());
    hide Staffed, Foreseen, HasGpu, SetBusy;
    if Staffed(c.cluster, c.sim, Prefill) { StaffStays(c.cluster, c.sim, g, c.Now(), c.sim, Prefill); }
    if Staffed(c.cluster, c.sim, Decode) { StaffStays(c.cluster, c.sim, g, c.Now(), c.sim, Decode); }
  }

  /** When the event that was waited for comes out, the GPU is free. */
  lemma PopStaffed(c: Core, e: Ev, role: Role)
    requires Staffed(c.cluster, c.sim, role)
    ensures Staffed(c.cluster, Pop(c, e).sim, role)
  {
    var g :| HasGpu(c.cluster, g) && Serves(GpuAt(c.cluster, g), role) && Foreseen(c.sim, GpuAt(c.cluster, g).busyUntil);
    var at := GpuAt(c.cluster, g).busyUntil;
    if c.sim.now < at {
      var f :| f in c.sim.pending && at <= f.time;
      assert f == e || f in Pop(c, e).sim.pending;
    }
    assert Foreseen(Pop(c, e).sim, at);
  }

  /** Nobody idle for a role that is staffed: some event is still to come. */
  lemma NoIdleMeansActive(c: Core, role: Role)
    requires Distinct(c.cluster) && Staffed(c.cluster, c.sim, role) && c.Idle(role).None?
    ensures Active(c)
  {
    var g :| HasGpu(c.cluster, g) && Serves(GpuAt(c.cluster, g), role) && Foreseen(c.sim, GpuAt(c.cluster, g).busyUntil);
    assert !IdleFor(GpuAt(c.cluster, g), c.Now(), role);
  }

  // ---- requests ----

  lemma StartPrefillStaged(c: Core, m: Engine, id: u64, g: GpuRef)
    requires Sound(c, {id}) && HasGpu(c.cluster, g)
    requires Unstarted(c.inFlight[id]) && c.inFlight[id].req.arrival <= c.Now()
    ensures Staged(StartPrefill(c, m, id, g))
  {
    var c' := StartPrefill(c, m, id, g);
    forall e | e in c'.sim.pending && e.kind.id in c'.inFlight
      ensures StageOf(c'.inFlight[e.kind.id], e, c'.Now())
    {
      if e in c.sim.pending { assert e.kind.id in EventIds(c.sim.pending); }
    }
    assert id !in Members(c.prefillQueue) && id !in Members(c.decodeQueue);
  }

  /** `c'` is `c` with request `id` under way on GPU `g` until the completion `e`. */
  ghost predicate Begun(c: Core, c': Core, id: u64, g: GpuRef, e: Ev) {
    && HasGpu(c.cluster, g) && e.kind.CompletesOn(g) && e.kind.id == id && c.Now() <= e.time
    && c'.sim == Scheduled(c.sim, e.time, e.kind) && e.seqNo == c.sim.nextSeq
    && c'.cluster == SetBusy(c.cluster, g, e.time)
    && c'.prefillQueue == c.prefillQueue && c'.decodeQueue == c.decodeQueue && SameRequests(c, c')
  }

  lemma PrefillBegins(c: Core, m: Engine, id: u64, g: GpuRef)
    requires id in c.inFlight && HasGpu(c.cluster, g) && c.inFlight[id].req.id == id
    ensures var c' := StartPrefill(c, m, id, g);
            && id in c'.inFlight && c'.inFlight[id].prefillDone.Some?
            && Begun(c, c', id, g, Event(c'.inFlight[id].prefillDone.value, c.sim.nextSeq, PrefillDone(id, g)))
  {
    hide HasGpu, SetBusy;
  }

  lemma DecodeBegins(c: Core, m: Engine, id: u64, g: GpuRef)
    requires id in c.inFlight && HasGpu(c.cluster, g) && c.inFlight[id].req.id == id
    ensures var c' := StartDecode(c, m, id, g);
            && id in c'.inFlight && c'.inFlight[id].finish.Some?
            && Begun(c, c', id, g, Event(c'.inFlight[id].finish.value, c.sim.nextSeq, DecodeDone(id, g)))
  {
    hide HasGpu, SetBusy;
  }

  /** Beginning a task keeps everything but the timestamps, which depend on the task. */
  lemma BegunKeeps(c: Core, c': Core, id: u64, g: GpuRef, e: Ev)
    requires Located(c, {id}) && Grounded(c) && Begun(c, c', id, g, e)
    ensures Located(c', {}) && Grounded(c') && Continues(c, c') && Active(c')
  {
    assert e in c'.sim.pending;
    assert Grounded(c') by { hide Located, SetBusy, HasGpu; }
    hide HasGpu, SetBusy, Distinct, Grounded;
    LooseIsNotPending(c, id, e);
    ScheduledLocated(c, c', e);
    hide Located;
    ScheduledExtends(c.sim, e.time, e.kind);
    StartKeepsStaff(c, c', g, e.time, e.kind);
  }

  lemma StartPrefillKeeps(c: Core, m: Engine, id: u64, g: GpuRef)
    requires Sound(c, {id}) && HasGpu(c.cluster, g)
    requires Unstarted(c.inFlight[id]) && c.inFlight[id].req.arrival <= c.Now()
    ensures Sound(StartPrefill(c, m, id, g), {})
    ensures Continues(c, StartPrefill(c, m, id, g)) && Active(StartPrefill(c, m, id, g))
  {
    var c' := StartPrefill(c, m, id, g);
    assert id in c.inFlight && c.inFlight[id].req.id == id;
    hide Located, Staged, Grounded, Unstarted, HasGpu, StartPrefill, Begun, Continues, Active;
    PrefillBegins(c, m, id, g);
    StartPrefillStaged(c, m, id, g);
    BegunKeeps(c, c', id, g, Event(c'.inFlight[id].prefillDone.value, c.sim.nextSeq, PrefillDone(id, g)));
  }

  lemma StartDecodeStaged(c: Core, m: Engine, id: u64, g: GpuRef)
    requires Sound(c, {id}) && HasGpu(c.cluster, g)
    requires Prefilled(c.inFlight[id], c.Now())
    ensures Staged(StartDecode(c, m, id, g))
  {
    var c' := StartDecode(c, m, id, g);
    if c.inFlight[id].req.outputTokens >= 1 {
      SatMulAtLeast(m.StepFor(c.inFlight[id].req.promptTokens), c.inFlight[id].req.outputTokens);
    }
    forall e | e in c'.sim.pending && e.kind.id in c'.inFlight
      ensures StageOf(c'.inFlight[e.kind.id], e, c'.Now())
    {
      if e in c.sim.pending { assert e.kind.id in EventIds(c.sim.pending); }
    }
    assert id !in Members(c.prefillQueue) && id !in Members(c.decodeQueue);
  }

  lemma StartDecodeKeeps(c: Core, m: Engine, id: u64, g: GpuRef)
    requires Sound(c, {id}) && HasGpu(c.cluster, g)
    requires Prefilled(c.inFlight[id], c.Now())
    ensures Sound(StartDecode(c, m, id, g), {})
    ensures Continues(c, StartDecode(c, m, id, g)) && Active(StartDecode(c, m, id, g))
  {
    var c' := StartDecode(c, m, id, g);
    assert id in c.inFlight && c.inFlight[id].req.id == id;
    hide Located, Staged, Grounded, Prefilled, HasGpu, StartDecode, Begun, Continues, Active;
    DecodeBegins(c, m, id, g);
    StartDecodeStaged(c, m, id, g);
    BegunKeeps(c, c', id, g, Event(c'.inFlight[id].finish.value, c.sim.nextSeq, DecodeDone(id, g)));
  }

  lemma MembersOfPush(q: seq<u64>, id: u64)
    ensures Members(q + [id]) == Members(q) + {id}
    ensures NoDup(q) && id !in q ==> NoDup(q + [id])
  {
    forall x ensures x in Members(q + [id]) <==> x in Members(q) + {id} {
      if x in q { assert x in q + [id]; }
      assert (q + [id])[|q|] == id;
    }
  }

  lemma MembersOfTail(q: seq<u64>)
    requires q != [] && NoDup(q)
    ensures Members(q[1..]) == Members(q) - {q[0]} && q[0] in Members(q)
    ensures NoDup(q[1..])
  {
    assert q == [q[0]] + q[1..];
  }

  lemma QueuePrefillKeeps(c: Core, id: u64)
    requires Sound(c, {id})
    requires Unstarted(c.inFlight[id]) && c.inFlight[id].req.arrival <= c.Now()
    ensures Sound(c.(prefillQueue := c.prefillQueue + [id]), {})
    ensures Continues(c, c.(prefillQueue := c.prefillQueue + [id]))
  {
    MembersOfPush(c.prefillQueue, id);
  }

  lemma QueueDecodeKeeps(c: Core, id: u64)
    requires Sound(c, {id})
    requires Prefilled(c.inFlight[id], c.Now())
    ensures Sound(c.(decodeQueue := c.decodeQueue + [id]), {})
    ensures Continues(c, c.(decodeQueue := c.decodeQueue + [id]))
  {
    MembersOfPush(c.decodeQueue, id);
  }

  lemma DispatchPrefillKeeps(c: Core, m: Engine, id: u64)
    requires Sound(c, {id}) && Staffed(c.cluster, c.sim, Prefill)
    requires Unstarted(c.inFlight[id]) && c.inFlight[id].req.arrival <= c.Now()
    ensures Sound(DispatchPrefill(c, m, id), {})
    ensures Continues(c, DispatchPrefill(c, m, id)) && Active(DispatchPrefill(c, m, id))
  {
    assert Distinct(c.cluster) && id in c.inFlight;
    hide Located, Staged, Grounded, Continues, Staffed, Unstarted, StartPrefill;
    match c.Idle(Prefill)
    case Some(g) => StartPrefillKeeps(c, m, id, g);
    case None =>
      QueuePrefillKeeps(c, id);
      NoIdleMeansActive(c, Prefill);
  }

  lemma DispatchDecodeKeeps(c: Core, m: Engine, id: u64)
    requires Sound(c, {id}) && Staffed(c.cluster, c.sim, Decode)
    requires Prefilled(c.inFlight[id], c.Now())
    ensures Sound(DispatchDecode(c, m, id), {})
    ensures Continues(c, DispatchDecode(c, m, id)) && Active(DispatchDecode(c, m, id))
  {
    assert Distinct(c.cluster) && id in c.inFlight;
    hide Located, Staged, Grounded, Continues, Staffed, Prefilled, StartDecode;
    match c.Idle(Decode)
    case Some(g) => StartDecodeKeeps(c, m, id, g);
    case None =>
      QueueDecodeKeeps(c, id);
      NoIdleMeansActive(c, Decode);
  }

  lemma ContinuesSelf(c: Core)
    requires Distinct(c.cluster)
    ensures Continues(c, c)
  {}

  /** Taking the head of the prefill queue puts exactly that request into the handler's hands. */
  lemma PrefillHead(c: Core)
    requires Sound(c, {}) && c.prefillQueue != []
    ensures var id, rest := c.prefillQueue[0], c.(prefillQueue := c.prefillQueue[1..]);
            && Sound(rest, {id}) && Continues(c, rest) && id in rest.inFlight
            && Unstarted(rest.inFlight[id]) && rest.inFlight[id].req.arrival <= rest.Now()
  {
    MembersOfTail(c.prefillQueue);
  }

  lemma DecodeHead(c: Core)
    requires Sound(c, {}) && c.decodeQueue != []
    ensures var id, rest := c.decodeQueue[0], c.(decodeQueue := c.decodeQueue[1..]);
            && Sound(rest, {id}) && Continues(c, rest) && id in rest.inFlight
            && Prefilled(rest.inFlight[id], rest.Now())
  {
    MembersOfTail(c.decodeQueue);
  }

  lemma {:induction false} AssignPrefillKeeps(c: Core, m: Engine)
    requires Sound(c, {})
    ensures Sound(AssignPrefill(c, m), {}) && Continues(c, AssignPrefill(c, m))
    ensures AssignPrefill(c, m).prefillQueue != [] ==> AssignPrefill(c, m).Idle(Prefill).None?
    ensures AssignPrefill(c, m).decodeQueue == c.decodeQueue
    decreases |c.prefillQueue|
  {
    ContinuesSelf(c);
    if c.prefillQueue != [] && c.Idle(Prefill).Some? {
      var g := c.Idle(Prefill).value;
      var id, rest := c.prefillQueue[0], c.(prefillQueue := c.prefillQueue[1..]);
      PrefillHead(c);
      hide Located, Staged, Grounded, Continues, Active, Unstarted;
      var next := StartPrefill(rest, m, id, g);
      StartPrefillKeeps(rest, m, id, g);
      AssignPrefillKeeps(next, m);
      ContinuesTransitive(c, rest, next);
      ContinuesTransitive(c, next, AssignPrefill(c, m));
    }
  }

  lemma {:induction false} AssignDecodeKeeps(c: Core, m: Engine)
    requires Sound(c, {})
    ensures Sound(AssignDecode(c, m), {}) && Continues(c, AssignDecode(c, m))
    ensures AssignDecode(c, m).decodeQueue != [] ==> AssignDecode(c, m).Idle(Decode).None?
    ensures AssignDecode(c, m).prefillQueue == c.prefillQueue
    decreases |c.decodeQueue|
  {
    ContinuesSelf(c);
    if c.decodeQueue != [] && c.Idle(Decode).Some? {
      var g := c.Idle(Decode).value;
      var id, rest := c.decodeQueue[0], c.(decodeQueue := c.decodeQueue[1..]);
      DecodeHead(c);
      hide Located, Staged, Grounded, Continues, Active, Prefilled;
      var next := StartDecode(rest, m, id, g);
      StartDecodeKeeps(rest, m, id, g);
      AssignDecodeKeeps(next, m);
      ContinuesTransitive(c, rest, next);
      ContinuesTransitive(c, next, AssignDecode(c, m));
    }
  }

  lemma ReleaseKeeps(c: Core, g: GpuRef, loose: set<u64>)
    requires Sound(c, loose) && HasGpu(c.cluster, g)
    ensures Sound(Release(c, g), loose) && Continues(c, Release(c, g))
  {
    ReleaseKeepsStaff(c, g);
  }

  lemma FinishKeeps(c: Core, id: u64)
    requires Sound(c, {id}) && Decoding(c.inFlight[id], c.Now())
    ensures Sound(Finish(c, id), {})
  {
    var c' := Finish(c, id);
    assert c'.inFlight.Keys == c.inFlight.Keys - {id};
  }

  // ---- who keeps a GPU busy, step by step ----

  lemma StartBacked(c: Core, m: Engine, id: u64, g: GpuRef)
    requires Backed(c) && id in c.inFlight && HasGpu(c.cluster, g)
    ensures Backed(StartPrefill(c, m, id, g)) && Backed(StartDecode(c, m, id, g))
  {
    var f, p, d := c.inFlight[id], StartPrefill(c, m, id, g), StartDecode(c, m, id, g);
    BusyBacked(c, p, Event(p.inFlight[id].prefillDone.value, c.sim.nextSeq, PrefillDone(f.req.id, g)));
    BusyBacked(c, d, Event(d.inFlight[id].finish.value, c.sim.nextSeq, DecodeDone(f.req.id, g)));
  }

  lemma DispatchBacked(c: Core, m: Engine, id: u64)
    requires Backed(c)
    ensures Backed(DispatchPrefill(c, m, id)) && Backed(DispatchDecode(c, m, id))
  {
    hide StartPrefill, StartDecode, Running;
    if id in c.inFlight {
      if c.Idle(Prefill).Some? { StartBacked(c, m, id, c.Idle(Prefill).value); }
      if c.Idle(Decode).Some? { StartBacked(c, m, id, c.Idle(Decode).value); }
    }
  }

  lemma {:induction false} AssignPrefillBacked(c: Core, m: Engine)
    requires Backed(c)
    ensures Backed(AssignPrefill(c, m))
    decreases |c.prefillQueue|
  {
    if c.prefillQueue != [] && c.Idle(Prefill).Some? {
      var id, rest := c.prefillQueue[0], c.(prefillQueue := c.prefillQueue[1..]);
      assert Backed(rest);
      hide Backed;
      DispatchBacked(rest, m, id);
      AssignPrefillBacked(if id in rest.inFlight then DispatchPrefill(rest, m, id) else rest, m);
    }
  }

  lemma {:induction false} AssignDecodeBacked(c: Core, m: Engine)
    requires Backed(c)
    ensures Backed(AssignDecode(c, m))
    decreases |c.decodeQueue|
  {
    if c.decodeQueue != [] && c.Idle(Decode).Some? {
      var id, rest := c.decodeQueue[0], c.(decodeQueue := c.decodeQueue[1..]);
      assert Backed(rest);
      hide Backed;
      DispatchBacked(rest, m, id);
      AssignDecodeBacked(if id in rest.inFlight then DispatchDecode(rest, m, id) else rest, m);
    }
  }

  lemma ReleaseBacked(c: Core, g: GpuRef)
    requires Backed(c) && HasGpu(c.cluster, g)
    ensures Backed(Release(c, g))
  {
    forall h: GpuRef | HasGpu(Release(c, g).cluster, h) && c.Now() < GpuAt(Release(c, g).cluster, h).busyUntil
      ensures Running(c.sim.pending, h, GpuAt(Release(c, g).cluster, h).busyUntil)
    {
      assert h != g;
    }
  }

  lemma FinishBacked(c: Core, id: u64)
    requires Backed(c)
    ensures Backed(Finish(c, id))
  {}

  // ---- progress ----

  /** Events a request still causes once this one is handled, this one included; `arrival` is the allowance for a
      whole request: three without fetches, four with them. */
  function Weight(k: Kind, arrival: nat): nat {
    match k
    case RequestArrival(_) => arrival
    case FetchDone(_) => 3
    case PrefillDone(_, _) => 2
    case DecodeDone(_, _) => 1
  }

  ghost function TotalWeight(pending: set<Ev>, arrival: nat): nat {
    if pending == {} then 0
    else
      var e :| e in pending;
      Weight(e.kind, arrival) + TotalWeight(pending - {e}, arrival)
  }

  lemma {:induction false} WeightOf(pending: set<Ev>, e: Ev, arrival: nat)
    requires e in pending
    ensures TotalWeight(pending, arrival) == Weight(e.kind, arrival) + TotalWeight(pending - {e}, arrival)
    decreases pending
  {
    var f :| f in pending && TotalWeight(pending, arrival) == Weight(f.kind, arrival) + TotalWeight(pending - {f}, arrival);
    if f != e {
      WeightOf(pending - {f}, e, arrival);
      WeightOf(pending - {e}, f, arrival);
      assert pending - {f} - {e} == pending - {e} - {f};
    }
  }

  /** Events still to come, at most: what is left of each request's way through the machine. */
  ghost function Remaining(c: Core, arrival: nat): nat {
    TotalWeight(c.sim.pending, arrival) + 2 * |c.prefillQueue| + |c.decodeQueue|
  }

  lemma ScheduledWeight(pending: set<Ev>, e: Ev, arrival: nat)
    requires e !in pending
    ensures TotalWeight(pending + {e}, arrival) == TotalWeight(pending, arrival) + Weight(e.kind, arrival)
  {
    WeightOf(pending + {e}, e, arrival);
    assert pending + {e} - {e} == pending;
  }

  lemma LooseIsNotPending(c: Core, id: u64, e: Ev)
    requires Located(c, {id}) && e.kind.id == id
    ensures e !in c.sim.pending
  {
    assert e in c.sim.pending ==> id in EventIds(c.sim.pending);
  }

  lemma DispatchPrefillWeight(c: Core, m: Engine, id: u64, arrival: nat)
    requires Sound(c, {id})
    ensures Remaining(DispatchPrefill(c, m, id), arrival) == Remaining(c, arrival) + 2
  {
    match c.Idle(Prefill)
    case Some(g) =>
      var c' := StartPrefill(c, m, id, g);
      var e := Event(c'.inFlight[id].prefillDone.value, c.sim.nextSeq, PrefillDone(id, g));
      LooseIsNotPending(c, id, e);
      ScheduledWeight(c.sim.pending, e, arrival);
    case None =>
  }

  lemma DispatchDecodeWeight(c: Core, m: Engine, id: u64, arrival: nat)
    requires Sound(c, {id})
    ensures Remaining(DispatchDecode(c, m, id), arrival) == Remaining(c, arrival) + 1
  {
    match c.Idle(Decode)
    case Some(g) =>
      var c' := StartDecode(c, m, id, g);
      var e := Event(c'.inFlight[id].finish.value, c.sim.nextSeq, DecodeDone(id, g));
      LooseIsNotPending(c, id, e);
      ScheduledWeight(c.sim.pending, e, arrival);
    case None =>
  }

  lemma {:induction false} AssignPrefillWeight(c: Core, m: Engine, arrival: nat)
    requires Sound(c, {})
    ensures Remaining(AssignPrefill(c, m), arrival) == Remaining(c, arrival)
    decreases |c.prefillQueue|
  {
    if c.prefillQueue != [] && c.Idle(Prefill).Some? {
      var id, rest := c.prefillQueue[0], c.(prefillQueue := c.prefillQueue[1..]);
      PrefillHead(c);
      hide Located, Staged, Grounded, Continues, Active, Unstarted, TotalWeight, StartPrefill, HasGpu, Distinct;
      assert Remaining(rest, arrival) + 2 == Remaining(c, arrival);
      DispatchPrefillWeight(rest, m, id, arrival);
      StartPrefillKeeps(rest, m, id, c.Idle(Prefill).value);
      hide Remaining;
      AssignPrefillWeight(DispatchPrefill(rest, m, id), m, arrival);
    }
  }

  lemma {:induction false} AssignDecodeWeight(c: Core, m: Engine, arrival: nat)
    requires Sound(c, {})
    ensures Remaining(AssignDecode(c, m), arrival) == Remaining(c, arrival)
    decreases |c.decodeQueue|
  {
    if c.decodeQueue != [] && c.Idle(Decode).Some? {
      var id, rest := c.decodeQueue[0], c.(decodeQueue := c.decodeQueue[1..]);
      DecodeHead(c);
      hide Located, Staged, Grounded, Continues, Active, Prefilled, TotalWeight;
      DispatchDecodeWeight(rest, m, id, arrival);
      StartDecodeKeeps(rest, m, id, c.Idle(Decode).value);
      AssignDecodeWeight(DispatchDecode(rest, m, id), m, arrival);
    }
  }

  // ---- the loaded trace ----

  ghost predicate UniqueIds(rs: seq<Request>) {
    forall i, j | 0 <= i < j < |rs| :: rs[i].id != rs[j].id
  }

  /** The requests by id; a later request replaces an earlier one with the same id. */
  function Book(rs: seq<Request>): map<u64, Request> {
    if rs == [] then map[] else Book(rs[..|rs|-1])[rs[|rs|-1].id := rs[|rs|-1]]
  }

  lemma {:induction false} BookEntry(rs: seq<Request>, id: u64)
    requires id in Book(rs)
    ensures Book(rs)[id] in rs && Book(rs)[id].id == id
  {
    var n := |rs| - 1;
    if id != rs[n].id { BookEntry(rs[..n], id); }
  }

  lemma {:induction false} InBook(rs: seq<Request>, k: nat)
    requires k < |rs|
    ensures rs[k].id in Book(rs)
  {
    var n := |rs| - 1;
    if k < n { InBook(rs[..n], k); }
  }

  lemma {:induction false} BookOfUnique(rs: seq<Request>, k: nat)
    requires UniqueIds(rs) && k < |rs|
    ensures rs[k].id in Book(rs) && Book(rs)[rs[k].id] == rs[k]
  {
    var n := |rs| - 1;
    if k < n { BookOfUnique(rs[..n], k); }
  }

  lemma NewIdIsNew(rs: seq<Request>)
    requires UniqueIds(rs) && rs != []
    ensures UniqueIds(rs[..|rs|-1]) && rs[|rs|-1].id !in Book(rs[..|rs|-1])
  {
    var n := |rs| - 1;
    if rs[n].id in Book(rs[..n]) { BookEntry(rs[..n], rs[n].id); }
  }

  lemma {:induction false} BookSize(rs: seq<Request>)
    requires UniqueIds(rs)
    ensures |Book(rs)| == |rs|
  {
    if rs != [] {
      var init := rs[..|rs|-1];
      NewIdIsNew(rs);
      BookSize(init);
      assert Book(rs).Keys == Book(init).Keys + {rs[|rs|-1].id};
      assert |Book(rs)| == |Book(rs).Keys| && |Book(init)| == |Book(init).Keys|;
    }
  }

  /** Each request is in flight or has its result, never both and never twice; `book` is the whole trace. */
  ghost predicate Accounted(c: Core, book: map<u64, Request>) {
    && (forall id | id in c.inFlight :: id in book && c.inFlight[id].req == book[id])
    && (forall r | r in c.results :: r.id in book && r.Answers(book[r.id]) && r.id !in c.inFlight)
    && (forall i, j | 0 <= i < j < |c.results| :: c.results[i].id != c.results[j].id)
    && |c.results| + |c.inFlight| == |book|
  }

  lemma ContinuesAccounted(a: Core, b: Core, book: map<u64, Request>)
    requires Accounted(a, book) && SameRequests(a, b)
    ensures Accounted(b, book)
  {
    assert |a.inFlight| == |a.inFlight.Keys| && |b.inFlight| == |b.inFlight.Keys|;
  }

  lemma FinishAccounted(c: Core, id: u64, book: map<u64, Request>)
    requires Accounted(c, book)
    requires forall id | id in c.inFlight :: c.inFlight[id].req.id == id
    ensures Accounted(Finish(c, id), book)
  {
    if id in c.inFlight {
      var c' := Finish(c, id);
      assert c'.inFlight.Keys == c.inFlight.Keys - {id};
      assert |c'.inFlight| == |c'.inFlight.Keys| && |c.inFlight| == |c.inFlight.Keys|;
    }
  }

  ghost predicate HasRequest(rs: seq<Request>, o: RequestResult) {
    exists r :: r in rs && o.Answers(r)
  }

  ghost predicate HasResult(results: seq<RequestResult>, r: Request) {
    exists o :: o in results && o.Answers(r)
  }

  /** Results and requests correspond one to one. */
  ghost predicate OneResultEach(results: seq<RequestResult>, rs: seq<Request>) {
    && |results| == |rs|
    && (forall i, j | 0 <= i < j < |results| :: results[i].id != results[j].id)
    && (forall o | o in results :: HasRequest(rs, o))
    && (forall r | r in rs :: HasResult(results, r))
  }

  function ResultIds(results: seq<RequestResult>): set<u64> {
    set o | o in results :: o.id
  }

  lemma {:induction false} ResultIdCount(results: seq<RequestResult>)
    requires forall i, j | 0 <= i < j < |results| :: results[i].id != results[j].id
    ensures |ResultIds(results)| == |results|
  {
    if results != [] {
      var n := |results| - 1;
      ResultIdCount(results[..n]);
      assert ResultIds(results) == ResultIds(results[..n]) + {results[n].id} by {
        assert results == results[..n] + [results[n]];
        assert forall o | o in results[..n] :: o in results;
        assert results[n] in results;
      }
      assert results[n].id !in ResultIds(results[..n]);
    }
  }

  lemma SubsetOfSameSize(a: set<u64>, b: set<u64>)
    requires a <= b && |a| == |b|
    ensures a == b
  {
    assert |b - a| == |b| - |a|;
  }

  lemma AllIdsHaveResults(c: Core, book: map<u64, Request>)
    requires Accounted(c, book) && c.inFlight == map[]
    ensures ResultIds(c.results) == book.Keys && |c.results| == |book|
  {
    ResultIdCount(c.results);
    assert |book.Keys| == |book|;
    SubsetOfSameSize(ResultIds(c.results), book.Keys);
  }

  lemma ResultHasRequest(c: Core, rs: seq<Request>, o: RequestResult)
    requires Accounted(c, Book(rs)) && o in c.results
    ensures HasRequest(rs, o)
  {
    BookEntry(rs, o.id);
  }

  lemma RequestHasResult(c: Core, rs: seq<Request>, r: Request)
    requires UniqueIds(rs) && Accounted(c, Book(rs)) && ResultIds(c.results) == Book(rs).Keys && r in rs
    ensures HasResult(c.results, r)
  {
    var k :| 0 <= k < |rs| && rs[k] == r;
    BookOfUnique(rs, k);
    assert r.id in ResultIds(c.results);
    var o :| o in c.results && o.id == r.id;
    assert o.Answers(Book(rs)[o.id]);
  }

  lemma AllAccounted(c: Core, rs: seq<Request>)
    requires UniqueIds(rs) && Accounted(c, Book(rs)) && c.inFlight == map[]
    ensures OneResultEach(c.results, rs)
  {
    BookSize(rs);
    AllIdsHaveResults(c, Book(rs));
    hide Book, UniqueIds, HasRequest, HasResult;
    forall o | o in c.results ensures HasRequest(rs, o) {
      ResultHasRequest(c, rs, o);
    }
    forall r | r in rs ensures HasResult(c.results, r) {
      RequestHasResult(c, rs, r);
    }
  }

  lemma {:induction false} LoadedQuiet(t: Topology, rs: seq<Request>)
    ensures var c := Loaded(t, rs);
            && c.cluster == t && c.Now() == 0 && c.prefillQueue == [] && c.decodeQueue == [] && c.results == []
            && c.sim.nextSeq <= |rs|
  {
    if rs != [] { LoadedQuiet(t, rs[..|rs|-1]); }
  }

  lemma {:induction false} LoadedEvents(t: Topology, rs: seq<Request>, e: Ev)
    requires e in Loaded(t, rs).sim.pending
    ensures e.kind.RequestArrival? && exists r | r in rs :: e.time == r.arrival && e.kind.id == r.id
  {
    if rs != [] {
      var n := |rs| - 1;
      if e in Loaded(t, rs[..n]).sim.pending {
        LoadedEvents(t, rs[..n], e);
        var r :| r in rs[..n] && e.time == r.arrival && e.kind.id == r.id;
        assert r in rs;
      } else {
        assert rs[n] in rs;
      }
    }
  }

  lemma {:induction false} LoadedInFlight(t: Topology, rs: seq<Request>)
    ensures Loaded(t, rs).inFlight.Keys == Book(rs).Keys
    ensures forall id | id in Loaded(t, rs).inFlight :: Loaded(t, rs).inFlight[id] == NewInFlight(Book(rs)[id])
  {
    if rs != [] { LoadedInFlight(t, rs[..|rs|-1]); }
  }

  ghost predicate ReleasedBy(t: Topology, rs: seq<Request>) {
    forall g: GpuRef, r | HasGpu(t, g) && r in rs :: GpuAt(t, g).busyUntil <= r.arrival
  }

  lemma AdmitLocated(c: Core, r: Request)
    requires Located(c, {}) && r.id !in c.inFlight
    ensures Located(Admit(c, r), {})
  {
    var e := Event(r.arrival, c.sim.nextSeq, RequestArrival(r.id));
    var mid := c.(inFlight := Admit(c, r).inFlight);
    assert mid.inFlight.Keys == c.inFlight.Keys + {r.id};
    ScheduledLocated(mid, Admit(c, r), e);
  }

  lemma {:induction false} LoadedLocated(t: Topology, rs: seq<Request>)
    requires UniqueIds(rs)
    ensures Located(Loaded(t, rs), {})
  {
    if rs != [] {
      var n := |rs| - 1;
      NewIdIsNew(rs);
      LoadedLocated(t, rs[..n]);
      LoadedInFlight(t, rs[..n]);
      AdmitLocated(Loaded(t, rs[..n]), rs[n]);
    }
  }

  lemma LoadedEntry(t: Topology, rs: seq<Request>, k: nat)
    requires UniqueIds(rs) && k < |rs|
    ensures rs[k].id in Loaded(t, rs).inFlight && Loaded(t, rs).inFlight[rs[k].id] == NewInFlight(rs[k])
  {
    LoadedInFlight(t, rs);
    BookOfUnique(rs, k);
  }

  lemma LoadedStaged(t: Topology, rs: seq<Request>)
    requires UniqueIds(rs)
    ensures Staged(Loaded(t, rs))
  {
    var c := Loaded(t, rs);
    LoadedQuiet(t, rs);
    forall e | e in c.sim.pending
      ensures e.kind.id in c.inFlight && StageOf(c.inFlight[e.kind.id], e, c.Now())
    {
      LoadedEvents(t, rs, e);
      var r :| r in rs && e.time == r.arrival && e.kind.id == r.id;
      var k :| 0 <= k < |rs| && rs[k] == r;
      LoadedEntry(t, rs, k);
    }
  }

  lemma AdmitRemaining(c: Core, r: Request, arrival: nat)
    requires Located(c, {}) && r.id !in c.inFlight
    ensures Remaining(Admit(c, r), arrival) == Remaining(c, arrival) + arrival
  {
    var e := Event(r.arrival, c.sim.nextSeq, RequestArrival(r.id));
    assert e in c.sim.pending ==> r.id in EventIds(c.sim.pending);
    ScheduledWeight(c.sim.pending, e, arrival);
  }

  lemma OneMore(a: nat, n: nat)
    ensures a * (n + 1) == a * n + a
  {}

  lemma {:induction false} LoadedRemaining(t: Topology, rs: seq<Request>, arrival: nat)
    requires UniqueIds(rs)
    ensures Remaining(Loaded(t, rs), arrival) == arrival * |rs|
  {
    if rs != [] {
      var n := |rs| - 1;
      NewIdIsNew(rs);
      LoadedRemaining(t, rs[..n], arrival);
      LoadedLocated(t, rs[..n]);
      LoadedInFlight(t, rs[..n]);
      AdmitRemaining(Loaded(t, rs[..n]), rs[n], arrival);
      OneMore(arrival, n);
    }
  }

  lemma LoadedUntouched(t: Topology, rs: seq<Request>)
    requires Distinct(t) && ReleasedBy(t, rs)
    ensures Untouched(Loaded(t, rs))
  {
    LoadedQuiet(t, rs);
    var c := Loaded(t, rs);
    forall e | e in c.sim.pending
      ensures !e.kind.Completes()
      ensures forall g: GpuRef | HasGpu(c.cluster, g) :: GpuAt(c.cluster, g).busyUntil <= e.time
    {
      LoadedEvents(t, rs, e);
    }
  }

  lemma LoadedAccounted(t: Topology, rs: seq<Request>)
    ensures Accounted(Loaded(t, rs), Book(rs))
  {
    LoadedQuiet(t, rs);
    LoadedInFlight(t, rs);
    var c := Loaded(t, rs);
    assert |c.inFlight| == |c.inFlight.Keys| && |Book(rs)| == |Book(rs).Keys|;
  }
}
