/** What the event-driven runner computes (src/serving/scheduler.rs): with one role per GPU, on every trace whose
    schedule has no harmful ties, it follows the two-stage closed form timestamp by timestamp. */
module Refinement {
  import opened Numbers
  import opened Simulation
  import opened Cluster
  import opened Requests
  import NR = NoReuse
  import opened Machine
  import opened Lifecycle
  import opened Traces
  import opened EventDriven
  import opened TieFree
  import opened Fcfs
  import opened TwoStage

  // ---- what the two sides have in common at each moment ----

  ghost predicate Known(rs: seq<Request>, id: u64) {
    exists i :: 0 <= i < |rs| && rs[i].id == id
  }

  /** Of request `i`, in flight: its prefill fields if it is among the first `p`, its decode fields if it is among the
      first `s` of the line. */
  ghost predicate Agrees(x: Plan, f: InFlight, i: nat, p: nat, s: nat)
    requires x.Fits() && i < |x.rs|
  {
    var o, d := x.Front(i), x.At(i);
    && f.req == x.rs[i] && f.prefillTokens == 0
    && f.prefillStart == (if i < p then Some(o.prefillStart) else None)
    && f.prefillDone == (if i < p then Some(o.prefillDone) else None)
    && f.decodeStart == (if x.place[i] < s then Some(d.decodeStart) else None)
    && f.firstToken == (if x.place[i] < s then Some(d.firstToken) else None)
    && f.finish == (if x.place[i] < s then Some(d.finish) else None)
  }

  /** The first `p` prefills and the first `s` decodes of the line have the planned timestamps; finished requests have
      the planned result. */
  ghost predicate Values(x: Plan, c: Core, p: nat, s: nat)
    requires x.Fits()
  {
    && p <= |x.rs| && s <= |x.rs| && x.Covers(p, s)
    && (forall id | id in c.inFlight :: Known(x.rs, id))
    && (forall i | 0 <= i < |x.rs| && x.rs[i].id in c.inFlight :: Agrees(x, c.inFlight[x.rs[i].id], i, p, s))
    && (forall i | 0 <= i < |x.rs| && s <= x.place[i] :: x.rs[i].id in c.inFlight)
    && (forall i | 0 <= i < |x.rs| && x.rs[i].id !in c.inFlight :: x.At(i) in c.results)
  }

  lemma CleanFits(x: Plan)
    requires x.Clean()
    ensures x.Fits() && x.w.Valid() && x.Valid() && x.NoTies() && Trace(x.rs) && UniqueIds(x.rs)
  {
    hide Plan.NoTies;
  }

  lemma LinePlace(x: Plan, i: nat)
    requires x.Fits() && i < |x.rs|
    ensures |x.line| == |x.place| == |x.rs| && x.place[i] < |x.rs| && x.line[x.place[i]] == i
    ensures x.line[i] < |x.rs| && x.place[x.line[i]] == i
  {}

  ghost predicate SameCounts(t: Topology, role: Role, ws: seq<u64>) {
    forall limit: nat :: FreeBy(t, role, limit) == NR.FreeBy(ws, limit)
  }

  /** The GPUs are released when the plan's workers are. */
  ghost predicate Counts(x: Plan, t: Topology, p: nat, s: nat)
    requires x.Fits() && p <= |x.rs| && s <= |x.rs|
  {
    SameCounts(t, Prefill, x.Fore(p)) && SameCounts(t, Decode, x.Pool(s))
  }

  /** All GPUs serving the role stay busy until `now` at least. */
  ghost predicate NoneEarlier(c: Core, role: Role) {
    forall g: GpuRef | HasGpu(c.cluster, g) && Serves(GpuAt(c.cluster, g), role) :: c.Now() <= GpuAt(c.cluster, g).busyUntil
  }

  /** The idle GPU found and the worker the plan would claim are released at the same time. */
  lemma FoundIsFirst(c: Core, role: Role, ws: seq<u64>)
    requires Distinct(c.cluster) && SameCounts(c.cluster, role, ws) && ws != [] && c.Idle(role).Some?
    ensures NR.FreeAt(ws) == GpuAt(c.cluster, c.Idle(role).value).busyUntil
  {
    var g := c.Idle(role).value;
    var b := GpuAt(c.cluster, g).busyUntil;
    FreeByPositive(c.cluster, g, role, b);
    assert FreeBy(c.cluster, role, b) == NR.FreeBy(ws, b);
    NR.FreeAtIsFirst(ws, b);
    if b > 0 {
      forall h: GpuRef | HasGpu(c.cluster, h) && Serves(GpuAt(c.cluster, h), role)
        ensures b <= GpuAt(c.cluster, h).busyUntil
      {
        if GpuAt(c.cluster, h).busyUntil < b { assert IdleFor(GpuAt(c.cluster, h), c.Now(), role); }
      }
      FirstNotBefore(c.cluster, role, ws, b);
    }
  }

  /** When no GPU serving the role is released before `t`, neither is the first worker. */
  lemma FirstNotBefore(t: Topology, role: Role, ws: seq<u64>, from: nat)
    requires Distinct(t) && SameCounts(t, role, ws) && ws != []
    requires forall h: GpuRef | HasGpu(t, h) && Serves(GpuAt(t, h), role) :: from <= GpuAt(t, h).busyUntil
    ensures from <= NR.FreeAt(ws)
  {
    if from > 0 {
      FreeByZero(t, role, from - 1);
      assert FreeBy(t, role, from - 1) == NR.FreeBy(ws, from - 1);
      NR.FreeAtIsFirst(ws, from - 1);
    }
  }

  /** Claiming a worker on both sides keeps the counts equal; the other role is not touched. */
  lemma ClaimKeepsCounts(t: Topology, g: GpuRef, until: u64, role: Role, ws: seq<u64>)
    requires HasGpu(t, g) && SameCounts(t, role, ws) && ws != []
    requires Serves(GpuAt(t, g), role) && NR.FreeAt(ws) == GpuAt(t, g).busyUntil
    ensures SameCounts(SetBusy(t, g, until), role, NR.Claim(ws, until))
  {
    forall limit: nat ensures FreeBy(SetBusy(t, g, until), role, limit) == NR.FreeBy(NR.Claim(ws, until), limit) {
      FreeBySetBusy(t, g, until, role, limit);
      NR.ClaimCount(ws, until, limit);
      assert FreeBy(t, role, limit) == NR.FreeBy(ws, limit);
    }
  }

  lemma OtherRoleKeepsCounts(t: Topology, g: GpuRef, until: u64, role: Role, ws: seq<u64>)
    requires HasGpu(t, g) && SameCounts(t, role, ws)
    requires !Serves(GpuAt(t, g), role) || GpuAt(t, g).busyUntil == until
    ensures SameCounts(SetBusy(t, g, until), role, ws)
  {
    forall limit: nat ensures FreeBy(SetBusy(t, g, until), role, limit) == NR.FreeBy(ws, limit) {
      FreeBySetBusy(t, g, until, role, limit);
      assert FreeBy(t, role, limit) == NR.FreeBy(ws, limit);
    }
  }

  // ---- one start ----

  /** Only the entry of `id` changes. */
  ghost predicate OnlyEntry(c: Core, c': Core, id: u64) {
    && c'.inFlight.Keys == c.inFlight.Keys && c'.results == c.results
    && forall k | k in c.inFlight && k != id :: c'.inFlight[k] == c.inFlight[k]
  }

  /** Overwriting the entry of request `k` so that it agrees with the next stage advances all entries. */
  lemma EntryAdvances(x: Plan, c: Core, c': Core, p: nat, s: nat, p': nat, s': nat, k: nat)
    requires x.Fits() && UniqueIds(x.rs) && Values(x, c, p, s) && k < |x.rs|
    requires (p' == p + 1 && s' == s && k == p) || (p' == p && s' == s + 1 && s < |x.rs| && k == x.line[s])
    requires p' <= |x.rs| && s' <= |x.rs| && x.Covers(p', s')
    requires OnlyEntry(c, c', x.rs[k].id)
    requires x.rs[k].id in c'.inFlight && Agrees(x, c'.inFlight[x.rs[k].id], k, p', s')
    ensures Values(x, c', p', s')
  {
    hide Plan.Front, Plan.Back, Plan.At, Known;
    forall i | 0 <= i < |x.rs| && x.rs[i].id in c'.inFlight
      ensures Agrees(x, c'.inFlight[x.rs[i].id], i, p', s')
    {
      if i != k {
        assert x.rs[i].id != x.rs[k].id;
        assert Agrees(x, c.inFlight[x.rs[i].id], i, p, s);
        assert x.place[i] == s ==> x.line[s] == i;
      }
    }
  }

  lemma StartTouchesOne(c: Core, m: Engine, id: u64, g: GpuRef)
    requires id in c.inFlight && HasGpu(c.cluster, g)
    ensures OnlyEntry(c, StartPrefill(c, m, id, g), id) && OnlyEntry(c, StartDecode(c, m, id, g), id)
  {
    hide SetBusy, HasGpu;
  }

  /** What a start writes. */
  lemma PrefillStamps(c: Core, m: Engine, id: u64, g: GpuRef)
    requires id in c.inFlight && HasGpu(c.cluster, g)
    ensures var f, c' := c.inFlight[id], StartPrefill(c, m, id, g);
            var done := SatAdd(c.Now(), m.prefillTime(f.EffectiveTokens()));
            && id in c'.inFlight
            && c'.inFlight[id] == f.(prefillStart := Some(c.Now()), prefillDone := Some(done), prefillGpu := Some(g))
            && c'.cluster == SetBusy(c.cluster, g, done)
            && c'.sim == Scheduled(c.sim, done, PrefillDone(f.req.id, g))
  {
    hide SetBusy, HasGpu, SatAdd, InFlight.EffectiveTokens;
  }

  lemma DecodeStamps(c: Core, m: Engine, id: u64, g: GpuRef)
    requires id in c.inFlight && HasGpu(c.cluster, g)
    ensures var f, c' := c.inFlight[id], StartDecode(c, m, id, g);
            var step := m.StepFor(f.req.promptTokens);
            var finish := SatAdd(c.Now(), SatMul(step, f.req.outputTokens));
            && id in c'.inFlight
            && c'.inFlight[id] == f.(decodeStart := Some(c.Now()), firstToken := Some(SatAdd(c.Now(), step)),
                                     finish := Some(finish), decodeGpu := Some(g))
            && c'.cluster == SetBusy(c.cluster, g, finish)
            && c'.sim == Scheduled(c.sim, finish, DecodeDone(f.req.id, g))
  {
    hide SetBusy, HasGpu, SatAdd, SatMul;
  }

  lemma ValuesAgree(x: Plan, c: Core, p: nat, s: nat, i: nat)
    requires x.Fits() && Values(x, c, p, s) && i < |x.rs| && s <= x.place[i]
    ensures x.rs[i].id in c.inFlight && Agrees(x, c.inFlight[x.rs[i].id], i, p, s)
  {
    hide Agrees, Plan.At, Known;
  }

  /** A request that has not started its prefill does not precede in the line. */
  lemma BehindInLine(x: Plan, p: nat, s: nat, i: nat)
    requires x.Fits() && s <= |x.rs| && x.Covers(p, s) && p <= i < |x.rs|
    ensures s <= x.place[i]
  {
    assert x.line[x.place[i]] == i;
  }

  lemma WholePrompt(f: InFlight)
    requires f.prefillTokens == 0
    ensures f.EffectiveTokens() == f.req.promptTokens
  {}

  lemma StartPrefillPlanned(x: Plan, c: Core, p: nat, s: nat, g: GpuRef)
    requires x.Fits() && Values(x, c, p, s) && p < |x.rs| && HasGpu(c.cluster, g)
    requires x.Front(p).prefillStart == c.Now()
    ensures x.rs[p].id in c.inFlight
    ensures var id, c' := x.rs[p].id, StartPrefill(c, x.m, x.rs[p].id, g);
            && id in c'.inFlight && Agrees(x, c'.inFlight[id], p, p + 1, s)
            && c'.cluster == SetBusy(c.cluster, g, x.Front(p).prefillDone)
            && c'.sim == Scheduled(c.sim, x.Front(p).prefillDone, PrefillDone(id, g))
  {
    hide Plan.Front, Plan.At, StartPrefill, SetBusy, HasGpu, InFlight.EffectiveTokens, Known, SatAdd;
    BehindInLine(x, p, s, p);
    ValuesAgree(x, c, p, s, p);
    hide Values;
    PrefillStamps(c, x.m, x.rs[p].id, g);
    WholePrompt(c.inFlight[x.rs[p].id]);
    ForeNext(x, p);
  }

  lemma StartDecodePlanned(x: Plan, c: Core, p: nat, s: nat, g: GpuRef)
    requires x.Fits() && Values(x, c, p, s) && s < |x.rs| && HasGpu(c.cluster, g)
    requires x.Back(s).decodeStart == c.Now()
    ensures x.rs[x.line[s]].id in c.inFlight
    ensures var id, c' := x.rs[x.line[s]].id, StartDecode(c, x.m, x.rs[x.line[s]].id, g);
            && id in c'.inFlight && Agrees(x, c'.inFlight[id], x.line[s], p, s + 1)
            && c'.cluster == SetBusy(c.cluster, g, x.Back(s).finish)
            && c'.sim == Scheduled(c.sim, x.Back(s).finish, DecodeDone(id, g))
  {
    assert x.At(x.line[s]) == x.Back(s);
    hide Plan.Front, Plan.At, Plan.Back, StartDecode, SetBusy, HasGpu, Known, SatAdd, SatMul;
    ValuesAgree(x, c, p, s, x.line[s]);
    hide Values;
    DecodeStamps(c, x.m, x.rs[x.line[s]].id, g);
    PoolNext(x, s);
  }

  /** The state with `p` prefills and `s` decodes started, as planned, on GPUs serving one role each. */
  ghost predicate OnPlan(x: Plan, c: Core, p: nat, s: nat)
    requires x.Fits()
  {
    Values(x, c, p, s) && Counts(x, c.cluster, p, s) && Roles(c) && Distinct(c.cluster)
  }

  lemma ValuesBounds(x: Plan, c: Core, p: nat, s: nat)
    requires x.Fits() && Values(x, c, p, s)
    ensures x.w.Valid() && p <= |x.rs| && s <= |x.rs| && x.Covers(p, s)
  {
    hide Known, Agrees;
  }

  lemma ValidUnique(x: Plan)
    requires x.Valid()
    ensures x.Fits() && UniqueIds(x.rs)
  {
    hide Plan.Front, Plan.Fits, UniqueIds;
  }

  lemma MoreCovered(x: Plan, p: nat, p': nat, q: nat)
    requires x.Fits() && q <= |x.rs| && x.Covers(p, q) && p <= p'
    ensures x.Covers(p', q)
  {}

  lemma OneMoreCovered(x: Plan, p: nat, q: nat)
    requires x.Fits() && q < |x.rs| && x.Covers(p, q) && x.line[q] < p
    ensures x.Covers(p, q + 1)
  {}

  lemma StartPrefillValues(x: Plan, c: Core, p: nat, s: nat, g: GpuRef)
    requires x.Valid() && Values(x, c, p, s) && p < |x.rs| && HasGpu(c.cluster, g)
    requires x.Front(p).prefillStart == c.Now()
    ensures x.rs[p].id in c.inFlight && Values(x, StartPrefill(c, x.m, x.rs[p].id, g), p + 1, s)
  {
    hide Plan.Valid, Plan.Fits, Plan.Front, Plan.At, Plan.Covers, Agrees, Values, StartPrefill, OnlyEntry, SetBusy,
      HasGpu, UniqueIds;
    ValidUnique(x);
    ValuesBounds(x, c, p, s);
    MoreCovered(x, p, p + 1, s);
    StartPrefillPlanned(x, c, p, s, g);
    StartTouchesOne(c, x.m, x.rs[p].id, g);
    EntryAdvances(x, c, StartPrefill(c, x.m, x.rs[p].id, g), p, s, p + 1, s, p);
  }

  lemma StartDecodeValues(x: Plan, c: Core, p: nat, s: nat, g: GpuRef)
    requires x.Valid() && Values(x, c, p, s) && s < |x.rs| && x.line[s] < p && HasGpu(c.cluster, g)
    requires x.Back(s).decodeStart == c.Now()
    ensures x.rs[x.line[s]].id in c.inFlight && Values(x, StartDecode(c, x.m, x.rs[x.line[s]].id, g), p, s + 1)
  {
    hide Plan.Valid, Plan.Fits, Plan.Front, Plan.Back, Plan.At, Plan.Covers, Agrees, Values, StartDecode, OnlyEntry,
      SetBusy, HasGpu, UniqueIds;
    ValidUnique(x);
    LinePlace(x, s);
    ValuesBounds(x, c, p, s);
    OneMoreCovered(x, p, s);
    StartDecodePlanned(x, c, p, s, g);
    StartTouchesOne(c, x.m, x.rs[x.line[s]].id, g);
    EntryAdvances(x, c, StartDecode(c, x.m, x.rs[x.line[s]].id, g), p, s, p, s + 1, x.line[s]);
  }

  lemma StartPrefillCounts(x: Plan, c: Core, p: nat, s: nat)
    requires x.Fits() && s <= |x.rs| && p <= |x.rs| && Counts(x, c.cluster, p, s) && Distinct(c.cluster)
             && Disaggregated(c.cluster)
    requires p < |x.rs| && c.Idle(Prefill).Some?
    ensures NR.FreeAt(x.Fore(p)) == GpuAt(c.cluster, c.Idle(Prefill).value).busyUntil
    ensures Counts(x, SetBusy(c.cluster, c.Idle(Prefill).value, x.Front(p).prefillDone), p + 1, s)
  {
    var g := c.Idle(Prefill).value;
    hide Plan.Front, Plan.Fore, Plan.Pool, SameCounts;
    FoundIsFirst(c, Prefill, x.Fore(p));
    ClaimKeepsCounts(c.cluster, g, x.Front(p).prefillDone, Prefill, x.Fore(p));
    OtherRoleKeepsCounts(c.cluster, g, x.Front(p).prefillDone, Decode, x.Pool(s));
    ForeNext(x, p);
  }

  lemma StartDecodeCounts(x: Plan, c: Core, p: nat, s: nat)
    requires x.Fits() && s <= |x.rs| && p <= |x.rs| && Counts(x, c.cluster, p, s) && Distinct(c.cluster)
             && Disaggregated(c.cluster)
    requires s < |x.rs| && c.Idle(Decode).Some?
    ensures NR.FreeAt(x.Pool(s)) == GpuAt(c.cluster, c.Idle(Decode).value).busyUntil
    ensures Counts(x, SetBusy(c.cluster, c.Idle(Decode).value, x.Back(s).finish), p, s + 1)
  {
    var g := c.Idle(Decode).value;
    hide Plan.Front, Plan.Back, Plan.Fore, Plan.Pool, SameCounts;
    FoundIsFirst(c, Decode, x.Pool(s));
    ClaimKeepsCounts(c.cluster, g, x.Back(s).finish, Decode, x.Pool(s));
    OtherRoleKeepsCounts(c.cluster, g, x.Back(s).finish, Prefill, x.Fore(p));
    PoolNext(x, s);
  }

  lemma StartPrefillOnPlan(x: Plan, c: Core, p: nat, s: nat)
    requires x.Valid() && OnPlan(x, c, p, s) && p < |x.rs| && c.Idle(Prefill).Some?
    requires x.Front(p).prefillStart == c.Now()
    ensures x.rs[p].id in c.inFlight
    ensures OnPlan(x, StartPrefill(c, x.m, x.rs[p].id, c.Idle(Prefill).value), p + 1, s)
    ensures StartPrefill(c, x.m, x.rs[p].id, c.Idle(Prefill).value).cluster
            == SetBusy(c.cluster, c.Idle(Prefill).value, x.Front(p).prefillDone)
    ensures StartPrefill(c, x.m, x.rs[p].id, c.Idle(Prefill).value).sim
            == Scheduled(c.sim, x.Front(p).prefillDone, PrefillDone(x.rs[p].id, c.Idle(Prefill).value))
  {
    var g := c.Idle(Prefill).value;
    assert s <= |x.rs|;
    hide Plan.Front, Plan.At, Agrees, Values, Counts, Trace, StartPrefill;
    StartPrefillPlanned(x, c, p, s, g);
    StartPrefillValues(x, c, p, s, g);
    StartPrefillCounts(x, c, p, s);
    StartPrefillRoles(c, x.m, x.rs[p].id, g);
  }

  lemma StartDecodeOnPlan(x: Plan, c: Core, p: nat, s: nat)
    requires x.Valid() && OnPlan(x, c, p, s) && s < |x.rs| && x.line[s] < p && c.Idle(Decode).Some?
    requires x.Back(s).decodeStart == c.Now()
    ensures x.rs[x.line[s]].id in c.inFlight
    ensures OnPlan(x, StartDecode(c, x.m, x.rs[x.line[s]].id, c.Idle(Decode).value), p, s + 1)
    ensures StartDecode(c, x.m, x.rs[x.line[s]].id, c.Idle(Decode).value).cluster
            == SetBusy(c.cluster, c.Idle(Decode).value, x.Back(s).finish)
    ensures StartDecode(c, x.m, x.rs[x.line[s]].id, c.Idle(Decode).value).sim
            == Scheduled(c.sim, x.Back(s).finish, DecodeDone(x.rs[x.line[s]].id, c.Idle(Decode).value))
  {
    var g := c.Idle(Decode).value;
    assert p <= |x.rs|;
    hide Plan.Front, Plan.At, Plan.Back, Agrees, Values, Counts, Trace, StartDecode;
    StartDecodePlanned(x, c, p, s, g);
    StartDecodeValues(x, c, p, s, g);
    StartDecodeCounts(x, c, p, s);
    StartDecodeRoles(c, x.m, x.rs[x.line[s]].id, g);
  }

  // ---- draining a queue ----

  /** No GPU is released earlier than before. */
  ghost predicate KeepsBusy(c: Core, c': Core) {
    (NoneEarlier(c, Prefill) ==> NoneEarlier(c', Prefill)) && (NoneEarlier(c, Decode) ==> NoneEarlier(c', Decode))
  }

  lemma BusyStays(c: Core, c': Core, g: GpuRef, until: u64, kind: Kind)
    requires HasGpu(c.cluster, g) && Strict(c) && c.Now() < until
    requires c'.sim == Scheduled(c.sim, until, kind) && c'.cluster == SetBusy(c.cluster, g, until)
    ensures Strict(c') && KeepsBusy(c, c')
  {}

  lemma StartPrefillStays(x: Plan, c: Core, p: nat, s: nat)
    requires x.Valid() && OnPlan(x, c, p, s) && p < |x.rs| && c.Idle(Prefill).Some?
    requires Strict(c) && x.Front(p).prefillStart == c.Now() && x.Front(p).prefillDone != c.Now()
    ensures x.rs[p].id in c.inFlight
    ensures var c' := StartPrefill(c, x.m, x.rs[p].id, c.Idle(Prefill).value);
            && Strict(c') && KeepsBusy(c, c')
  {
    assert Distinct(c.cluster);
    hide Plan.Front, Plan.At, OnPlan, Trace, StartPrefill, Strict, NoneEarlier, KeepsBusy, HasGpu, GpuAt;
    var g := c.Idle(Prefill).value;
    StartPrefillOnPlan(x, c, p, s);
    ForeNext(x, p);
    BusyStays(c, StartPrefill(c, x.m, x.rs[p].id, g), g, x.Front(p).prefillDone, PrefillDone(x.rs[p].id, g));
  }

  lemma StartDecodeStays(x: Plan, c: Core, p: nat, s: nat)
    requires x.Valid() && OnPlan(x, c, p, s) && s < |x.rs| && x.line[s] < p && c.Idle(Decode).Some?
    requires Strict(c) && x.Back(s).decodeStart == c.Now() && x.Back(s).finish != c.Now()
    ensures x.rs[x.line[s]].id in c.inFlight
    ensures var c' := StartDecode(c, x.m, x.rs[x.line[s]].id, c.Idle(Decode).value);
            && Strict(c') && KeepsBusy(c, c')
  {
    assert Distinct(c.cluster);
    hide Plan.Front, Plan.Back, Plan.At, OnPlan, Trace, StartDecode, Strict, NoneEarlier, KeepsBusy, HasGpu, GpuAt;
    var g, id := c.Idle(Decode).value, x.rs[x.line[s]].id;
    StartDecodeOnPlan(x, c, p, s);
    PoolNext(x, s);
    BusyStays(c, StartDecode(c, x.m, id, g), g, x.Back(s).finish, DecodeDone(id, g));
  }

  /** The head of the queue starts exactly now, as planned, when the GPU found is released exactly now. */
  lemma HeadPrefillIsDue(x: Plan, c: Core, p: nat, s: nat)
    requires x.Fits() && OnPlan(x, c, p, s) && p < |x.rs| && c.Idle(Prefill).Some?
    requires NoneEarlier(c, Prefill) && x.rs[p].arrival <= c.Now()
    ensures x.Front(p).prefillStart == c.Now()
  {
    hide Plan.Fits, Plan.Front, Plan.Back, Plan.At, Plan.Fore, Plan.Pool, Values, Counts, SetBusy;
    ValuesBounds(x, c, p, s);
    StartPrefillCounts(x, c, p, s);
    ForeNext(x, p);
  }

  lemma HeadDecodeIsDue(x: Plan, c: Core, p: nat, s: nat)
    requires x.Fits() && OnPlan(x, c, p, s) && s < |x.rs| && c.Idle(Decode).Some?
    requires NoneEarlier(c, Decode) && x.Front(x.line[s]).prefillDone <= c.Now()
    ensures x.Back(s).decodeStart == c.Now()
  {
    hide Plan.Fits, Plan.Front, Plan.Back, Plan.At, Plan.Fore, Plan.Pool, Values, Counts, SetBusy;
    ValuesBounds(x, c, p, s);
    StartDecodeCounts(x, c, p, s);
    PoolNext(x, s);
  }

  /** Shortening the queues changes nothing else. */
  lemma QueuesDoNotMatter(x: Plan, c: Core, p: nat, s: nat, pq: seq<u64>, dq: seq<u64>)
    requires x.Fits() && OnPlan(x, c, p, s)
    ensures var c' := c.(prefillQueue := pq, decodeQueue := dq);
            OnPlan(x, c', p, s) && (Strict(c) ==> Strict(c')) && KeepsBusy(c, c')
  {
    hide Plan.Front, Plan.At, Agrees, Counts, Distinct, Known;
  }

  /** The situation in which the prefill queue is drained: requests `p` to `a` are queued, and only GPUs released at
      this very moment can take them. */
  ghost predicate PrefillLoop(x: Plan, c: Core, p: nat, a: nat, s: nat)
    requires x.Fits()
  {
    && x.Valid() && OnPlan(x, c, p, s) && Strict(c)
    && p <= a <= |x.rs| && c.prefillQueue == Ids(x.rs, p, a)
    && (c.prefillQueue != [] ==> NoneEarlier(c, Prefill)) && (c.decodeQueue != [] ==> NoneEarlier(c, Decode))
    && (forall i | 0 <= i < a :: x.rs[i].arrival <= c.Now())
    && (forall i | p <= i < |x.rs| :: x.Front(i).prefillDone != c.Now())
  }

  lemma PrefillLoopHead(x: Plan, c: Core, p: nat, a: nat, s: nat)
    requires x.Fits() && PrefillLoop(x, c, p, a, s) && c.prefillQueue != []
    ensures x.Valid() && p < a <= |x.rs| && c.prefillQueue[0] == x.rs[p].id && Distinct(c.cluster)
    ensures OnPlan(x, c, p, s) && Strict(c) && NoneEarlier(c, Prefill)
    ensures x.rs[p].arrival <= c.Now() && x.Front(p).prefillDone != c.Now()
  {
    hide Plan.Valid, Plan.Fits, Plan.Front, Strict, Values, Counts, Roles, NoneEarlier;
  }

  lemma PrefillLoopAgain(x: Plan, c: Core, p: nat, a: nat, s: nat, c': Core)
    requires x.Fits() && PrefillLoop(x, c, p, a, s) && c.prefillQueue != []
    requires OnPlan(x, c', p + 1, s) && Strict(c') && c'.Now() == c.Now() && KeepsBusy(c, c')
    requires c'.prefillQueue == c.prefillQueue[1..] && c'.decodeQueue == c.decodeQueue
    ensures PrefillLoop(x, c', p + 1, a, s)
  {
    hide Plan.Valid, Plan.Fits, Plan.Front, Strict, OnPlan, NoneEarlier;
    IdsHead(x.rs, p, a);
  }

  lemma PrefillLoopTurn(x: Plan, c: Core, p: nat, a: nat, s: nat)
    requires x.Fits() && PrefillLoop(x, c, p, a, s) && Distinct(c.cluster)
    requires c.prefillQueue != [] && c.Idle(Prefill).Some?
    ensures var rest := c.(prefillQueue := c.prefillQueue[1..]);
            && c.prefillQueue[0] in rest.inFlight
            && PrefillLoop(x, StartPrefill(rest, x.m, c.prefillQueue[0], c.Idle(Prefill).value), p + 1, a, s)
  {
    hide PrefillLoop, Plan.Valid, Plan.Fits, Plan.Front, Strict, OnPlan, NoneEarlier, HasGpu, GpuAt, SetBusy, Distinct;
    var g, rest := c.Idle(Prefill).value, c.(prefillQueue := c.prefillQueue[1..]);
    PrefillLoopHead(x, c, p, a, s);
    QueuesDoNotMatter(x, c, p, s, c.prefillQueue[1..], c.decodeQueue);
    HeadPrefillIsDue(x, rest, p, s);
    StartPrefillOnPlan(x, rest, p, s);
    StartPrefillStays(x, rest, p, s);
    PrefillLoopAgain(x, c, p, a, s, StartPrefill(rest, x.m, c.prefillQueue[0], g));
  }

  lemma {:induction false} AssignPrefillOnPlan(x: Plan, c: Core, p: nat, a: nat, s: nat) returns (p': nat)
    requires x.Fits() && PrefillLoop(x, c, p, a, s) && Distinct(c.cluster)
    ensures p <= p' && PrefillLoop(x, AssignPrefill(c, x.m), p', a, s)
    ensures AssignPrefill(c, x.m).Now() == c.Now() && AssignPrefill(c, x.m).decodeQueue == c.decodeQueue
    decreases |c.prefillQueue|
  {
    hide PrefillLoop, Plan.Fits;
    p' := p;
    if c.prefillQueue != [] && c.Idle(Prefill).Some? {
      var g, rest := c.Idle(Prefill).value, c.(prefillQueue := c.prefillQueue[1..]);
      PrefillLoopTurn(x, c, p, a, s);
      p' := AssignPrefillOnPlan(x, StartPrefill(rest, x.m, c.prefillQueue[0], g), p + 1, a, s);
    }
  }

  ghost predicate DecodeLoop(x: Plan, c: Core, p: nat, q: nat, s: nat)
    requires x.Fits()
  {
    && x.Valid() && OnPlan(x, c, p, s) && Strict(c)
    && s <= q <= |x.rs| && x.Covers(p, q) && c.decodeQueue == Ids(x.ByEnd(), s, q)
    && (c.prefillQueue != [] ==> NoneEarlier(c, Prefill)) && (c.decodeQueue != [] ==> NoneEarlier(c, Decode))
    && (forall k | 0 <= k < q :: x.Front(x.line[k]).prefillDone <= c.Now())
    && (forall k | s <= k < |x.rs| :: x.Back(k).finish != c.Now())
  }

  lemma DecodeLoopHead(x: Plan, c: Core, p: nat, q: nat, s: nat)
    requires x.Fits() && DecodeLoop(x, c, p, q, s) && c.decodeQueue != []
    ensures x.Valid() && s < q <= |x.rs| && x.line[s] < p && c.decodeQueue[0] == x.rs[x.line[s]].id
    ensures Distinct(c.cluster) && OnPlan(x, c, p, s) && Strict(c) && NoneEarlier(c, Decode)
    ensures x.Front(x.line[s]).prefillDone <= c.Now() && x.Back(s).finish != c.Now()
  {
    hide Plan.Valid, Plan.Front, Plan.Back, Strict, Values, Counts, Roles, NoneEarlier;
  }

  lemma DecodeLoopAgain(x: Plan, c: Core, p: nat, q: nat, s: nat, c': Core)
    requires x.Fits() && DecodeLoop(x, c, p, q, s) && c.decodeQueue != []
    requires OnPlan(x, c', p, s + 1) && Strict(c') && c'.Now() == c.Now() && KeepsBusy(c, c')
    requires c'.decodeQueue == c.decodeQueue[1..] && c'.prefillQueue == c.prefillQueue
    ensures DecodeLoop(x, c', p, q, s + 1)
  {
    hide Plan.Valid, Plan.Fits, Plan.Front, Plan.Back, Strict, OnPlan, NoneEarlier, Plan.Covers, Plan.ByEnd;
    IdsHead(x.ByEnd(), s, q);
  }

  lemma DecodeLoopTurn(x: Plan, c: Core, p: nat, q: nat, s: nat)
    requires x.Fits() && DecodeLoop(x, c, p, q, s) && Distinct(c.cluster)
    requires c.decodeQueue != [] && c.Idle(Decode).Some?
    ensures var rest := c.(decodeQueue := c.decodeQueue[1..]);
            && c.decodeQueue[0] in rest.inFlight
            && DecodeLoop(x, StartDecode(rest, x.m, c.decodeQueue[0], c.Idle(Decode).value), p, q, s + 1)
  {
    hide DecodeLoop, Plan.Valid, Plan.Fits, Plan.Front, Plan.Back, Strict, OnPlan, NoneEarlier, HasGpu, GpuAt, SetBusy,
      Distinct;
    var g, rest := c.Idle(Decode).value, c.(decodeQueue := c.decodeQueue[1..]);
    DecodeLoopHead(x, c, p, q, s);
    LinePlace(x, s);
    QueuesDoNotMatter(x, c, p, s, c.prefillQueue, c.decodeQueue[1..]);
    HeadDecodeIsDue(x, rest, p, s);
    StartDecodeOnPlan(x, rest, p, s);
    StartDecodeStays(x, rest, p, s);
    DecodeLoopAgain(x, c, p, q, s, StartDecode(rest, x.m, c.decodeQueue[0], g));
  }

  lemma {:induction false} AssignDecodeOnPlan(x: Plan, c: Core, p: nat, q: nat, s: nat) returns (s': nat)
    requires x.Fits() && DecodeLoop(x, c, p, q, s) && Distinct(c.cluster)
    ensures s <= s' && DecodeLoop(x, AssignDecode(c, x.m), p, q, s')
    ensures AssignDecode(c, x.m).Now() == c.Now() && AssignDecode(c, x.m).prefillQueue == c.prefillQueue
    decreases |c.decodeQueue|
  {
    hide DecodeLoop, Plan.Fits;
    s' := s;
    if c.decodeQueue != [] && c.Idle(Decode).Some? {
      var g, rest := c.Idle(Decode).value, c.(decodeQueue := c.decodeQueue[1..]);
      DecodeLoopTurn(x, c, p, q, s);
      s' := AssignDecodeOnPlan(x, StartDecode(rest, x.m, c.decodeQueue[0], g), p, q, s + 1);
    }
  }

  // ---- the picture between two events ----

  /** The first `a` arrivals and the first `q` ends of prefill lie behind. */
  ghost predicate Past(x: Plan, now: u64, a: nat, q: nat)
    requires x.Fits() && a <= |x.rs| && q <= |x.rs|
  {
    && (forall i | 0 <= i < a :: x.rs[i].arrival <= now)
    && (forall k | 0 <= k < q :: x.Front(x.line[k]).prefillDone <= now)
  }

  /** `a` requests have arrived, the first `p` prefills and the first `s` decodes of the line have started and the first
      `q` prefills of the line are over, all as planned; the queues hold what lies between. */
  ghost predicate OnTrack(x: Plan, c: Core, p: nat, a: nat, q: nat, s: nat)
    requires x.Fits()
  {
    && OnPlan(x, c, p, s)
    && s <= q <= |x.rs| && p <= a <= |x.rs| && x.Covers(p, q)
    && c.prefillQueue == Ids(x.rs, p, a) && c.decodeQueue == Ids(x.ByEnd(), s, q)
    && Past(x, c.Now(), a, q)
  }

  /** Every GPU serving the role has its own completion pending at its release time. */
  ghost predicate AllBusy(c: Core, role: Role) {
    forall g: GpuRef | HasGpu(c.cluster, g) && Serves(GpuAt(c.cluster, g), role) ::
      Running(c.sim.pending, g, GpuAt(c.cluster, g).busyUntil)
  }

  /** Who waits waits for GPUs that are all at work. */
  ghost predicate Waits(c: Core) {
    (c.prefillQueue != [] ==> AllBusy(c, Prefill)) && (c.decodeQueue != [] ==> AllBusy(c, Decode))
  }

  ghost predicate Guarded(c: Core) {
    Steady(c) && Timed(c) && Exclusive(c) && Waits(c)
  }

  /** What holds between two events. */
  ghost predicate MirrorsAt(x: Plan, c: Core, p: nat, a: nat, q: nat, s: nat)
    requires x.Fits()
  {
    Guarded(c) && OnTrack(x, c, p, a, q, s) && Arrivals(c, x.rs, a)
  }

  ghost predicate Mirrors(x: Plan, c: Core)
    requires x.Fits()
  {
    exists p: nat, a: nat, q: nat, s: nat :: MirrorsAt(x, c, p, a, q, s)
  }

  // ---- which request an event belongs to ----

  lemma QueuedIsNotPending(rs: seq<Request>, c: Core, s: nat, q: nat, k: nat, e: Ev)
    requires Located(c, {}) && s <= q <= |rs| && c.decodeQueue == Ids(rs, s, q)
    requires k < |rs| && e in c.sim.pending && e.kind.id == rs[k].id
    ensures !(s <= k < q)
  {
    assert e.kind.id in EventIds(c.sim.pending);
    forall l | 0 <= l < |c.decodeQueue| ensures c.decodeQueue[l] != e.kind.id {
      assert c.decodeQueue[l] in Members(c.decodeQueue);
    }
    assert forall l | s <= l < q :: Ids(rs, s, q)[l - s] == rs[l].id;
  }

  lemma SameIdSameIndex(rs: seq<Request>, i: nat, j: nat)
    requires UniqueIds(rs) && i < |rs| && j < |rs| && rs[i].id == rs[j].id
    ensures i == j
  {}

  lemma ByEndUnique(x: Plan)
    requires x.Fits() && UniqueIds(x.rs)
    ensures UniqueIds(x.ByEnd())
  {
    forall k, l | 0 <= k < l < |x.rs| ensures x.ByEnd()[k].id != x.ByEnd()[l].id {
      assert x.place[x.line[k]] == k && x.place[x.line[l]] == l;
    }
  }

  /** Completion `e` belongs to request `i` and is due when the plan says. */
  ghost predicate Planned(x: Plan, e: Ev, i: nat)
    requires x.Fits()
  {
    && i < |x.rs| && e.kind.id == x.rs[i].id
    && (e.kind.PrefillDone? ==> e.time == x.Front(i).prefillDone)
    && (e.kind.DecodeDone? ==> e.time == x.At(i).finish)
  }

  lemma StagePlanned(x: Plan, f: InFlight, i: nat, p: nat, s: nat, e: Ev, now: u64)
    requires x.Fits() && i < |x.rs| && Agrees(x, f, i, p, s) && StageOf(f, e, now) && e.kind.id == x.rs[i].id
    requires e.kind.Completes()
    ensures Planned(x, e, i)
    ensures e.kind.PrefillDone? ==> i < p && s <= x.place[i]
    ensures e.kind.DecodeDone? ==> x.place[i] < s
  {
    hide Plan.Front, Plan.At;
  }

  /** Which request a pending completion belongs to. */
  lemma CompletionIsPlanned(x: Plan, c: Core, p: nat, a: nat, q: nat, s: nat, e: Ev) returns (i: nat)
    requires x.Fits() && MirrorsAt(x, c, p, a, q, s) && e in c.sim.pending && e.kind.Completes()
    ensures Planned(x, e, i)
    ensures e.kind.PrefillDone? ==> i < p && q <= x.place[i]
    ensures e.kind.DecodeDone? ==> x.place[i] < s
  {
    hide Plan.Front, Plan.At, Counts, Roles, Exclusive, Waits, Timed, Arrivals, Planned, Agrees, StageOf, Past;
    assert e.kind.id in EventIds(c.sim.pending);
    assert Known(x.rs, e.kind.id);
    i :| 0 <= i < |x.rs| && x.rs[i].id == e.kind.id;
    assert Agrees(x, c.inFlight[e.kind.id], i, p, s);
    assert StageOf(c.inFlight[e.kind.id], e, c.Now());
    StagePlanned(x, c.inFlight[e.kind.id], i, p, s, e, c.Now());
    assert x.ByEnd()[x.place[i]] == x.rs[i];
    QueuedIsNotPending(x.ByEnd(), c, s, q, x.place[i], e);
  }

  lemma NotQueued(rs: seq<Request>, i: nat, j: nat, k: nat)
    requires UniqueIds(rs) && i <= j <= |rs| && k < |rs| && !(i <= k < j)
    ensures rs[k].id !in Members(Ids(rs, i, j))
  {
    forall l | 0 <= l < j - i ensures Ids(rs, i, j)[l] != rs[k].id {
      assert rs[i + l].id != rs[k].id;
    }
  }

  /** A request that is in flight and in no queue has an event pending that fits its stage. */
  lemma ElsewhereIsPending(c: Core, id: u64) returns (f: Ev)
    requires Steady(c) && id in c.inFlight && id !in Members(c.prefillQueue) && id !in Members(c.decodeQueue)
    ensures f in c.sim.pending && f.kind.id == id && StageOf(c.inFlight[id], f, c.Now()) && !f.kind.FetchDone?
  {
    assert id in EventIds(c.sim.pending);
    f :| f in c.sim.pending && f.kind.id == id;
  }

  /** A prefill that is under way has its completion pending. */
  lemma UnderWayIsPending(x: Plan, c: Core, p: nat, a: nat, q: nat, s: nat, i: nat) returns (f: Ev)
    requires x.Valid() && MirrorsAt(x, c, p, a, q, s) && i < p && q <= x.place[i]
    ensures f in c.sim.pending && f.kind.PrefillDone? && f.kind.id == x.rs[i].id
  {
    var id := x.rs[i].id;
    assert UniqueIds(x.rs) && x.ByEnd()[x.place[i]] == x.rs[i];
    hide Plan.Front, Plan.At, Counts, Roles, Exclusive, Waits, Timed, Steady, Trace, Arrivals, UniqueIds, Past, Agrees,
      Members, Known;
    ValuesAgree(x, c, p, s, i);
    ByEndUnique(x);
    NotQueued(x.rs, p, a, i);
    NotQueued(x.ByEnd(), s, q, x.place[i]);
    hide Values, Ids;
    f := ElsewhereIsPending(c, id);
    AgreesUnderWay(x, c.inFlight[id], i, p, s, f, c.Now());
  }

  lemma AgreesUnderWay(x: Plan, f: InFlight, i: nat, p: nat, s: nat, e: Ev, now: u64)
    requires x.Fits() && i < |x.rs| && Agrees(x, f, i, p, s) && StageOf(f, e, now)
    requires i < p && s <= x.place[i] && !e.kind.FetchDone?
    ensures e.kind.PrefillDone?
  {
    hide Plan.Front, Plan.At;
  }

  // ---- what comes next ----

  lemma {:induction false} ForeGrows(x: Plan, i: nat, j: nat)
    requires x.w.Valid() && i <= j <= |x.rs|
    ensures NR.FreeAt(x.Fore(i)) <= NR.FreeAt(x.Fore(j))
  {
    hide Plan.Front, Plan.Fore;
    if i < j {
      ForeGrows(x, i, j - 1);
      ForeNext(x, j - 1);
      ClaimLater(x.Fore(j - 1), x.Front(j - 1).prefillDone);
    }
  }

  lemma ClaimLater(ws: seq<u64>, until: u64)
    requires ws != [] && NR.FreeAt(ws) <= until
    ensures NR.FreeAt(ws) <= NR.FreeAt(NR.Claim(ws, until))
  {}

  /** Nobody who waits for prefill can be done before the next event. */
  lemma WaitingEndsLater(x: Plan, c: Core, p: nat, s: nat, i: nat, from: u64)
    requires x.Fits() && OnPlan(x, c, p, s) && p <= i < |x.rs|
    requires forall h: GpuRef | HasGpu(c.cluster, h) && Serves(GpuAt(c.cluster, h), Prefill) ::
               from <= GpuAt(c.cluster, h).busyUntil
    ensures from <= x.Front(i).prefillDone
  {
    assert p <= |x.rs|;
    hide Plan.Front, Plan.Fore, Values, SameCounts, Roles;
    FirstNotBefore(c.cluster, Prefill, x.Fore(p), from);
    ForeGrows(x, p, i);
    ForeNext(x, i);
  }

  lemma AllBusyUntil(c: Core, e: Ev, role: Role)
    requires AllBusy(c, role) && e in c.sim.pending && Earliest(e, c.sim.pending)
    ensures forall h: GpuRef | HasGpu(c.cluster, h) && Serves(GpuAt(c.cluster, h), role) ::
              e.time <= GpuAt(c.cluster, h).busyUntil
  {
    forall h: GpuRef | HasGpu(c.cluster, h) && Serves(GpuAt(c.cluster, h), role)
      ensures e.time <= GpuAt(c.cluster, h).busyUntil
    {
      var f :| f in c.sim.pending && f.kind.CompletesOn(h) && f.time == GpuAt(c.cluster, h).busyUntil;
      assert !Before(f, e);
    }
  }

  /** A request that has not started its prefill ends it no earlier than the next event is due. */
  lemma UnstartedEndsLater(x: Plan, c: Core, p: nat, a: nat, q: nat, s: nat, e: Ev, i: nat)
    requires x.Fits() && MirrorsAt(x, c, p, a, q, s) && e in c.sim.pending && Earliest(e, c.sim.pending)
    requires p <= i < |x.rs|
    ensures e.time <= x.Front(i).prefillDone
  {
    hide Plan.Front, OnPlan, Past, Steady, Timed, Exclusive, AllBusy, Ids;
    if i < a {
      assert c.prefillQueue != [];
      AllBusyUntil(c, e, Prefill);
      WaitingEndsLater(x, c, p, s, i, e.time);
    } else {
      assert !Before(ArrivalOf(x.rs, i), e);
      ForeNext(x, i);
    }
  }

  lemma UnderWayEndsLater(x: Plan, c: Core, p: nat, a: nat, q: nat, s: nat, e: Ev, k: nat)
    requires x.Valid() && MirrorsAt(x, c, p, a, q, s) && e in c.sim.pending && Earliest(e, c.sim.pending)
    requires q <= k < |x.rs| && x.line[k] < p
    ensures e.time <= x.Front(x.line[k]).prefillDone
  {
    var i := x.line[k];
    assert UniqueIds(x.rs) && x.Fits() && x.place[i] == k;
    hide MirrorsAt, Plan.Front, Plan.Valid, Plan.Fits, UniqueIds;
    var f := UnderWayIsPending(x, c, p, a, q, s, i);
    var j := CompletionIsPlanned(x, c, p, a, q, s, f);
    SameIdSameIndex(x.rs, i, j);
    assert !Before(f, e);
  }

  lemma FirstInLine(x: Plan, k: nat, l: nat)
    requires x.Clean() && k < l < |x.rs|
    ensures x.Front(x.line[k]).prefillDone < x.Front(x.line[l]).prefillDone
  {
    hide Plan.Front, Plan.Back, Trace;
    var i, j := x.line[k], x.line[l];
    assert i != j by { assert x.place[i] == k && x.place[j] == l; }
    assert x.EndsFirst(i, j);
  }

  /** The prefill that completes next is the next of the line. */
  lemma NextPrefillIsNext(x: Plan, c: Core, p: nat, a: nat, q: nat, s: nat, e: Ev)
    requires x.Clean() && MirrorsAt(x, c, p, a, q, s)
    requires e in c.sim.pending && Earliest(e, c.sim.pending) && e.kind.PrefillDone?
    ensures q < |x.rs| && x.line[q] < p && Planned(x, e, x.line[q])
  {
    hide MirrorsAt, Plan.Front, Plan.Clean, Plan.Valid, Plan.Fits, Plan.NoTies, Trace, UniqueIds, Earliest;
    CleanFits(x);
    var i := CompletionIsPlanned(x, c, p, a, q, s, e);
    LinePlace(x, i);
    var k := x.place[i];
    if q < k {
      LinePlace(x, q);
      FirstInLine(x, q, k);
      if x.line[q] < p {
        UnderWayEndsLater(x, c, p, a, q, s, e, q);
      } else {
        UnstartedEndsLater(x, c, p, a, q, s, e, x.line[q]);
      }
    }
  }

  /** No two completions of a clean plan coincide, and no end of a prefill coincides with an arrival. */
  lemma CompletionsDiffer(x: Plan, e: Ev, i: nat, f: Ev, j: nat)
    requires x.Clean() && Planned(x, e, i) && Planned(x, f, j)
    requires e.kind.Completes() && f.kind.Completes() && e.kind.id != f.kind.id
    ensures e.time != f.time
  {
    hide Plan.Front, Plan.Back, Trace;
    assert i != j;
    assert x.line[x.place[i]] == i && x.line[x.place[j]] == j;
    assert x.At(i) == x.Back(x.place[i]) && x.At(j) == x.Back(x.place[j]);
  }

  lemma ArrivalsDiffer(x: Plan, i: nat, f: Ev, j: nat)
    requires x.Clean() && i < |x.rs| && Planned(x, f, j) && f.kind.PrefillDone?
    ensures x.rs[i].arrival != f.time
  {
    hide Plan.Front, Plan.Back, Trace;
  }

  /** `e` is the next event, and `f` a completion that cannot coincide with it: any, unless `e` is an arrival, and then
      the end of a prefill. */
  ghost predicate Apart(e: Ev, f: Ev) {
    f.kind.Completes() && f.kind.id != e.kind.id && (e.kind.RequestArrival? ==> f.kind.PrefillDone?)
  }

  lemma OthersAreLater(x: Plan, c: Core, p: nat, a: nat, q: nat, s: nat, e: Ev, f: Ev)
    requires x.Clean() && MirrorsAt(x, c, p, a, q, s)
    requires e in c.sim.pending && Earliest(e, c.sim.pending)
    requires f in c.sim.pending && Apart(e, f)
    ensures e.time < f.time
  {
    assert !Before(f, e) && Trace(x.rs) && a <= |x.rs| && Arrivals(c, x.rs, a) && x.Fits();
    assert !e.kind.FetchDone?;
    hide MirrorsAt, Trace, Plan.Clean, Arrivals, Planned;
    var j := CompletionIsPlanned(x, c, p, a, q, s, f);
    if e.kind.RequestArrival? {
      ArrivalsInOrder(c, x.rs, a, e);
      ArrivalsDiffer(x, a, f, j);
    } else {
      var i := CompletionIsPlanned(x, c, p, a, q, s, e);
      CompletionsDiffer(x, e, i, f, j);
    }
  }

  lemma PoppedNow(c: Core, e: Ev)
    requires Steady(c) && e in c.sim.pending && Earliest(e, c.sim.pending)
    ensures c.Now() <= e.time && Pop(c, e).Now() == e.time && Located(c, {}) && Distinct(c.cluster)
  {
    hide Manned, Live;
  }

  /** No completion coincides with one that was just popped. */
  lemma PoppedIsStrict(x: Plan, c: Core, p: nat, a: nat, q: nat, s: nat, e: Ev)
    requires x.Clean() && MirrorsAt(x, c, p, a, q, s)
    requires e in c.sim.pending && Earliest(e, c.sim.pending) && e.kind.Completes()
    ensures Strict(Pop(c, e)) && Pop(c, e).Now() == e.time && Distinct(c.cluster)
  {
    assert Steady(c);
    hide MirrorsAt, Plan.Clean, Steady;
    PoppedNow(c, e);
    forall f | f in Pop(c, e).sim.pending && f.kind.Completes() ensures Pop(c, e).Now() < f.time {
      assert f in c.sim.pending && f != e && f.kind.id != e.kind.id;
      hide Located;
      OthersAreLater(x, c, p, a, q, s, e, f);
    }
  }

  /** Nobody gets free for a role when the next event neither frees a GPU of the role nor coincides with the end of a
      task on one. */
  lemma NobodyFreed(c: Core, e: Ev, role: Role)
    requires Distinct(c.cluster) && AllBusy(c, role) && !FreesWorker(c, e, role) && Pop(c, e).Now() == e.time
    requires forall f | f in c.sim.pending && FreesWorker(c, f, role) :: e.time < f.time
    ensures Pop(c, e).Idle(role).None?
  {
    forall h: GpuRef | HasGpu(c.cluster, h) ensures !IdleFor(GpuAt(c.cluster, h), e.time, role) {
      if Serves(GpuAt(c.cluster, h), role) {
        var f :| f in c.sim.pending && f.kind.CompletesOn(h) && f.time == GpuAt(c.cluster, h).busyUntil;
        assert FreesWorker(c, f, role);
      }
    }
  }

  /** If somebody waits, every GPU that could help is busy until the next event at least. */
  lemma WaitMeansBusy(c: Core, e: Ev)
    requires Guarded(c) && e in c.sim.pending && Earliest(e, c.sim.pending)
    ensures c.prefillQueue != [] ==> NoneEarlier(Pop(c, e), Prefill)
    ensures c.decodeQueue != [] ==> NoneEarlier(Pop(c, e), Decode)
  {
    hide Steady, Timed, Exclusive, AllBusy;
    PoppedNow(c, e);
    if c.prefillQueue != [] { AllBusyUntil(c, e, Prefill); }
    if c.decodeQueue != [] { AllBusyUntil(c, e, Decode); }
  }

  lemma PopOnPlan(x: Plan, c: Core, p: nat, s: nat, e: Ev)
    requires x.Fits() && OnPlan(x, c, p, s)
    ensures OnPlan(x, Pop(c, e), p, s)
  {
    hide Plan.Front, Plan.At, Agrees, SameCounts, Distinct, Known;
  }

  /** A completion releases its GPU exactly when the plan's worker is released. */
  lemma ReleaseOnPlan(x: Plan, c: Core, p: nat, s: nat, g: GpuRef)
    requires x.Fits() && OnPlan(x, c, p, s) && HasGpu(c.cluster, g) && GpuAt(c.cluster, g).busyUntil == c.Now()
    ensures OnPlan(x, Release(c, g), p, s) && KeepsBusy(c, Release(c, g))
  {
    hide Plan.Front, Plan.At, Plan.Fore, Plan.Pool, Agrees, SameCounts, Known;
    assert p <= |x.rs| && s <= |x.rs|;
    OtherRoleKeepsCounts(c.cluster, g, c.Now(), Prefill, x.Fore(p));
    OtherRoleKeepsCounts(c.cluster, g, c.Now(), Decode, x.Pool(s));
  }

  lemma PushOnPlan(x: Plan, c: Core, p: nat, s: nat, role: Role, c': Core)
    requires x.Fits() && OnPlan(x, c, p, s) && c.Idle(role).None?
    requires c' == c.(prefillQueue := c'.prefillQueue, decodeQueue := c'.decodeQueue)
    ensures OnPlan(x, c', p, s) && (Strict(c) ==> Strict(c')) && KeepsBusy(c, c') && NoneEarlier(c', role)
  {
    QueuesDoNotMatter(x, c, p, s, c'.prefillQueue, c'.decodeQueue);
    hide Values, Counts, Roles;
    forall g: GpuRef | HasGpu(c.cluster, g) && Serves(GpuAt(c.cluster, g), role)
      ensures c.Now() <= GpuAt(c.cluster, g).busyUntil
    {
      assert !IdleFor(GpuAt(c.cluster, g), c.Now(), role);
    }
  }

  // ---- an arrival ----

  /** A request that finds an idle GPU on arrival starts at once, as planned. */
  lemma ArrivalIsDue(x: Plan, c: Core, p: nat, s: nat)
    requires x.Fits() && OnPlan(x, c, p, s) && p < |x.rs| && c.Idle(Prefill).Some?
    requires x.rs[p].arrival == c.Now()
    ensures x.Front(p).prefillStart == c.Now()
  {
    hide Plan.Fits, Plan.Front, Plan.Back, Plan.At, Plan.Fore, Plan.Pool, Values, Counts, SetBusy;
    ValuesBounds(x, c, p, s);
    StartPrefillCounts(x, c, p, s);
    ForeNext(x, p);
  }

  lemma PastArrival(x: Plan, now: u64, a: nat, q: nat)
    requires x.Fits() && a < |x.rs| && q <= |x.rs| && Past(x, now, a, q) && x.rs[a].arrival <= now
    ensures Past(x, now, a + 1, q)
  {
    hide Plan.Front;
  }

  lemma PastPrefill(x: Plan, now: u64, a: nat, q: nat)
    requires x.Fits() && a <= |x.rs| && q < |x.rs| && Past(x, now, a, q) && x.Front(x.line[q]).prefillDone <= now
    ensures Past(x, now, a, q + 1)
  {
    hide Plan.Front;
  }

  lemma PastLater(x: Plan, now: u64, later: u64, a: nat, q: nat)
    requires x.Fits() && a <= |x.rs| && q <= |x.rs| && Past(x, now, a, q) && now <= later
    ensures Past(x, later, a, q)
  {
    hide Plan.Front;
  }

  lemma ArrivalStarts(x: Plan, c: Core, p: nat, q: nat, s: nat)
    requires x.Clean() && p < |x.rs| && OnTrack(x, c, p, p, q, s) && c.Idle(Prefill).Some?
    requires x.rs[p].arrival == c.Now()
    ensures x.rs[p].id in c.inFlight
    ensures OnTrack(x, StartPrefill(c, x.m, x.rs[p].id, c.Idle(Prefill).value), p + 1, p + 1, q, s)
  {
    hide Plan.Front, Trace, OnPlan, Plan.NoTies, SetBusy, Past, HasGpu, GpuAt;
    ArrivalIsDue(x, c, p, s);
    StartPrefillOnPlan(x, c, p, s);
    PastArrival(x, c.Now(), p, q);
  }

  lemma ArrivalQueues(x: Plan, c: Core, p: nat, a: nat, q: nat, s: nat)
    requires x.Fits() && a < |x.rs| && OnTrack(x, c, p, a, q, s) && c.Idle(Prefill).None?
    requires x.rs[a].arrival <= c.Now()
    ensures OnTrack(x, c.(prefillQueue := c.prefillQueue + [x.rs[a].id]), p, a + 1, q, s)
  {
    var c' := c.(prefillQueue := c.prefillQueue + [x.rs[a].id]);
    assert Distinct(c.cluster);
    hide OnPlan, Ids, Past, KeepsBusy, NoneEarlier, Plan.ByEnd;
    IdsPush(x.rs, p, a);
    PushOnPlan(x, c, p, s, Prefill, c');
    PastArrival(x, c.Now(), a, q);
  }

  lemma PopOnTrack(x: Plan, c: Core, p: nat, a: nat, q: nat, s: nat, e: Ev)
    requires x.Fits() && OnTrack(x, c, p, a, q, s)
    ensures OnTrack(x, Pop(c, e), p, a, q, s)
  {
    hide OnPlan, Ids, Past, Plan.ByEnd;
    PopOnPlan(x, c, p, s, e);
    PastLater(x, c.Now(), Pop(c, e).Now(), a, q);
  }

  lemma ArrivalFindsGpu(x: Plan, c: Core, p: nat, a: nat, q: nat, s: nat, e: Ev)
    requires x.Clean() && MirrorsAt(x, c, p, a, q, s) && c.prefillQueue != []
    requires e in c.sim.pending && Earliest(e, c.sim.pending) && e.kind.RequestArrival?
    ensures Distinct(c.cluster) && Pop(c, e).Idle(Prefill).None?
  {
    assert Steady(c) && AllBusy(c, Prefill) && Roles(c);
    hide MirrorsAt, Plan.Clean, Steady, AllBusy;
    PoppedNow(c, e);
    forall f | f in c.sim.pending && FreesWorker(c, f, Prefill) ensures e.time < f.time {
      assert f.kind.PrefillDone? by { hide Located; assert GpuAt(c.cluster, f.kind.gpu).role != Unified; }
      assert f.kind.id != e.kind.id;
      hide Located, Roles;
      OthersAreLater(x, c, p, a, q, s, e, f);
    }
    NobodyFreed(c, e, Prefill);
  }

  lemma ArrivalIsNextOnPlan(x: Plan, c: Core, p: nat, a: nat, q: nat, s: nat, e: Ev)
    requires x.Clean() && MirrorsAt(x, c, p, a, q, s)
    requires e in c.sim.pending && Earliest(e, c.sim.pending) && e.kind.RequestArrival?
    ensures a < |x.rs| && e == ArrivalOf(x.rs, a)
    ensures Pop(c, e).Now() == e.time && Distinct(c.cluster) && OnTrack(x, Pop(c, e), p, a, q, s)
    ensures Pop(c, e).Idle(Prefill).Some? ==> p == a
    ensures x.rs[a].id in c.inFlight
  {
    assert Trace(x.rs) && c.prefillQueue == Ids(x.rs, p, a) && Steady(c) && Values(x, c, p, s);
    hide OnPlan, Ids, Past, Arrivals, Guarded, Plan.NoTies, Trace, Steady, Values;
    PoppedNow(c, e);
    ArrivalsInOrder(c, x.rs, a, e);
    BehindInLine(x, p, q, a);
    ValuesAgree(x, c, p, s, a);
    PopOnTrack(x, c, p, a, q, s, e);
    if p < a {
      assert c.prefillQueue != [];
      ArrivalFindsGpu(x, c, p, a, q, s, e);
    }
  }

  lemma ArrivalOnTrack(x: Plan, c: Core, p: nat, a: nat, q: nat, s: nat, e: Ev) returns (p': nat)
    requires x.Clean() && MirrorsAt(x, c, p, a, q, s)
    requires e in c.sim.pending && Earliest(e, c.sim.pending) && e.kind.RequestArrival?
    ensures Distinct(c.cluster) && a < |x.rs| && e == ArrivalOf(x.rs, a)
    ensures OnTrack(x, OnArrival(Pop(c, e), x.m, e.kind.id), p', a + 1, q, s)
  {
    hide OnTrack, MirrorsAt, Plan.Clean, Plan.Valid, Plan.Fits, Plan.NoTies, Trace, UniqueIds, Earliest, StartPrefill;
    CleanFits(x);
    ArrivalIsNextOnPlan(x, c, p, a, q, s, e);
    var d := Pop(c, e);
    match d.Idle(Prefill)
    case Some(g) =>
      ArrivalStarts(x, d, p, q, s);
      p' := p + 1;
    case None =>
      ArrivalQueues(x, d, p, a, q, s);
      p' := p;
  }

  // ---- an arrival leaves the machine guarded ----

  /** Neither the popped arrival nor a prefill that starts touches a decode GPU. */
  lemma DecodersStayBusy(c: Core, e: Ev, c': Core, g: GpuRef, until: u64, kind: Kind)
    requires AllBusy(c, Decode) && !e.kind.Completes() && HasGpu(c.cluster, g) && !Serves(GpuAt(c.cluster, g), Decode)
    requires c'.cluster == SetBusy(c.cluster, g, until) && c'.sim == Scheduled(Pop(c, e).sim, until, kind)
    ensures AllBusy(c', Decode)
  {
    forall h: GpuRef | HasGpu(c'.cluster, h) && Serves(GpuAt(c'.cluster, h), Decode)
      ensures Running(c'.sim.pending, h, GpuAt(c'.cluster, h).busyUntil)
    {
      assert h != g;
      var f :| f in c.sim.pending && f.kind.CompletesOn(h) && f.time == GpuAt(c.cluster, h).busyUntil;
      assert f in c'.sim.pending;
    }
  }

  lemma BusyAfterPop(c: Core, e: Ev, role: Role)
    requires AllBusy(c, role) && !e.kind.Completes()
    ensures AllBusy(Pop(c, e), role)
  {
    forall h: GpuRef | HasGpu(c.cluster, h) && Serves(GpuAt(c.cluster, h), role)
      ensures Running(Pop(c, e).sim.pending, h, GpuAt(c.cluster, h).busyUntil)
    {
      var f :| f in c.sim.pending && f.kind.CompletesOn(h) && f.time == GpuAt(c.cluster, h).busyUntil;
      assert f in Pop(c, e).sim.pending;
    }
  }

  lemma NoIdleAllBusy(c: Core, role: Role)
    requires Backed(c) && c.Idle(role).None?
    ensures AllBusy(c, role)
  {
    forall g: GpuRef | HasGpu(c.cluster, g) && Serves(GpuAt(c.cluster, g), role)
      ensures Running(c.sim.pending, g, GpuAt(c.cluster, g).busyUntil)
    {
      assert !IdleFor(GpuAt(c.cluster, g), c.Now(), role);
    }
  }

  lemma BusyQueueless(c: Core, role: Role, pq: seq<u64>)
    requires AllBusy(c, role)
    ensures AllBusy(c.(prefillQueue := pq), role)
  {}

  lemma ArrivalStartGuarded(x: Plan, c: Core, p: nat, a: nat, q: nat, s: nat, e: Ev)
    requires x.Clean() && MirrorsAt(x, c, p, a, q, s) && e.kind.id in c.inFlight
    requires e in c.sim.pending && Earliest(e, c.sim.pending) && e.kind.RequestArrival?
    requires Distinct(c.cluster) && Pop(c, e).Idle(Prefill).Some?
    ensures var c' := StartPrefill(Pop(c, e), x.m, e.kind.id, Pop(c, e).Idle(Prefill).value); Exclusive(c') && Waits(c')
  {
    var d := Pop(c, e);
    var g := d.Idle(Prefill).value;
    assert Steady(c) && Exclusive(c) && Roles(c) && Waits(c);
    if c.prefillQueue != [] { ArrivalFindsGpu(x, c, p, a, q, s, e); }
    assert !Serves(GpuAt(c.cluster, g), Decode);
    hide MirrorsAt, Plan.Clean, Steady, AllBusy;
    PoppedNow(c, e);
    PopExclusive(c, e);
    forall f | f in d.sim.pending && f.kind.CompletesOn(g) ensures d.Now() < f.time {
      assert f in c.sim.pending && f.kind.PrefillDone? && f.kind.id != e.kind.id;
      hide Located, Roles;
      OthersAreLater(x, c, p, a, q, s, e, f);
    }
    StartPrefillExclusive(d, x.m, e.kind.id, g);
    PrefillStamps(d, x.m, e.kind.id, g);
    var c' := StartPrefill(d, x.m, e.kind.id, g);
    hide Located, Roles, Exclusive;
    if c.decodeQueue != [] {
      var done := c'.inFlight[e.kind.id].prefillDone.value;
      DecodersStayBusy(c, e, c', g, done, PrefillDone(d.inFlight[e.kind.id].req.id, g));
    }
  }

  lemma ArrivalQueueGuarded(c: Core, e: Ev)
    requires Guarded(c) && e in c.sim.pending && e.kind.RequestArrival?
    requires Distinct(c.cluster) && Pop(c, e).Idle(Prefill).None?
    ensures var d := Pop(c, e); var c' := d.(prefillQueue := d.prefillQueue + [e.kind.id]); Exclusive(c') && Waits(c')
  {
    var d := Pop(c, e);
    hide Steady, AllBusy, Backed, Untouched;
    PopExclusive(c, e);
    PopBacked(c, e);
    hide Exclusive;
    ExclusiveQueueless(d, d.prefillQueue + [e.kind.id]);
    NoIdleAllBusy(d, Prefill);
    BusyQueueless(d, Prefill, d.prefillQueue + [e.kind.id]);
    if c.decodeQueue != [] {
      BusyAfterPop(c, e, Decode);
      BusyQueueless(d, Decode, d.prefillQueue + [e.kind.id]);
    }
  }

  lemma ExclusiveQueueless(c: Core, pq: seq<u64>)
    requires Exclusive(c)
    ensures Exclusive(c.(prefillQueue := pq))
  {}

  lemma ArrivalGuarded(x: Plan, c: Core, p: nat, a: nat, q: nat, s: nat, e: Ev)
    requires x.Clean() && MirrorsAt(x, c, p, a, q, s)
    requires e in c.sim.pending && Earliest(e, c.sim.pending) && e.kind.RequestArrival?
    ensures Distinct(c.cluster)
    ensures var c' := OnArrival(Pop(c, e), x.m, e.kind.id); Exclusive(c') && Waits(c')
  {
    assert x.Fits() && Guarded(c);
    hide MirrorsAt, Plan.Clean, Plan.Fits, Exclusive, Waits, StartPrefill, Guarded, OnTrack;
    ArrivalIsNextOnPlan(x, c, p, a, q, s, e);
    match Pop(c, e).Idle(Prefill)
    case Some(g) => ArrivalStartGuarded(x, c, p, a, q, s, e);
    case None => ArrivalQueueGuarded(c, e);
  }

  // ---- a completion ----

  /** The GPU of a completion that was just popped was due to be released at this very moment. */
  lemma PoppedReleases(x: Plan, c: Core, p: nat, a: nat, q: nat, s: nat, e: Ev)
    requires x.Clean() && MirrorsAt(x, c, p, a, q, s)
    requires e in c.sim.pending && Earliest(e, c.sim.pending) && e.kind.Completes()
    ensures HasGpu(c.cluster, e.kind.gpu) && Distinct(c.cluster) && Pop(c, e).Now() == e.time
    ensures OnTrack(x, Release(Pop(c, e), e.kind.gpu), p, a, q, s) && Strict(Release(Pop(c, e), e.kind.gpu))
    ensures c.prefillQueue != [] ==> NoneEarlier(Release(Pop(c, e), e.kind.gpu), Prefill)
    ensures c.decodeQueue != [] ==> NoneEarlier(Release(Pop(c, e), e.kind.gpu), Decode)
  {
    assert HasGpu(c.cluster, e.kind.gpu) && GpuAt(c.cluster, e.kind.gpu).busyUntil == e.time;
    hide OnPlan, Strict, Ids, Past, Arrivals, Guarded, Plan.NoTies, Trace, HasGpu, GpuAt, NoneEarlier, Plan.ByEnd;
    PoppedIsStrict(x, c, p, a, q, s, e);
    WaitMeansBusy(c, e);
    PopOnTrack(x, c, p, a, q, s, e);
    ReleaseOnPlan(x, Pop(c, e), p, s, e.kind.gpu);
    StrictBefore(Release(Pop(c, e), e.kind.gpu), Pop(c, e));
  }

  /** Both queues may be drained: whoever waits for a role finds only GPUs released at this very moment. */
  ghost predicate Draining(x: Plan, c: Core, p: nat, a: nat, q: nat, s: nat)
    requires x.Fits()
  {
    && x.Valid() && OnTrack(x, c, p, a, q, s) && Strict(c)
    && (c.prefillQueue != [] ==> NoneEarlier(c, Prefill)) && (c.decodeQueue != [] ==> NoneEarlier(c, Decode))
  }

  /** No prefill from `p` on, and no decode of the line from `s` on, ends now. */
  ghost predicate NoneEndsNow(x: Plan, now: u64, p: nat, s: nat)
    requires x.Fits()
  {
    && (forall i | p <= i < |x.rs| :: x.Front(i).prefillDone != now)
    && (forall k | s <= k < |x.rs| :: x.Back(k).finish != now)
  }

  lemma DrainPrefill(x: Plan, c: Core, p: nat, a: nat, q: nat, s: nat) returns (p': nat)
    requires x.Fits() && Draining(x, c, p, a, q, s) && NoneEndsNow(x, c.Now(), p, s) && Distinct(c.cluster)
    ensures Draining(x, AssignPrefill(c, x.m), p', a, q, s) && NoneEndsNow(x, c.Now(), p', s)
    ensures AssignPrefill(c, x.m).Now() == c.Now()
  {
    hide Plan.Front, Plan.Back, OnPlan, Strict, Trace, NoneEarlier, Ids, AssignPrefill, Plan.Covers, Plan.ByEnd;
    assert PrefillLoop(x, c, p, a, s);
    p' := AssignPrefillOnPlan(x, c, p, a, s);
    MoreCovered(x, p, p', q);
  }

  lemma DrainDecode(x: Plan, c: Core, p: nat, a: nat, q: nat, s: nat) returns (s': nat)
    requires x.Fits() && Draining(x, c, p, a, q, s) && NoneEndsNow(x, c.Now(), p, s) && Distinct(c.cluster)
    ensures Draining(x, AssignDecode(c, x.m), p, a, q, s') && NoneEndsNow(x, c.Now(), p, s')
    ensures AssignDecode(c, x.m).Now() == c.Now()
  {
    hide Plan.Front, Plan.Back, OnPlan, Strict, Trace, NoneEarlier, Ids, AssignDecode, Plan.Covers, Plan.ByEnd;
    assert DecodeLoop(x, c, p, q, s);
    s' := AssignDecodeOnPlan(x, c, p, q, s);
  }

  /** A prefilled request that finds an idle GPU starts its decode at once, as planned. */
  lemma PrefilledIsDue(x: Plan, c: Core, p: nat, s: nat)
    requires x.Fits() && OnPlan(x, c, p, s) && s < |x.rs| && c.Idle(Decode).Some?
    requires x.Front(x.line[s]).prefillDone == c.Now()
    ensures x.Back(s).decodeStart == c.Now()
  {
    hide Plan.Fits, Plan.Front, Plan.Back, Plan.At, Plan.Fore, Plan.Pool, Values, Counts, SetBusy;
    ValuesBounds(x, c, p, s);
    StartDecodeCounts(x, c, p, s);
    PoolNext(x, s);
  }

  lemma PrefilledStarts(x: Plan, c: Core, p: nat, a: nat, q: nat)
    requires x.Fits() && Draining(x, c, p, a, q, q) && q < |x.rs| && x.line[q] < p && c.Idle(Decode).Some?
    requires x.Front(x.line[q]).prefillDone == c.Now() && x.Back(q).finish != c.Now()
    ensures x.rs[x.line[q]].id in c.inFlight
    ensures Draining(x, StartDecode(c, x.m, x.rs[x.line[q]].id, c.Idle(Decode).value), p, a, q + 1, q + 1)
  {
    hide Plan.Front, Plan.Back, Trace, Strict, OnPlan, SetBusy, Past, HasGpu, GpuAt, NoneEarlier, Plan.Covers;
    PrefilledIsDue(x, c, p, q);
    StartDecodeOnPlan(x, c, p, q);
    StartDecodeStays(x, c, p, q);
    PastPrefill(x, c.Now(), a, q);
    OneMoreCovered(x, p, q);
  }

  lemma PrefilledQueues(x: Plan, c: Core, p: nat, a: nat, q: nat, s: nat)
    requires x.Fits() && Draining(x, c, p, a, q, s) && q < |x.rs| && x.line[q] < p && c.Idle(Decode).None?
    requires x.Front(x.line[q]).prefillDone == c.Now()
    ensures x.rs[x.line[q]].id in c.inFlight
    ensures Draining(x, c.(decodeQueue := c.decodeQueue + [x.rs[x.line[q]].id]), p, a, q + 1, s)
  {
    var c' := c.(decodeQueue := c.decodeQueue + [x.rs[x.line[q]].id]);
    assert Distinct(c.cluster) && Values(x, c, p, s);
    hide Plan.Front, Strict, OnPlan, Ids, Past, NoneEarlier, Trace, Plan.Covers, Values;
    ValuesAgree(x, c, p, s, x.line[q]);
    IdsPush(x.ByEnd(), s, q);
    PushOnPlan(x, c, p, s, Decode, c');
    PastPrefill(x, c.Now(), a, q);
    OneMoreCovered(x, p, q);
  }

  /** The request whose prefill is over goes to an idle GPU, or to the end of the line. */
  lemma PrefilledMovesOn(x: Plan, c: Core, p: nat, a: nat, q: nat, s: nat) returns (s': nat)
    requires x.Fits() && Draining(x, c, p, a, q, s) && q < |x.rs| && x.line[q] < p && Distinct(c.cluster)
    requires c.decodeQueue != [] ==> c.Idle(Decode).None?
    requires x.Front(x.line[q]).prefillDone == c.Now() && NoneEndsNow(x, c.Now(), p, 0)
    ensures Draining(x, DispatchDecode(c, x.m, x.rs[x.line[q]].id), p, a, q + 1, s')
    ensures DispatchDecode(c, x.m, x.rs[x.line[q]].id).Now() == c.Now()
  {
    hide Plan.Front, Plan.Back, OnPlan, Past, Strict, NoneEarlier, StartDecode, Plan.Covers;
    assert (s < q ==> c.decodeQueue != []) && s <= q;
    assert x.Back(q).finish != c.Now();
    hide OnTrack, Draining, NoneEndsNow;
    match c.Idle(Decode)
    case Some(g) =>
      PrefilledStarts(x, c, p, a, q);
      s' := q + 1;
      StartKeepsNow(c, x.m, x.rs[x.line[q]].id, g);
    case None =>
      PrefilledQueues(x, c, p, a, q, s);
      s' := s;
  }

  lemma StartKeepsNow(c: Core, m: Engine, id: u64, g: GpuRef)
    requires id in c.inFlight && HasGpu(c.cluster, g)
    ensures StartDecode(c, m, id, g).Now() == c.Now()
  {}

  lemma CleanPrefillEnd(x: Plan, p: nat, q: nat)
    requires x.Clean() && q < |x.rs| && x.line[q] < p
    ensures NoneEndsNow(x, x.Front(x.line[q]).prefillDone, p, 0)
  {
    hide Plan.Front, Plan.Back, Trace;
  }

  lemma CleanFinish(x: Plan, s: nat, j: nat)
    requires x.Clean() && j < s <= |x.rs|
    ensures NoneEndsNow(x, x.Back(j).finish, 0, s)
  {
    hide Plan.Front, Plan.Back, Trace;
  }

  lemma NoneEndsFewer(x: Plan, now: u64, p: nat, s: nat, p': nat, s': nat)
    requires x.Fits() && NoneEndsNow(x, now, p, s) && p <= p' && s <= s'
    ensures NoneEndsNow(x, now, p', s')
  {
    hide Plan.Front, Plan.Back;
  }

  lemma NoDecodeGpuFreed(x: Plan, c: Core, p: nat, a: nat, q: nat, s: nat, e: Ev)
    requires x.Clean() && MirrorsAt(x, c, p, a, q, s)
    requires e in c.sim.pending && Earliest(e, c.sim.pending) && e.kind.PrefillDone? && c.decodeQueue != []
    ensures HasGpu(c.cluster, e.kind.gpu) && Distinct(c.cluster)
    ensures Release(Pop(c, e), e.kind.gpu).Idle(Decode).None?
  {
    assert Steady(c) && AllBusy(c, Decode) && Roles(c);
    assert HasGpu(c.cluster, e.kind.gpu) && !Serves(GpuAt(c.cluster, e.kind.gpu), Decode);
    hide MirrorsAt, Plan.Clean, Steady, AllBusy, Roles;
    PoppedNow(c, e);
    forall f | f in c.sim.pending && FreesWorker(c, f, Decode) ensures e.time < f.time {
      assert f != e && f.kind.id != e.kind.id;
      hide Located;
      OthersAreLater(x, c, p, a, q, s, e, f);
    }
    NobodyFreed(c, e, Decode);
    ReleaseGivesNoDecode(Pop(c, e), e.kind.gpu);
  }

  /** The state in which the handler of a prefill completion finds itself once the GPU is released. */
  lemma PrefillDoneBegins(x: Plan, c: Core, p: nat, a: nat, q: nat, s: nat, e: Ev)
    requires x.Clean() && MirrorsAt(x, c, p, a, q, s)
    requires e in c.sim.pending && Earliest(e, c.sim.pending) && e.kind.PrefillDone?
    ensures HasGpu(c.cluster, e.kind.gpu) && Distinct(c.cluster)
    ensures q < |x.rs| && x.line[q] < p && e.kind.id == x.rs[x.line[q]].id
    ensures var c1 := Release(Pop(c, e), e.kind.gpu);
            && Draining(x, c1, p, a, q, s) && c1.Now() == x.Front(x.line[q]).prefillDone
            && (c1.decodeQueue != [] ==> c1.Idle(Decode).None?)
  {
    hide Plan.Front, Plan.NoTies, Trace, MirrorsAt, OnTrack, NoneEarlier, HasGpu, GpuAt, Distinct, SetBusy, Strict;
    NextPrefillIsNext(x, c, p, a, q, s, e);
    PoppedReleases(x, c, p, a, q, s, e);
    if c.decodeQueue != [] { NoDecodeGpuFreed(x, c, p, a, q, s, e); }
  }

  lemma PrefillDoneOnTrack(x: Plan, c: Core, p: nat, a: nat, q: nat, s: nat, e: Ev) returns (p': nat, s': nat)
    requires x.Clean() && MirrorsAt(x, c, p, a, q, s)
    requires e in c.sim.pending && Earliest(e, c.sim.pending) && e.kind.PrefillDone?
    ensures HasGpu(c.cluster, e.kind.gpu) && Distinct(c.cluster)
    ensures OnTrack(x, OnPrefillDone(Pop(c, e), x.m, e.kind.id, e.kind.gpu), p', a, q + 1, s')
    ensures Strict(OnPrefillDone(Pop(c, e), x.m, e.kind.id, e.kind.gpu))
  {
    hide Plan.Front, Plan.Clean, MirrorsAt, OnTrack, NoneEndsNow, DispatchDecode, AssignPrefill, AssignDecode,
      NoneEarlier, HasGpu, Release, Distinct, Strict, Plan.Valid, Plan.Fits, Plan.NoTies, Trace, UniqueIds, Earliest;
    CleanFits(x);
    PrefillDoneBegins(x, c, p, a, q, s, e);
    CleanPrefillEnd(x, p, q);
    var c1 := Release(Pop(c, e), e.kind.gpu);
    var s1 := PrefilledMovesOn(x, c1, p, a, q, s);
    var c2 := DispatchDecode(c1, x.m, e.kind.id);
    LinePlace(x, q);
    NoneEndsFewer(x, x.Front(x.line[q]).prefillDone, p, 0, p, s1);
    p' := DrainPrefill(x, c2, p, a, q + 1, s1);
    s' := DrainDecode(x, AssignPrefill(c2, x.m), p', a, q + 1, s1);
  }

  // ---- the end of a decode ----

  lemma PlannedResult(x: Plan, f: InFlight, j: nat, p: nat, s: nat)
    requires x.Fits() && j < |x.rs| && x.place[j] < s && j < p && Agrees(x, f, j, p, s)
    ensures f.IntoResult() == x.At(j)
  {
    hide Plan.Pool, Plan.Fore;
    assert x.line[x.place[j]] == j;
    ForeNext(x, j);
    PoolNext(x, x.place[j]);
    hide Plan.Front, Plan.Back, NR.Claim, NR.FreeAt;
  }

  lemma FinishRecords(c: Core, id: u64)
    requires id in c.inFlight
    ensures c.inFlight[id].IntoResult() in Finish(c, id).results
    ensures forall o | o in c.results :: o in Finish(c, id).results
  {
    assert Finish(c, id).results[|c.results|] == c.inFlight[id].IntoResult();
  }

  /** The finished request is `j`; its result is the planned one, and nothing else leaves. */
  lemma FinishLeaves(x: Plan, c: Core, p: nat, s: nat, j: nat, i: nat)
    requires x.Fits() && UniqueIds(x.rs) && Values(x, c, p, s)
    requires j < |x.rs| && x.place[j] < s && x.rs[j].id in c.inFlight
    requires i < |x.rs| && x.rs[i].id !in Finish(c, x.rs[j].id).inFlight
    ensures x.place[i] < s && x.At(i) in Finish(c, x.rs[j].id).results
  {
    hide Plan.Front, Plan.Back, Plan.At, Known, Agrees, UniqueIds;
    FinishRecords(c, x.rs[j].id);
    if x.rs[i].id == x.rs[j].id {
      SameIdSameIndex(x.rs, i, j);
      assert Agrees(x, c.inFlight[x.rs[j].id], j, p, s);
      assert j < p by { assert x.line[x.place[j]] == j; }
      hide Values, Finish;
      PlannedResult(x, c.inFlight[x.rs[j].id], j, p, s);
    } else {
      assert x.rs[i].id !in c.inFlight;
      assert x.At(i) in c.results;
    }
  }

  lemma FinishValues(x: Plan, c: Core, p: nat, s: nat, j: nat)
    requires x.Fits() && UniqueIds(x.rs) && Values(x, c, p, s)
    requires j < |x.rs| && x.place[j] < s && x.rs[j].id in c.inFlight
    ensures Values(x, Finish(c, x.rs[j].id), p, s)
  {
    var c' := Finish(c, x.rs[j].id);
    hide Plan.Front, Plan.Back, Plan.At, Agrees, Known, UniqueIds;
    forall i | 0 <= i < |x.rs| && x.rs[i].id !in c'.inFlight ensures x.place[i] < s && x.At(i) in c'.results {
      hide Values;
      FinishLeaves(x, c, p, s, j, i);
    }
  }

  lemma FinishOnPlan(x: Plan, c: Core, p: nat, s: nat, j: nat)
    requires x.Fits() && UniqueIds(x.rs) && OnPlan(x, c, p, s)
    requires j < |x.rs| && x.place[j] < s && x.rs[j].id in c.inFlight
    ensures OnPlan(x, Finish(c, x.rs[j].id), p, s)
  {
    hide Values, Counts, Distinct, HasGpu, GpuAt;
    FinishValues(x, c, p, s, j);
  }

  lemma FinishKeepsBusy(c: Core, id: u64)
    ensures KeepsBusy(c, Finish(c, id))
    ensures Strict(c) ==> Strict(Finish(c, id))
  {
    hide HasGpu, GpuAt;
  }

  lemma FinishDraining(x: Plan, c: Core, p: nat, a: nat, q: nat, s: nat, j: nat)
    requires x.Fits() && Draining(x, c, p, a, q, s) && j < |x.rs| && x.place[j] < s && x.rs[j].id in c.inFlight
    ensures Draining(x, Finish(c, x.rs[j].id), p, a, q, s)
  {
    hide Plan.Front, OnPlan, Past, Ids, Trace, Strict, NoneEarlier, Plan.ByEnd, Plan.Covers;
    assert UniqueIds(x.rs) by { assert Trace(x.rs); UniqueOf(x.rs); }
    FinishOnPlan(x, c, p, s, j);
    FinishKeepsBusy(c, x.rs[j].id);
  }

  lemma UniqueOf(rs: seq<Request>)
    requires Trace(rs)
    ensures UniqueIds(rs)
  {}

  lemma DecodeDoneBegins(x: Plan, c: Core, p: nat, a: nat, q: nat, s: nat, e: Ev) returns (j: nat)
    requires x.Clean() && MirrorsAt(x, c, p, a, q, s)
    requires e in c.sim.pending && Earliest(e, c.sim.pending) && e.kind.DecodeDone?
    ensures HasGpu(c.cluster, e.kind.gpu) && Distinct(c.cluster)
    ensures j < |x.rs| && x.place[j] < s <= |x.rs| && e.kind.id == x.rs[j].id
    ensures var c1 := Release(Pop(c, e), e.kind.gpu);
            && Draining(x, c1, p, a, q, s) && c1.Now() == x.Back(x.place[j]).finish && x.rs[j].id in c1.inFlight
  {
    assert s <= |x.rs| && x.Valid();
    assert e.kind.id in EventIds(c.sim.pending) && e.kind.id in c.inFlight;
    hide Plan.Front, Plan.Back, Plan.NoTies, Trace, MirrorsAt, OnTrack, NoneEarlier, HasGpu, GpuAt, Distinct, SetBusy,
      Strict;
    j := CompletionIsPlanned(x, c, p, a, q, s, e);
    PoppedReleases(x, c, p, a, q, s, e);
  }

  lemma DecodeDoneOnTrack(x: Plan, c: Core, p: nat, a: nat, q: nat, s: nat, e: Ev) returns (p': nat, s': nat)
    requires x.Clean() && MirrorsAt(x, c, p, a, q, s)
    requires e in c.sim.pending && Earliest(e, c.sim.pending) && e.kind.DecodeDone?
    ensures HasGpu(c.cluster, e.kind.gpu) && Distinct(c.cluster)
    ensures OnTrack(x, OnDecodeDone(Pop(c, e), x.m, e.kind.id, e.kind.gpu), p', a, q, s')
    ensures Strict(OnDecodeDone(Pop(c, e), x.m, e.kind.id, e.kind.gpu))
  {
    hide Plan.Front, Plan.Back, Plan.Clean, MirrorsAt, OnTrack, NoneEndsNow, AssignPrefill, AssignDecode, NoneEarlier,
      HasGpu, Release, Distinct, Strict, Plan.Valid, Plan.Fits, Plan.NoTies, Trace, UniqueIds, Earliest;
    CleanFits(x);
    var j := DecodeDoneBegins(x, c, p, a, q, s, e);
    LinePlace(x, j);
    CleanFinish(x, s, x.place[j]);
    var c1 := Release(Pop(c, e), e.kind.gpu);
    FinishDraining(x, c1, p, a, q, s, j);
    var c2 := Finish(c1, e.kind.id);
    NoneEndsFewer(x, x.Back(x.place[j]).finish, 0, s, p, s);
    s' := DrainDecode(x, c2, p, a, q, s);
    p' := DrainPrefill(x, AssignDecode(c2, x.m), p, a, q, s');
  }

  // ---- one turn, whole runs ----

  lemma ArrivalsKept(b: Core, c: Core, rs: seq<Request>, a: nat)
    requires Arrivals(b, rs, a) && AddsCompletions(b, c) && b.sim.pending <= c.sim.pending
    ensures Arrivals(c, rs, a)
  {
    hide SameShape, HasGpu, ArrivalOf;
  }

  lemma PopKeepsArrivals(c: Core, rs: seq<Request>, a: nat, e: Ev)
    requires Arrivals(c, rs, a) && e.kind.Completes()
    ensures Arrivals(Pop(c, e), rs, a)
  {}

  lemma NoIdleWaits(c: Core)
    requires Backed(c) && NoIdleWait(c)
    ensures Waits(c)
  {
    hide Backed, AllBusy;
    if c.prefillQueue != [] { NoIdleAllBusy(c, Prefill); }
    if c.decodeQueue != [] { NoIdleAllBusy(c, Decode); }
  }

  /** A completion without ties leaves the machine guarded. */
  lemma CompletionGuarded(m: Engine, c: Core, e: Ev, c': Core)
    requires Guarded(c) && Turn(c, m, e, c') && e.kind.Completes() && Strict(c')
    ensures Exclusive(c') && Waits(c')
  {
    hide Steady, Exclusive, Strict, Timed, Waits, NoIdleWait;
    TurnExclusive(c, m, e, c');
    TurnBacked(c, m, e, c');
    ReadyAfterPop(c, e);
    if e.kind.PrefillDone? {
      PrefillDoneNoIdleWait(Pop(c, e), m, e);
    } else {
      DecodeDoneNoIdleWait(Pop(c, e), m, e);
    }
    NoIdleWaits(c');
  }

  lemma ReadyAfterPop(c: Core, e: Ev)
    requires Steady(c) && e in c.sim.pending && Earliest(e, c.sim.pending)
    ensures Ready(Pop(c, e), e)
  {
    PoppedIsReady(c, e);
  }

  lemma MirrorsAgain(x: Plan, c: Core, e: Ev, c': Core, p: nat, a: nat, q: nat, s: nat)
    requires x.Fits() && Guarded(c) && Turn(c, x.m, e, c') && OnTrack(x, c', p, a, q, s) && Exclusive(c') && Waits(c')
    requires Arrivals(Pop(c, e), x.rs, a)
    ensures MirrorsAt(x, c', p, a, q, s)
  {
    hide OnTrack, Arrivals, Steady, Exclusive, Waits, Backed, Untouched, Earliest, Handle;
    TurnKeeps(c, x.m, e, c');
    TurnBacked(c, x.m, e, c');
    HandleAdds(Pop(c, e), x.m, e);
    ArrivalsKept(Pop(c, e), c', x.rs, a);
  }

  lemma TurnFacts(x: Plan, c: Core, e: Ev, c': Core, p: nat, a: nat, q: nat, s: nat)
    requires x.Clean() && MirrorsAt(x, c, p, a, q, s) && Turns(x.m)(c, e, c')
    ensures x.Fits() && Guarded(c) && a <= |x.rs| && Arrivals(c, x.rs, a) && Trace(x.rs) && Turn(c, x.m, e, c')
    ensures e in c.sim.pending && Earliest(e, c.sim.pending) && !e.kind.FetchDone?
    ensures CanHandle(Pop(c, e), e) && c' == Handle(Pop(c, e), x.m, e) && c'.Now() == e.time
  {
    assert Steady(c) && Turn(c, x.m, e, c');
    hide OnPlan, Past, Ids, Arrivals, Trace, Earliest, Handle, Plan.NoTies, Exclusive, Waits, Timed;
    TurnKeeps(c, x.m, e, c');
  }

  /** With arrivals apart from ends of decodes, the arrival coincides with no completion at all. */
  lemma StrictAfterArrival(x: Plan, c: Core, p: nat, a: nat, q: nat, s: nat, i: nat)
    requires x.Clean() && x.ArrivalsApart() && MirrorsAt(x, c, p, a, q, s) && i < |x.rs|
    requires c.Now() == x.rs[i].arrival
    ensures Strict(c)
  {
    hide MirrorsAt, Plan.Clean, Plan.Fits, Plan.NoTies, Plan.ArrivalsApart, Planned;
    CleanFits(x);
    forall f | f in c.sim.pending && f.kind.Completes() ensures c.Now() < f.time {
      var j := CompletionIsPlanned(x, c, p, a, q, s, f);
      CompletionIsDue(x, c, p, a, q, s, f);
      if f.kind.PrefillDone? { ArrivalsDiffer(x, i, f, j); } else { FinishesDiffer(x, i, f, j); }
    }
  }

  lemma CompletionIsDue(x: Plan, c: Core, p: nat, a: nat, q: nat, s: nat, f: Ev)
    requires x.Fits() && MirrorsAt(x, c, p, a, q, s) && f in c.sim.pending && f.kind.Completes()
    ensures c.Now() <= f.time
  {
    hide OnTrack, Arrivals, Exclusive, Waits, Timed, Located, Grounded, Live, Manned, Plan.Fits;
  }

  lemma FinishesDiffer(x: Plan, i: nat, f: Ev, j: nat)
    requires x.Fits() && x.ArrivalsApart() && i < |x.rs| && Planned(x, f, j) && f.kind.DecodeDone?
    ensures x.rs[i].arrival != f.time
  {
    hide Plan.Front, Plan.Back;
  }

  /** Between two events, and tie-free if no arrival coincides with the end of a decode. */
  ghost predicate Follows(x: Plan, c: Core)
    requires x.Fits()
  {
    Mirrors(x, c) && (x.ArrivalsApart() ==> Strict(c))
  }

  lemma TurnMirrorsAt(x: Plan, c: Core, e: Ev, c': Core, p: nat, a: nat, q: nat, s: nat)
    requires x.Clean() && MirrorsAt(x, c, p, a, q, s) && Turns(x.m)(c, e, c')
    ensures x.Fits() && Follows(x, c')
  {
    hide OnTrack, MirrorsAt, Guarded, Arrivals, Plan.Clean, Trace, Earliest, Turns, OnArrival, OnPrefillDone,
      OnDecodeDone, Turn, Plan.ArrivalsApart, Strict, Exclusive, Waits, Plan.Fits;
    TurnFacts(x, c, e, c', p, a, q, s);
    match e.kind {
      case RequestArrival(id) =>
        var p' := ArrivalOnTrack(x, c, p, a, q, s, e);
        ArrivalGuarded(x, c, p, a, q, s, e);
        PopArrival(c, x.rs, a);
        MirrorsAgain(x, c, e, c', p', a + 1, q, s);
        if x.ArrivalsApart() { StrictAfterArrival(x, c', p', a + 1, q, s, a); }
      case PrefillDone(id, g) =>
        var p', s' := PrefillDoneOnTrack(x, c, p, a, q, s, e);
        CompletionGuarded(x.m, c, e, c');
        PopKeepsArrivals(c, x.rs, a, e);
        MirrorsAgain(x, c, e, c', p', a, q + 1, s');
      case DecodeDone(id, g) =>
        var p', s' := DecodeDoneOnTrack(x, c, p, a, q, s, e);
        CompletionGuarded(x.m, c, e, c');
        PopKeepsArrivals(c, x.rs, a, e);
        MirrorsAgain(x, c, e, c', p', a, q, s');
    }
  }

  /** Every turn over a clean plan keeps the correspondence. */
  lemma TurnMirrors(x: Plan, c: Core, e: Ev, c': Core)
    requires x.Clean() && x.Fits() && Mirrors(x, c) && Turns(x.m)(c, e, c')
    ensures Follows(x, c')
  {
    hide MirrorsAt, Turns, Plan.Clean, Plan.Fits, Follows;
    var p: nat, a: nat, q: nat, s: nat :| MirrorsAt(x, c, p, a, q, s);
    TurnMirrorsAt(x, c, e, c', p, a, q, s);
  }

  lemma FollowsMirrors(x: Plan, c: Core)
    requires x.Fits() && Follows(x, c)
    ensures Mirrors(x, c)
  {}

  lemma {:induction false} RunMirrors(x: Plan, states: seq<Core>, events: seq<Ev>, n: nat)
    requires x.Clean() && x.Fits() && IsTrace(Turns(x.m), states, events) && Follows(x, states[0]) && n <= |events|
    ensures Follows(x, states[n])
  {
    hide *;
    if n > 0 {
      TraceStep(Turns(x.m), states, events, n - 1);
      RunMirrors(x, states, events, n - 1);
      FollowsMirrors(x, states[n-1]);
      TurnMirrors(x, states[n-1], events[n-1], states[n]);
    }
  }

  // ---- the beginning ----

  /** A cluster with one role per GPU whose GPUs are released when the plan's workers are. */
  ghost predicate Matches(x: Plan, t: Topology)
    requires x.w.Valid()
  {
    && Rested(t, x.rs) && Disaggregated(t)
    && SameCounts(t, Prefill, x.w.prefill) && SameCounts(t, Decode, x.w.decode)
  }

  lemma LoadedValues(x: Plan, t: Topology)
    requires x.Fits() && UniqueIds(x.rs)
    ensures Values(x, Loaded(t, x.rs), 0, 0)
  {
    var c := Loaded(t, x.rs);
    LoadedInFlight(t, x.rs);
    hide Plan.Front, Plan.At;
    forall id | id in c.inFlight ensures Known(x.rs, id) {
      BookEntry(x.rs, id);
      var i :| 0 <= i < |x.rs| && x.rs[i] == Book(x.rs)[id];
      assert x.rs[i].id == id;
    }
    forall i | 0 <= i < |x.rs| ensures x.rs[i].id in c.inFlight && Agrees(x, c.inFlight[x.rs[i].id], i, 0, 0) {
      LoadedEntry(t, x.rs, i);
    }
  }

  lemma LoadedCounts(x: Plan, t: Topology)
    requires x.Fits() && SameCounts(t, Prefill, x.w.prefill) && SameCounts(t, Decode, x.w.decode)
    ensures Counts(x, t, 0, 0)
  {
    hide SameCounts;
    assert x.Fore(0) == x.w.prefill && x.Pool(0) == x.w.decode;
  }

  lemma LoadedRoles(t: Topology, rs: seq<Request>)
    requires Disaggregated(t)
    ensures Roles(Loaded(t, rs))
  {
    LoadedQuiet(t, rs);
    LoadedNothingStarted(t, rs);
    hide Loaded, HasGpu, GpuAt;
  }

  lemma LoadedOnPlan(x: Plan, t: Topology)
    requires x.Valid() && Matches(x, t)
    ensures OnPlan(x, Loaded(t, x.rs), 0, 0)
  {
    assert Distinct(t);
    hide Plan.Valid, Plan.Fits, UniqueIds, Values, Counts, SameCounts, Loaded, Rested, Distinct, Roles, Disaggregated;
    ValidUnique(x);
    LoadedQuiet(t, x.rs);
    LoadedValues(x, t);
    LoadedCounts(x, t);
    LoadedRoles(t, x.rs);
  }

  lemma LoadedOnTrack(x: Plan, t: Topology)
    requires x.Valid() && Matches(x, t)
    ensures OnTrack(x, Loaded(t, x.rs), 0, 0, 0, 0)
  {
    hide Plan.Front, OnPlan, Matches, Loaded;
    LoadedOnPlan(x, t);
    LoadedQuiet(t, x.rs);
  }

  lemma LoadedGuarded(t: Topology, rs: seq<Request>)
    requires Rested(t, rs) && UniqueIds(rs)
    ensures Guarded(Loaded(t, rs)) && Strict(Loaded(t, rs))
  {
    LoadedNothingStarted(t, rs);
    hide Steady, Exclusive, Timed, Rested, Loaded;
    LoadedOrderly(t, rs);
  }

  lemma LoadedFollows(x: Plan, t: Topology)
    requires x.Valid() && Matches(x, t)
    ensures Follows(x, Loaded(t, x.rs))
  {
    assert UniqueIds(x.rs) by { UniqueOf(x.rs); }
    hide Plan.Front, Loaded, Guarded, OnTrack, Order, Rested, Trace, Strict;
    LoadedGuarded(t, x.rs);
    LoadedServedInOrder(t, x.rs);
    OrderArrivals(Loaded(t, x.rs), x.rs);
    LoadedOnTrack(x, t);
    assert MirrorsAt(x, Loaded(t, x.rs), 0, 0, 0, 0);
  }

  lemma OrderArrivals(c: Core, rs: seq<Request>)
    requires Order(c, rs, 0, 0)
    ensures Arrivals(c, rs, 0)
  {}
}
