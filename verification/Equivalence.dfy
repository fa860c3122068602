/** The equivalence of the event-driven runner and the closed-form baseline (claimed in src/serving/scheduler.rs:14-18),
    with one role per GPU: what the event-driven runner reports is the two-stage closed form, and it is what the
    baseline reports if and only if the two closed forms start every decode at the same moment. */
module Equivalence {
  import opened Numbers
  import opened Simulation
  import opened Cluster
  import opened Requests
  import NR = NoReuse
  import opened Machine
  import opened Lifecycle
  import opened Traces
  import opened EventDriven
  import opened TieFree
  import opened Fcfs
  import opened TwoStage
  import opened Refinement

  // ---- the results of a finished run ----

  lemma SameElements<T>(a: seq<T>, b: seq<T>)
    requires |a| == |b| && DistinctElements(b) && forall x | x in b :: x in a
    ensures multiset(a) == multiset(b)
  {
    forall x ensures multiset(b)[x] <= multiset(a)[x] {
      AtMostOnce(b, x);
      if x in multiset(b) { assert x in b; }
    }
    assert multiset(b) <= multiset(a);
    assert |multiset(a) - multiset(b)| == |multiset(a)| - |multiset(b)| == 0;
  }

  lemma PlannedAnswers(x: Plan, i: nat)
    requires x.Fits() && i < |x.rs|
    ensures x.At(i).Answers(x.rs[i])
  {
    hide Plan.Front, Plan.Back;
    LinePlace(x, i);
    PoolNext(x, x.place[i]);
  }

  /** The results of the plan are listed in the order results are sorted into. */
  lemma PlannedInOrder(x: Plan)
    requires x.Valid()
    ensures var o := x.Results(); SortedBy(o, ResultKey) && DistinctKeys(o, ResultKey) && DistinctElements(o)
  {
    var o := x.Results();
    hide Plan.At, Plan.Front;
    forall i | 0 <= i < |o| ensures ResultKey(o[i]) == RequestKey(x.rs[i]) {
      PlannedAnswers(x, i);
    }
    forall i, j | 0 <= i < j < |o| ensures KeyLeq(ResultKey(o[i]), ResultKey(o[j])) && ResultKey(o[i]) != ResultKey(o[j]) {
      assert KeyLeq(RequestKey(x.rs[i]), RequestKey(x.rs[j]));
      assert x.rs[i].id != x.rs[j].id;
    }
  }

  lemma MirrorsValues(x: Plan, c: Core, p: nat, a: nat, q: nat, s: nat)
    requires x.Fits() && MirrorsAt(x, c, p, a, q, s)
    ensures forall i | 0 <= i < |x.rs| && x.rs[i].id !in c.inFlight :: x.At(i) in c.results
  {
    hide Guarded, Counts, Roles, Arrivals, Past, Plan.At, Plan.Fits, Agrees, Known, Ids;
  }

  lemma AllPlanned(x: Plan, c: Core)
    requires x.Fits() && Mirrors(x, c) && c.inFlight == map[]
    ensures forall o | o in x.Results() :: o in c.results
  {
    hide Plan.At, Plan.Fits, MirrorsAt;
    var p: nat, a: nat, q: nat, s: nat :| MirrorsAt(x, c, p, a, q, s);
    MirrorsValues(x, c, p, a, q, s);
    forall o | o in x.Results() ensures o in c.results {
      var i :| 0 <= i < |x.rs| && x.Results()[i] == o;
      assert x.At(i) in c.results;
    }
  }

  lemma FinishedResults(x: Plan, c: Core)
    requires x.Valid() && Mirrors(x, c) && c.inFlight == map[] && |c.results| == |x.rs|
    ensures SortBy(c.results, ResultKey) == x.Results()
  {
    var o := x.Results();
    hide Plan.Fits, Plan.Valid, Plan.At, Mirrors;
    ValidUnique(x);
    AllPlanned(x, c);
    PlannedInOrder(x);
    SameElements(c.results, o);
    SortSorts(c.results, ResultKey);
    SortedIsUnique(o, SortBy(c.results, ResultKey), ResultKey);
  }

  lemma FollowsSteady(x: Plan, c: Core)
    requires x.Fits() && Follows(x, c)
    ensures Mirrors(x, c) && Steady(c) && (x.ArrivalsApart() ==> Strict(c))
  {
    hide OnTrack, Arrivals, Steady, Timed, Exclusive, Waits, Plan.Fits, Strict, Plan.ArrivalsApart;
    var p: nat, a: nat, q: nat, s: nat :| MirrorsAt(x, c, p, a, q, s);
  }

  lemma DoneAtEnd(c: Core)
    requires Steady(c) && c.sim.pending == {}
    ensures c.inFlight == map[]
  {
    DrainedIsDone(c);
  }

  /** Refinement: on every cluster with one role per GPU whose GPUs are released like the plan's workers, every run of
      the event-driven runner over a plan without harmful ties ends with exactly the results of the two-stage closed
      form, timestamp by timestamp; and it is tie-free throughout unless a request arrives as a decode ends. */
  lemma RunnerIsTwoStage(x: Plan, t: Topology, states: seq<Core>, events: seq<Ev>)
    requires x.Clean() && Matches(x, t)
    requires IsTrace(Turns(x.m), states, events) && states[0] == Loaded(t, x.rs)
    ensures x.ArrivalsApart() ==> forall n | 0 <= n <= |events| :: Strict(states[n])
    ensures states[|events|].sim.pending == {} ==> SortBy(states[|events|].results, ResultKey) == x.Results()
  {
    assert Servable(t, x.rs);
    hide Turns, Follows, Mirrors, Plan.Clean, Plan.Valid, Plan.Fits, Plan.NoTies, Plan.ArrivalsApart, Matches,
      Servable, Steady, Strict, Trace, UniqueIds, OneResultEach, Loaded;
    CleanFits(x);
    LoadedFollows(x, t);
    forall n | 0 <= n <= |events| ensures x.ArrivalsApart() ==> Strict(states[n]) {
      RunMirrors(x, states, events, n);
      FollowsSteady(x, states[n]);
    }
    var c := states[|events|];
    if c.sim.pending == {} {
      RunMirrors(x, states, events, |events|);
      FollowsSteady(x, c);
      DoneAtEnd(c);
      ExactlyOnce(t, x.rs, x.m, states, events);
      SameNumber(c.results, x.rs);
      FinishedResults(x, c);
    }
  }

  /** Over a plan without harmful ties a finished run reports what the baseline reports if and only if the decodes start
      at the same moments whether they are served in order of arrival or in the order in which the prefills end. */
  lemma RunnersAgreeIff(x: Plan, t: Topology, states: seq<Core>, events: seq<Ev>)
    requires x.Clean() && x.Fits() && Matches(x, t)
    requires IsTrace(Turns(x.m), states, events) && states[0] == Loaded(t, x.rs) && states[|events|].sim.pending == {}
    ensures SortBy(states[|events|].results, ResultKey) == NR.ServeAll(x.m, x.w, x.rs) <==> x.SameStarts()
  {
    hide Turns, Plan.Clean, Plan.Fits, Plan.SameStarts, Matches, Loaded, NR.ServeAll;
    RunnerIsTwoStage(x, t, states, events);
    SameResultsIffSameStarts(x);
  }

  lemma SameNumber(results: seq<RequestResult>, rs: seq<Request>)
    requires OneResultEach(results, rs)
    ensures |results| == |rs|
  {}

  // ---- fresh clusters ----

  /** No GPU has been used yet. */
  ghost predicate FreshCluster(t: Topology) {
    forall i, j | 0 <= i < |t| && 0 <= j < |t[i].gpus| :: t[i].gpus[j].busyUntil == 0
  }

  /** How many GPUs serve the role. */
  function GpuCount(t: Topology, role: Role): nat {
    FreeBy(t, role, MAX64)
  }

  lemma {:induction false} FreshOn(gpus: seq<Gpu>, role: Role, a: nat, b: nat)
    requires forall j | 0 <= j < |gpus| :: gpus[j].busyUntil == 0
    ensures FreeOn(gpus, role, a) == FreeOn(gpus, role, b)
  {
    if gpus != [] { FreshOn(gpus[1..], role, a, b); }
  }

  lemma {:induction false} FreshFree(t: Topology, role: Role, a: nat, b: nat)
    requires FreshCluster(t)
    ensures FreeBy(t, role, a) == FreeBy(t, role, b)
  {
    if t != [] {
      FreshOn(t[0].gpus, role, a, b);
      FreshFree(t[1..], role, a, b);
    }
  }

  lemma FreshMatches(t: Topology, role: Role)
    requires FreshCluster(t)
    ensures SameCounts(t, role, NR.Fresh(GpuCount(t, role)))
  {
    forall limit: nat ensures FreeBy(t, role, limit) == NR.FreeBy(NR.Fresh(GpuCount(t, role)), limit) {
      FreshFree(t, role, limit, MAX64);
      NR.FreshCount(GpuCount(t, role), limit);
    }
  }

  lemma CountedIsReady(t: Topology, rs: seq<Request>, role: Role)
    requires Distinct(t) && FreshCluster(t) && GpuCount(t, role) >= 1 && rs != []
    ensures ReadyFor(t, rs, role)
  {
    if forall h: GpuRef | HasGpu(t, h) :: !Serves(GpuAt(t, h), role) {
      FreeByZero(t, role, MAX64);
    }
    var h: GpuRef :| HasGpu(t, h) && Serves(GpuAt(t, h), role);
    assert rs[0] in rs && GpuAt(t, h).busyUntil == 0;
  }

  lemma FreshIsRested(t: Topology, rs: seq<Request>)
    requires Distinct(t) && FreshCluster(t) && GpuCount(t, Prefill) >= 1 && GpuCount(t, Decode) >= 1
    ensures Rested(t, rs)
  {
    if rs != [] {
      CountedIsReady(t, rs, Prefill);
      CountedIsReady(t, rs, Decode);
    }
  }

  // ---- sorting a trace ----

  lemma {:induction false} InsertKeepsUnique(r: Request, rs: seq<Request>)
    requires UniqueIds(rs) && forall k | 0 <= k < |rs| :: rs[k].id != r.id
    ensures UniqueIds(InsertBy(r, rs, RequestKey))
    ensures forall o | o in InsertBy(r, rs, RequestKey) :: o == r || o in rs
  {
    if rs != [] && !KeyLeq(RequestKey(r), RequestKey(rs[0])) {
      InsertKeepsUnique(r, rs[1..]);
      var tail := InsertBy(r, rs[1..], RequestKey);
      forall k | 0 <= k < |tail| ensures tail[k].id != rs[0].id {
        assert tail[k] in tail;
      }
    }
  }

  lemma {:induction false} SortKeepsUnique(rs: seq<Request>)
    requires UniqueIds(rs)
    ensures UniqueIds(SortBy(rs, RequestKey))
  {
    if rs != [] {
      var rest := SortBy(rs[1..], RequestKey);
      SortKeepsUnique(rs[1..]);
      forall k | 0 <= k < |rest| ensures rest[k].id != rs[0].id {
        assert rest[k] in multiset(rest);
        assert rest[k] in rs[1..];
      }
      InsertKeepsUnique(rs[0], rest);
    }
  }

  lemma SortedTrace(requests: seq<Request>)
    requires UniqueIds(requests) && |requests| < MAX64
    ensures Trace(SortBy(requests, RequestKey))
  {
    SortKeepsUnique(requests);
    SortSorts(requests, RequestKey);
  }

  /** The two-stage schedule of a trace on `p` prefill and `d` decode workers. */
  function PlanFor(m: Engine, p: nat, d: nat, requests: seq<Request>): Plan {
    PlanOf(m, NR.Workers(NR.Fresh(p), NR.Fresh(d)), SortBy(requests, RequestKey))
  }

  lemma PlanForShape(m: Engine, p: nat, d: nat, requests: seq<Request>)
    requires p >= 1 && d >= 1
    ensures var x := PlanFor(m, p, d, requests);
            && x.m == m && x.w == NR.Workers(NR.Fresh(p), NR.Fresh(d)) && x.w.Valid()
            && x.rs == SortBy(requests, RequestKey) && x == PlanOf(m, x.w, x.rs)
  {
    hide SortBy, LineOf, PlacesOf;
  }

  /** The computed plan always fits; below this only makes the absence of ties well defined. */
  lemma PlanForFits(m: Engine, p: nat, d: nat, requests: seq<Request>)
    requires p >= 1 && d >= 1
    ensures PlanFor(m, p, d, requests).Fits()
  {
    hide *;
    PlanForShape(m, p, d, requests);
    PlanOfFits(m, PlanFor(m, p, d, requests).w, PlanFor(m, p, d, requests).rs);
  }

  lemma PlanForMatches(t: Topology, m: Engine, requests: seq<Request>)
    requires Distinct(t) && FreshCluster(t) && Disaggregated(t)
    requires GpuCount(t, Prefill) >= 1 && GpuCount(t, Decode) >= 1
    requires UniqueIds(requests) && |requests| < MAX64
    ensures var x := PlanFor(m, GpuCount(t, Prefill), GpuCount(t, Decode), requests);
            x.Valid() && x.Fits() && Matches(x, t) && x.rs == SortBy(requests, RequestKey) && x.m == m
  {
    var x := PlanFor(m, GpuCount(t, Prefill), GpuCount(t, Decode), requests);
    hide GpuCount, SameCounts, Rested, Trace, Plan.Valid, Plan.Fits, PlanFor, PlanOf, SortBy, Distinct, FreshCluster,
      Disaggregated, UniqueIds, NR.Fresh;
    PlanForShape(m, GpuCount(t, Prefill), GpuCount(t, Decode), requests);
    SortedTrace(requests);
    PlanOfValid(m, x.w, x.rs);
    ValidUnique(x);
    FreshMatches(t, Prefill);
    FreshMatches(t, Decode);
    FreshIsRested(t, x.rs);
  }

  /** On a fresh cluster of `p` prefill and `d` decode GPUs, for any `p` and `d`, a finished run of the event-driven
      runner reports the two-stage closed form of the trace, provided that schedule has no harmful ties. */
  lemma ReportsTwoStage(t: Topology, m: Engine, requests: seq<Request>, states: seq<Core>, events: seq<Ev>)
    requires Distinct(t) && FreshCluster(t) && Disaggregated(t)
    requires GpuCount(t, Prefill) >= 1 && GpuCount(t, Decode) >= 1
    requires UniqueIds(requests) && |requests| < MAX64
    requires var x := PlanFor(m, GpuCount(t, Prefill), GpuCount(t, Decode), requests); x.Fits() && x.NoTies()
    requires IsTrace(Turns(m), states, events) && states[0] == Loaded(t, SortBy(requests, RequestKey))
    requires states[|events|].sim.pending == {}
    ensures var x := PlanFor(m, GpuCount(t, Prefill), GpuCount(t, Decode), requests);
            SortBy(states[|events|].results, ResultKey) == x.Results()
  {
    hide GpuCount, Turns, Loaded, PlanFor, Plan.Fits, Plan.Valid, Plan.NoTies, Matches;
    PlanForMatches(t, m, requests);
    RunnerIsTwoStage(PlanFor(m, GpuCount(t, Prefill), GpuCount(t, Decode), requests), t, states, events);
  }

  /** The exact extent of the claimed equivalence: on a fresh cluster of `p` prefill and `d` decode GPUs, without
      harmful ties, the event-driven runner reports what `NoReuseRunner` with `p` and `d` workers reports if and only if
      the decode starts in order of arrival and in order of prefill completion coincide. Both sides of that condition
      are computed from the trace alone. */
  lemma EquivalentIff(t: Topology, m: Engine, requests: seq<Request>, states: seq<Core>, events: seq<Ev>)
    requires Distinct(t) && FreshCluster(t) && Disaggregated(t)
    requires GpuCount(t, Prefill) >= 1 && GpuCount(t, Decode) >= 1
    requires UniqueIds(requests) && |requests| < MAX64
    requires var x := PlanFor(m, GpuCount(t, Prefill), GpuCount(t, Decode), requests); x.Fits() && x.NoTies()
    requires IsTrace(Turns(m), states, events) && states[0] == Loaded(t, SortBy(requests, RequestKey))
    requires states[|events|].sim.pending == {}
    ensures var x := PlanFor(m, GpuCount(t, Prefill), GpuCount(t, Decode), requests);
            SortBy(states[|events|].results, ResultKey) == NR.ServeAll(m, x.w, x.rs) <==> x.SameStarts()
  {
    hide GpuCount, Turns, Loaded, PlanFor, Plan.Fits, Plan.Valid, Plan.NoTies, Plan.SameStarts, Matches, NR.ServeAll;
    PlanForMatches(t, m, requests);
    RunnersAgreeIff(PlanFor(m, GpuCount(t, Prefill), GpuCount(t, Decode), requests), t, states, events);
  }

  /** In particular they agree when prefills end in order of arrival; the schedule without ties is then the baseline's
      own. */
  lemma EquivalentWhenClean(t: Topology, m: Engine, requests: seq<Request>, states: seq<Core>, events: seq<Ev>)
    requires Distinct(t) && FreshCluster(t) && Disaggregated(t)
    requires GpuCount(t, Prefill) >= 1 && GpuCount(t, Decode) >= 1
    requires UniqueIds(requests) && |requests| < MAX64
    requires var x := PlanFor(m, GpuCount(t, Prefill), GpuCount(t, Decode), requests);
             x.Fits() && x.w.Valid() && x.NoTies() && x.InStep()
    requires IsTrace(Turns(m), states, events) && states[0] == Loaded(t, SortBy(requests, RequestKey))
    requires states[|events|].sim.pending == {}
    ensures var x := PlanFor(m, GpuCount(t, Prefill), GpuCount(t, Decode), requests);
            SortBy(states[|events|].results, ResultKey) == NR.ServeAll(m, x.w, x.rs)
  {
    hide GpuCount, Turns, Loaded, PlanFor, Plan.Fits, Plan.Valid, Plan.NoTies, Plan.SameStarts, Plan.InStep, Matches,
      NR.ServeAll;
    PlanForMatches(t, m, requests);
    InStepSameStarts(PlanFor(m, GpuCount(t, Prefill), GpuCount(t, Decode), requests));
    EquivalentIff(t, m, requests, states, events);
  }

  // ---- one prefill GPU ----

  /** A single prefill worker completes prefills in arrival order. */
  lemma OnePrefillStep(x: Plan, i: nat)
    requires x.w.Valid() && |x.w.prefill| == 1 && i + 1 < |x.rs|
    ensures x.Front(i).prefillDone <= x.Front(i + 1).prefillDone
  {
    hide Plan.Front, Plan.Fore;
    ForeNext(x, i);
    ForeNext(x, i + 1);
    OneWorkerWaits(x.Fore(i), x.Front(i).prefillDone);
  }

  lemma OneWorkerWaits(ws: seq<u64>, until: u64)
    requires |ws| == 1
    ensures NR.FreeAt(NR.Claim(ws, until)) == until
  {}

  lemma {:induction false} OnePrefillOrder(x: Plan, i: nat, j: nat)
    requires x.w.Valid() && |x.w.prefill| == 1 && i <= j < |x.rs|
    ensures x.Front(i).prefillDone <= x.Front(j).prefillDone
  {
    hide Plan.Front;
    if i < j {
      OnePrefillOrder(x, i, j - 1);
      OnePrefillStep(x, j - 1);
    }
  }

  lemma OnePrefillInStep(x: Plan)
    requires x.w.Valid() && |x.w.prefill| == 1
    ensures x.InStep()
  {
    forall i, j | 0 <= i < j < |x.rs| ensures x.Front(i).prefillDone <= x.Front(j).prefillDone {
      OnePrefillOrder(x, i, j);
    }
  }

  lemma OneWorkerPlan(m: Engine, d: nat, requests: seq<Request>)
    requires d >= 1
    ensures var x := PlanFor(m, 1, d, requests); x.w.Valid() && |x.w.prefill| == 1
  {}

  /** With one prefill GPU and any number of decode GPUs, the absence of harmful ties is all that is needed. */
  lemma EquivalentWithOnePrefillGpu(t: Topology, m: Engine, requests: seq<Request>, states: seq<Core>, events: seq<Ev>)
    requires Distinct(t) && FreshCluster(t) && Disaggregated(t)
    requires GpuCount(t, Prefill) == 1 && GpuCount(t, Decode) >= 1
    requires UniqueIds(requests) && |requests| < MAX64
    requires var x := PlanFor(m, 1, GpuCount(t, Decode), requests); x.Fits() && x.NoTies()
    requires IsTrace(Turns(m), states, events) && states[0] == Loaded(t, SortBy(requests, RequestKey))
    requires states[|events|].sim.pending == {}
    ensures var x := PlanFor(m, 1, GpuCount(t, Decode), requests);
            x.w.Valid() && SortBy(states[|events|].results, ResultKey) == NR.ServeAll(m, x.w, x.rs)
  {
    hide GpuCount, Turns, Loaded, PlanFor, Plan.Fits, Plan.NoTies, Plan.InStep, NR.ServeAll;
    OneWorkerPlan(m, GpuCount(t, Decode), requests);
    OnePrefillInStep(PlanFor(m, 1, GpuCount(t, Decode), requests));
    EquivalentWhenClean(t, m, requests, states, events);
  }
}
