/** Every run of the cache-aware runner serves every request exactly once, whatever the policy does and however
    fetches turn out. */
module CacheLifecycle {
  import opened Numbers
  import opened Simulation
  import opened Cluster
  import opened Requests
  import opened Tiers
  import opened Machine
  import opened Lifecycle
  import ED = EventDriven
  import opened Traces
  import opened CacheRunner
  import Cache

  // ---- steps of the serving machine the cache adds ----

  /** Tagging a request changes nothing the serving machine depends on. */
  lemma TagKeeps(c: Core, id: u64, tokens: u32, tier: Option<TierKind>, loose: set<u64>)
    requires Sound(c, loose) && id in c.inFlight
    ensures var c' := Tag(c, id, tokens, tier);
            && Sound(c', loose) && Continues(c, c') && c'.sim == c.sim && c'.cluster == c.cluster
            && c'.prefillQueue == c.prefillQueue && c'.decodeQueue == c.decodeQueue
  {
    var c' := Tag(c, id, tokens, tier);
    assert c'.inFlight.Keys == c.inFlight.Keys;
    TagStaged(c, id, tokens, tier);
  }

  lemma TagStaged(c: Core, id: u64, tokens: u32, tier: Option<TierKind>)
    requires Staged(c) && id in c.inFlight
    ensures Staged(Tag(c, id, tokens, tier))
  {
    var c' := Tag(c, id, tokens, tier);
    forall e | e in c'.sim.pending && e.kind.id in c'.inFlight ensures StageOf(c'.inFlight[e.kind.id], e, c'.Now()) {
      assert StageOf(c.inFlight[e.kind.id], e, c.Now());
    }
  }

  lemma AwaitFetchLocated(c: Core, id: u64, finish: u64)
    requires Located(c, {id})
    ensures Located(AwaitFetch(c, id, finish), {})
    ensures c.Now() <= finish ==> Extends(c.sim, AwaitFetch(c, id, finish).sim)
  {
    var e := Event(finish, c.sim.nextSeq, FetchDone(id));
    LooseIsNotPending(c, id, e);
    ScheduledLocated(c, AwaitFetch(c, id, finish), e);
    hide Located;
    if c.Now() <= finish { ScheduledExtends(c.sim, finish, FetchDone(id)); }
  }

  lemma AwaitFetchWeight(c: Core, id: u64, finish: u64)
    requires Located(c, {id})
    ensures Remaining(AwaitFetch(c, id, finish), 4) == Remaining(c, 4) + 3
  {
    var e := Event(finish, c.sim.nextSeq, FetchDone(id));
    LooseIsNotPending(c, id, e);
    ScheduledWeight(c.sim.pending, e, 4);
  }

  lemma AwaitFetchKeeps(c: Core, id: u64, finish: u64)
    requires Sound(c, {id}) && Unstarted(c.inFlight[id]) && c.inFlight[id].req.arrival <= c.Now()
    ensures var c' := AwaitFetch(c, id, finish);
            && Sound(c', {}) && SameRequests(c, c') && SameShape(c.cluster, c'.cluster) && KeepsStaff(c, c')
            && (c.Now() <= finish ==> Extends(c.sim, c'.sim))
            && Remaining(c', 4) == Remaining(c, 4) + 3
  {
    assert id in c.inFlight && Distinct(c.cluster);
    assert Grounded(AwaitFetch(c, id, finish));
    hide Located, Staged, Grounded, Unstarted, Extends, Remaining;
    AwaitFetchLocated(c, id, finish);
    AwaitFetchWeight(c, id, finish);
    AwaitFetchStaged(c, id, finish);
    AwaitFetchStaff(c, id, finish);
  }

  lemma AwaitFetchStaged(c: Core, id: u64, finish: u64)
    requires Sound(c, {id}) && Unstarted(c.inFlight[id]) && c.inFlight[id].req.arrival <= c.Now()
    ensures Staged(AwaitFetch(c, id, finish))
  {
    var c' := AwaitFetch(c, id, finish);
    forall e | e in c'.sim.pending && e.kind.id in c'.inFlight ensures StageOf(c'.inFlight[e.kind.id], e, c'.Now()) {
      if e in c.sim.pending { assert StageOf(c.inFlight[e.kind.id], e, c.Now()); }
    }
  }

  lemma AwaitFetchStaff(c: Core, id: u64, finish: u64)
    ensures KeepsStaff(c, AwaitFetch(c, id, finish))
  {
    var c' := AwaitFetch(c, id, finish);
    hide Staffed;
    if Staffed(c.cluster, c.sim, Prefill) { StaffGrows(c.cluster, c.sim, c'.sim, Prefill); }
    if Staffed(c.cluster, c.sim, Decode) { StaffGrows(c.cluster, c.sim, c'.sim, Decode); }
  }

  // ---- what a handler leaves behind ----

  /** After the handler of `e`: everything located and live, same cluster and requests, and at least the allowance of
      one event used up; nothing was scheduled into the past unless a fetch was. */
  ghost predicate Done(c: Core, c': Core, allowance: nat, timely: bool) {
    && Sound(c', {}) && Live(c') && SameShape(c.cluster, c'.cluster) && KeepsStaff(c, c')
    && Remaining(c', 4) <= Remaining(c, 4) + allowance
    && (timely ==> Extends(c.sim, c'.sim))
  }

  ghost predicate DoneSame(c: Core, c': Core, allowance: nat, timely: bool) {
    Done(c, c', allowance, timely) && SameRequests(c, c')
  }

  lemma DispatchPrefillDone(c: Core, m: Engine, id: u64, tokens: u32, tier: Option<TierKind>, timely: bool)
    requires Sound(c, {id}) && Staffed(c.cluster, c.sim, Prefill)
    requires Unstarted(c.inFlight[id]) && c.inFlight[id].req.arrival <= c.Now()
    ensures var c' := DispatchPrefill(Tag(c, id, tokens, tier), m, id);
            DoneSame(c, c', 2, timely) && Continues(c, c') && Active(c')
  {
    assert id in c.inFlight;
    var c1 := Tag(c, id, tokens, tier);
    TagKeeps(c, id, tokens, tier, {id});
    assert Unstarted(c1.inFlight[id]) && c1.inFlight[id].req.arrival <= c1.Now();
    TagWeight(c, c1);
    hide Located, Staged, Grounded, Staffed, Unstarted, Remaining, Tag, DispatchPrefill, Active, SameRequests;
    DispatchPrefillKeeps(c1, m, id);
    DispatchPrefillWeight(c1, m, id, 4);
    ContinuesTransitive(c, c1, DispatchPrefill(c1, m, id));
  }

  lemma TagWeight(c: Core, c1: Core)
    requires c1.sim == c.sim && c1.prefillQueue == c.prefillQueue && c1.decodeQueue == c.decodeQueue
    ensures Remaining(c1, 4) == Remaining(c, 4)
  {}

  lemma DispatchDecodeDone(c: Core, m: Engine, id: u64, timely: bool)
    requires Sound(c, {id}) && Staffed(c.cluster, c.sim, Decode) && Prefilled(c.inFlight[id], c.Now())
    ensures var c' := DispatchDecode(c, m, id);
            DoneSame(c, c', 2, timely) && Continues(c, c') && Active(c')
  {
    assert id in c.inFlight && Distinct(c.cluster);
    hide Located, Staged, Grounded, Staffed, Prefilled, Remaining, DispatchDecode, Active, SameRequests;
    DispatchDecodeKeeps(c, m, id);
    DispatchDecodeWeight(c, m, id, 4);
  }

  /** A hit with tokens left goes to prefill; one without goes to decode. */
  lemma PrefillRestDone<T>(w: World<T>, x: Setup<T>, id: u64, timely: bool)
    requires Sound(w.core, {id})
    requires Staffed(w.core.cluster, w.core.sim, Prefill) && Staffed(w.core.cluster, w.core.sim, Decode)
    requires Unstarted(w.core.inFlight[id]) && w.core.inFlight[id].req.arrival <= w.core.Now()
    ensures Distinct(w.core.cluster) && id in w.core.inFlight
    ensures var c' := PrefillRest(w, x, id).core;
            DoneSame(w.core, c', 2, timely) && Continues(w.core, c') && Active(c')
  {
    assert id in w.core.inFlight && Distinct(w.core.cluster);
    assert Prefilled(w.core.inFlight[id], w.core.Now());
    hide DoneSame, Sound, Continues, Active, Unstarted, DispatchPrefill, DispatchDecode, Staffed, Prefilled, Tag;
    var tokens := w.core.inFlight[id].req.newPromptTokens;
    if tokens == 0 {
      DispatchDecodeDone(w.core, x.engine, id, timely);
    } else {
      DispatchPrefillDone(w.core, x.engine, id, tokens, w.core.inFlight[id].fetchTier, timely);
    }
  }

  /** The transfer model never ends a transfer before it is asked for. */
  ghost predicate Timely<T(!new)>(x: Setup<T>) {
    forall t: T, now: u64, p, bytes: u64 :: x.estimate(t, now, p, bytes).1.Some? ==> now <= x.estimate(t, now, p, bytes).1.value
  }

  lemma AwaitFetchDone(c: Core, id: u64, finish: u64, timely: bool)
    requires Sound(c, {id}) && (timely ==> c.Now() <= finish)
    requires Unstarted(c.inFlight[id]) && c.inFlight[id].req.arrival <= c.Now()
    ensures DoneSame(c, AwaitFetch(c, id, finish), 3, timely)
  {
    assert Event(finish, c.sim.nextSeq, FetchDone(id)) in AwaitFetch(c, id, finish).sim.pending;
    assert Live(AwaitFetch(c, id, finish));
    hide Sound, Live, Unstarted, Extends, SameRequests, SameShape, KeepsStaff, Remaining, AwaitFetch;
    AwaitFetchKeeps(c, id, finish);
  }

  /** What the estimate decides: wait for the fetch, or prefill everything. */
  lemma StartFetchCore<T>(w: World<T>, x: Setup<T>, id: u64, p: Transfer.Path, bytes: u64)
    requires Distinct(w.core.cluster) && id in w.core.inFlight
    ensures var finish := x.estimate(w.transfer, w.core.Now(), p, bytes).1;
            StartFetch(w, x, id, p, bytes).core ==
              if finish.Some? then AwaitFetch(w.core, id, finish.value)
              else DispatchPrefill(Tag(w.core, id, w.core.inFlight[id].req.promptTokens, None), x.engine, id)
  {
    hide DispatchPrefill, Tag, AwaitFetch, Distinct;
  }

  lemma StartFetchDone<T(!new)>(w: World<T>, x: Setup<T>, id: u64, p: Transfer.Path, bytes: u64)
    requires Sound(w.core, {id}) && Staffed(w.core.cluster, w.core.sim, Prefill)
    requires Unstarted(w.core.inFlight[id]) && w.core.inFlight[id].req.arrival <= w.core.Now()
    ensures Distinct(w.core.cluster) && id in w.core.inFlight
    ensures DoneSame(w.core, StartFetch(w, x, id, p, bytes).core, 3, Timely(x))
  {
    assert id in w.core.inFlight && Distinct(w.core.cluster);
    var finish := x.estimate(w.transfer, w.core.Now(), p, bytes).1;
    StartFetchCore(w, x, id, p, bytes);
    assert Timely(x) && finish.Some? ==> w.core.Now() <= finish.value;
    hide Sound, Live, Unstarted, DispatchPrefill, Staffed, Tag, StartFetch, AwaitFetch, DoneSame, Timely;
    if finish.Some? {
      AwaitFetchDone(w.core, id, finish.value, Timely(x));
    } else {
      DispatchPrefillDone(w.core, x.engine, id, w.core.inFlight[id].req.promptTokens, None, Timely(x));
      WiderAllowance(w.core, StartFetch(w, x, id, p, bytes).core, 2, 3, Timely(x));
    }
  }

  lemma WiderAllowance(c: Core, c': Core, a: nat, b: nat, timely: bool)
    requires DoneSame(c, c', a, timely) && a <= b
    ensures DoneSame(c, c', b, timely)
  {}

  lemma DoneAfterTag(c: Core, id: u64, tokens: u32, tier: Option<TierKind>, c': Core, allowance: nat, timely: bool)
    requires Sound(c, {id}) && id in c.inFlight && DoneSame(Tag(c, id, tokens, tier), c', allowance, timely)
    ensures DoneSame(c, c', allowance, timely)
  {
    var c1 := Tag(c, id, tokens, tier);
    hide Sound, Live, Extends, Remaining, SameShape, SameRequests, KeepsStaff, Tag;
    TagKeeps(c, id, tokens, tier, {id});
    TagWeight(c, c1);
    SoundDistinct(c, {id});
    SameRequestsTransitive(c, c1, c');
    assert SameShape(c.cluster, c'.cluster) && KeepsStaff(c, c') by { hide *; TagIsTransparent(c, c1, c'); }
  }

  lemma SoundDistinct(c: Core, loose: set<u64>)
    requires Sound(c, loose)
    ensures Distinct(c.cluster)
  {}

  lemma SameRequestsTransitive(a: Core, b: Core, c: Core)
    requires SameRequests(a, b) && SameRequests(b, c)
    ensures SameRequests(a, c)
  {}

  lemma TagIsTransparent(c: Core, c1: Core, c': Core)
    requires c1.cluster == c.cluster && c1.sim == c.sim && SameShape(c1.cluster, c'.cluster) && KeepsStaff(c1, c')
    ensures SameShape(c.cluster, c'.cluster) && KeepsStaff(c, c')
  {
    hide Staffed, SameShape;
  }

  lemma HitElsewhereDone<T(!new)>(w: World<T>, x: Setup<T>, id: u64, kv: Cache.KvObject)
    requires Sound(w.core, {id}) && Staffed(w.core.cluster, w.core.sim, Prefill)
    requires Unstarted(w.core.inFlight[id]) && w.core.inFlight[id].req.arrival <= w.core.Now()
    requires FetchPath(kv.location).Some?
    ensures Distinct(w.core.cluster) && id in w.core.inFlight
    ensures DoneSame(w.core, HitElsewhere(w, x, id, kv).core, 3, Timely(x))
  {
    assert id in w.core.inFlight && Distinct(w.core.cluster);
    var (p, tier) := FetchPath(kv.location).value;
    var f := w.core.inFlight[id];
    var w1 := w.(counters := w.counters.(pendingFetches := w.counters.pendingFetches + 1),
                 core := Tag(w.core, id, f.prefillTokens, Some(tier)));
    assert Unstarted(w1.core.inFlight[id]) && w1.core.inFlight[id].req.arrival <= w1.core.Now();
    assert w1.core.cluster == w.core.cluster;
    hide Live, Unstarted, Staffed, Tag, Timely, StartFetch, DoneSame, Sound;
    TagKeeps(w.core, id, f.prefillTokens, Some(tier), {id});
    StartFetchDone(w1, x, id, p, kv.bytes);
    DoneAfterTag(w.core, id, f.prefillTokens, Some(tier), StartFetch(w1, x, id, p, kv.bytes).core, 3, Timely(x));
  }

  lemma ReadyUnstarted(c: Core, e: Ev)
    requires ED.Ready(c, e) && !e.kind.Completes()
    ensures Distinct(c.cluster) && Sound(c, {e.kind.id}) && e.kind.id in c.inFlight
    ensures Unstarted(c.inFlight[e.kind.id]) && c.inFlight[e.kind.id].req.arrival <= c.Now()
    ensures Staffed(c.cluster, c.sim, Prefill) && Staffed(c.cluster, c.sim, Decode)
  {
    hide Staffed;
  }

  lemma ArrivalDone<T(!new)>(w: World<T>, x: Setup<T>, e: Ev)
    requires ED.Ready(w.core, e) && e.kind.RequestArrival?
    ensures Distinct(w.core.cluster)
    ensures DoneSame(w.core, OnArrival(w, x, e.kind.id).core, 3, Timely(x))
  {
    var id := e.kind.id;
    hide ED.Ready, Sound, Live, Unstarted, Staffed, DispatchPrefill, DoneSame, HitElsewhere, PrefillRest, Timely, Tag,
      FindPrefix, Continues, Active, Distinct;
    ReadyUnstarted(w.core, e);
    match FindPrefix(w.cache, w.core.inFlight[id].req)
    case None =>
      DispatchPrefillDone(w.core, x.engine, id, w.core.inFlight[id].req.promptTokens, w.core.inFlight[id].fetchTier,
          Timely(x));
      WiderAllowance(w.core, OnArrival(w, x, id).core, 2, 3, Timely(x));
    case Some(kv) =>
      if kv.location.InGpu? {
        var w1 := w.(counters := w.counters.(hitsGpu := w.counters.hitsGpu + 1),
                     cache := Cache.UpdateAccess(w.cache, kv.kvId, w.core.Now()));
        PrefillRestDone(w1, x, id, Timely(x));
        WiderAllowance(w.core, OnArrival(w, x, id).core, 2, 3, Timely(x));
      } else if FetchPath(kv.location).Some? {
        HitElsewhereDone(w, x, id, kv);
      } else {
        DispatchPrefillDone(w.core, x.engine, id, w.core.inFlight[id].req.promptTokens,
            w.core.inFlight[id].fetchTier, Timely(x));
        WiderAllowance(w.core, OnArrival(w, x, id).core, 2, 3, Timely(x));
      }
  }

  // ---- completions ----

  /** Storing KV does not touch the serving machine. */
  lemma PrefillDoneCore<T>(w: World<T>, x: Setup<T>, id: u64, g: GpuRef)
    requires Distinct(w.core.cluster) && HasGpu(w.core.cluster, g)
    ensures OnPrefillDone(w, x, id, g).core == ED.OnPrefillDone(w.core, x.engine, id, g)
  {
    hide DispatchDecode, AssignPrefill, AssignDecode, Release;
  }

  lemma PrefillDoneDone<T(!new)>(w: World<T>, x: Setup<T>, e: Ev)
    requires ED.Ready(w.core, e) && e.kind.PrefillDone?
    ensures Distinct(w.core.cluster) && HasGpu(w.core.cluster, e.kind.gpu)
    ensures DoneSame(w.core, OnPrefillDone(w, x, e.kind.id, e.kind.gpu).core, 1, Timely(x))
  {
    assert Distinct(w.core.cluster) && HasGpu(w.core.cluster, e.kind.gpu);
    hide ED.Ready, Located, Staged, Grounded, Live, SameShape, Extends, SameRequests, OnPrefillDone, ED.OnPrefillDone,
      Remaining;
    PrefillDoneCore(w, x, e.kind.id, e.kind.gpu);
    ED.PrefillDoneHandled(w.core, x.engine, e, 4);
  }

  lemma DecodeDoneDone<T(!new)>(w: World<T>, x: Setup<T>, e: Ev)
    requires ED.Ready(w.core, e) && e.kind.DecodeDone?
    ensures Distinct(w.core.cluster) && HasGpu(w.core.cluster, e.kind.gpu)
    ensures Done(w.core, OnDecodeDone(w, x, e.kind.id, e.kind.gpu).core, 0, Timely(x))
    ensures SameRequests(Finish(Release(w.core, e.kind.gpu), e.kind.id), OnDecodeDone(w, x, e.kind.id, e.kind.gpu).core)
  {
    assert Distinct(w.core.cluster) && HasGpu(w.core.cluster, e.kind.gpu);
    hide ED.Ready, Located, Staged, Grounded, Live, SameShape, Extends, SameRequests, ED.OnDecodeDone, Remaining;
    ED.DecodeDoneHandled(w.core, x.engine, e, 4);
  }

  // ---- the end of a fetch ----

  lemma CreditCore<T>(w: World<T>, id: u64)
    requires id in w.core.inFlight
    ensures Credit(w, id).core == Tag(w.core, id, w.core.inFlight[id].prefillTokens, None)
  {}

  lemma QueuesDrained(c: Core, m: Engine)
    requires Sound(c, {}) && Active(c)
    ensures var c' := AssignPrefill(AssignDecode(c, m), m);
            Sound(c', {}) && Continues(c, c') && Active(c') && Remaining(c', 4) == Remaining(c, 4)
  {
    assert Distinct(c.cluster);
    hide Located, Staged, Grounded, Active, Continues, Remaining, AssignPrefill, AssignDecode;
    var d := AssignDecode(c, m);
    AssignDecodeKeeps(c, m);
    AssignDecodeWeight(c, m, 4);
    AssignPrefillKeeps(d, m);
    AssignPrefillWeight(d, m, 4);
    ContinuesTransitive(c, d, AssignPrefill(d, m));
    PendingKept(c, AssignPrefill(d, m));
    ED.ActiveStays(c, AssignPrefill(d, m));
  }

  lemma PendingKept(a: Core, b: Core)
    requires Continues(a, b)
    ensures a.sim.pending <= b.sim.pending
  {}

  lemma ContinuesDone(c: Core, c': Core, allowance: nat, timely: bool)
    requires Sound(c', {}) && Active(c') && Continues(c, c') && Remaining(c', 4) <= Remaining(c, 4) + allowance
    ensures DoneSame(c, c', allowance, timely)
  {
    hide Sound, Active, Remaining, Extends, SameShape, SameRequests;
  }

  lemma FetchDoneDone<T(!new)>(w: World<T>, x: Setup<T>, e: Ev)
    requires ED.Ready(w.core, e) && e.kind.FetchDone?
    ensures Distinct(w.core.cluster)
    ensures DoneSame(w.core, OnFetchDone(w, x, e.kind.id).core, 2, Timely(x))
  {
    var id := e.kind.id;
    assert Distinct(w.core.cluster) && id in w.core.inFlight;
    assert Unstarted(w.core.inFlight[id]) && w.core.inFlight[id].req.arrival <= w.core.Now() && Sound(w.core, {id});
    assert Staffed(w.core.cluster, w.core.sim, Prefill) && Staffed(w.core.cluster, w.core.sim, Decode);
    var w1 := Credit(w, id);
    CreditCore(w, id);
    TagKeeps(w.core, id, w.core.inFlight[id].prefillTokens, None, {id});
    TagWeight(w.core, w1.core);
    assert id in w1.core.inFlight && Unstarted(w1.core.inFlight[id])
        && w1.core.inFlight[id].req.arrival <= w1.core.Now();
    assert w1.core.cluster == w.core.cluster;
    hide ED.Ready, Sound, Live, Unstarted, Staffed, Tag, Timely, Credit, PrefillRest, Active, Remaining,
      AssignPrefill, AssignDecode, Continues, Extends, SameShape, SameRequests;
    PrefillRestDone(w1, x, id, Timely(x));
    var w2 := PrefillRest(w1, x, id);
    QueuesDrained(w2.core, x.engine);
    ContinuesTransitive(w.core, w1.core, w2.core);
    ContinuesTransitive(w.core, w2.core, OnFetchDone(w, x, id).core);
    ContinuesDone(w.core, OnFetchDone(w, x, id).core, 2, Timely(x));
  }

  // ---- turns ----

  /** What holds whenever the loop looks for its next event. */
  ghost predicate Steady(c: Core) {
    Located(c, {}) && Staged(c) && Grounded(c) && Live(c) && ED.Manned(c)
  }

  lemma PoppedReady(c: Core, e: Ev)
    requires Steady(c) && e in c.sim.pending && Earliest(e, c.sim.pending)
    ensures ED.Ready(Pop(c, e), e)
  {
    hide Located, Staged, Grounded, Live, ED.Manned, ED.Ready;
    ED.PoppedIsReady(c, e);
  }

  lemma PopWeight(c: Core, e: Ev)
    requires e in c.sim.pending
    ensures Remaining(c, 4) == Remaining(Pop(c, e), 4) + Weight(e.kind, 4)
  {
    WeightOf(c.sim.pending, e, 4);
  }

  lemma ServeDone<T(!new)>(w: World<T>, x: Setup<T>, e: Ev)
    requires ED.Ready(w.core, e)
    ensures CanServe(w.core, e)
    ensures Done(w.core, Serve(w, x, e).core, Weight(e.kind, 4) - 1, Timely(x))
    ensures !e.kind.DecodeDone? ==> SameRequests(w.core, Serve(w, x, e).core)
  {
    hide ED.Ready, Done, Live, SameRequests, OnArrival, OnPrefillDone, OnFetchDone, OnDecodeDone, Timely;
    match e.kind {
      case RequestArrival(id) => ArrivalDone(w, x, e);
      case PrefillDone(id, g) => PrefillDoneDone(w, x, e);
      case FetchDone(id) => FetchDoneDone(w, x, e);
      case DecodeDone(id, g) => DecodeDoneDone(w, x, e);
    }
  }

  lemma SteadyAgain(p: Core, c': Core, e: Ev, allowance: nat, timely: bool)
    requires ED.Ready(p, e) && Done(p, c', allowance, timely)
    ensures Steady(c')
  {
    hide Staffed;
  }

  /** Every turn keeps the loop invariant and uses up at least one of the events still allowed. */
  lemma TurnKeeps<T(!new)>(w: World<T>, x: Setup<T>, e: Ev, w': World<T>)
    requires Steady(w.core) && Turn(w, x, e, w')
    ensures Steady(w'.core) && Remaining(w'.core, 4) < Remaining(w.core, 4)
    ensures Timely(x) ==> Extends(Pop(w.core, e).sim, w'.core.sim)
  {
    hide ED.Ready, Serve, Steady, Timely, Located, Staged, Grounded, Live, Extends, SameShape, SameRequests,
      KeepsStaff, Remaining, Earliest, Pop;
    PoppedReady(w.core, e);
    PopWeight(w.core, e);
    ServeDone(PopWorld(w, e), x, e);
    SteadyAgain(Pop(w.core, e), w'.core, e, Weight(e.kind, 4) - 1, Timely(x));
  }

  lemma TurnAccounted<T(!new)>(w: World<T>, x: Setup<T>, e: Ev, w': World<T>, book: map<u64, Request>)
    requires Steady(w.core) && Turn(w, x, e, w') && Accounted(w.core, book)
    ensures Accounted(w'.core, book)
  {
    PoppedReady(w.core, e);
    var p := PopWorld(w, e);
    ContinuesAccounted(w.core, p.core, book);
    assert forall id | id in w.core.inFlight :: w.core.inFlight[id].req.id == id;
    hide Accounted, SameRequests, Serve, Steady, Finish, Timely, Done;
    ServeDone(p, x, e);
    if e.kind.DecodeDone? {
      hide ED.Ready, Release;
      FinishesOne(p, x, e, book);
    } else {
      ContinuesAccounted(p.core, w'.core, book);
    }
  }

  lemma FinishesOne<T(!new)>(p: World<T>, x: Setup<T>, e: Ev, book: map<u64, Request>)
    requires ED.Ready(p.core, e) && e.kind.DecodeDone? && Accounted(p.core, book)
    requires forall id | id in p.core.inFlight :: p.core.inFlight[id].req.id == id
    ensures CanServe(p.core, e) && Accounted(Serve(p, x, e).core, book)
  {
    assert HasGpu(p.core.cluster, e.kind.gpu);
    hide ED.Ready, Accounted, SameRequests, Finish, Timely, Done, OnDecodeDone, Release, SetBusy, HasGpu, Distinct;
    DecodeDoneDone(p, x, e);
    ED.ReleaseAccounted(p.core, e.kind.gpu, book);
    FinishAccounted(Release(p.core, e.kind.gpu), e.kind.id, book);
    ContinuesAccounted(Finish(Release(p.core, e.kind.gpu), e.kind.id), Serve(p, x, e).core, book);
  }

  // ---- whole runs ----

  /** The loop invariant with its budget: `i` events are handled, at most `total` there can be. */
  ghost predicate SteadyWithin(i: nat, c: Core, book: map<u64, Request>, total: int) {
    Steady(c) && Accounted(c, book) && Remaining(c, 4) + i <= total
  }

  lemma TurnSteady<T(!new)>(x: Setup<T>, i: nat, w: World<T>, e: Ev, w': World<T>, book: map<u64, Request>, total: int)
    requires SteadyWithin(i, w.core, book, total) && Turns(x)(w, e, w')
    ensures SteadyWithin(i + 1, w'.core, book, total)
  {
    hide Steady, Accounted, Remaining;
    TurnKeeps(w, x, e, w');
    TurnAccounted(w, x, e, w', book);
  }

  lemma {:induction false} RunSteady<T(!new)>(x: Setup<T>, worlds: seq<World<T>>, events: seq<Ev>, n: nat,
                                             book: map<u64, Request>, total: int)
    requires IsTrace(Turns(x), worlds, events) && SteadyWithin(0, worlds[0].core, book, total) && n <= |events|
    ensures SteadyWithin(n, worlds[n].core, book, total)
  {
    hide *;
    if n > 0 {
      TraceStep(Turns(x), worlds, events, n - 1);
      RunSteady(x, worlds, events, n - 1, book, total);
      TurnSteady(x, n - 1, worlds[n-1], events[n-1], worlds[n], book, total);
    }
  }

  lemma LoadedSteady(t: Topology, rs: seq<Request>)
    requires ED.Servable(t, rs) && UniqueIds(rs)
    ensures SteadyWithin(0, Loaded(t, rs), Book(rs), 4 * |rs|)
  {
    LoadedQuiet(t, rs);
    LoadedLocated(t, rs);
    LoadedStaged(t, rs);
    ED.LoadedManned(t, rs);
    LoadedRemaining(t, rs, 4);
    LoadedAccounted(t, rs);
  }

  lemma NothingLeft(c: Core)
    requires Located(c, {}) && Live(c) && c.sim.pending == {}
    ensures c.inFlight == map[] && Remaining(c, 4) == 0
  {
    ED.DrainedIsDone(c);
  }

  lemma StateWithin(c: Core, i: nat, rs: seq<Request>)
    requires UniqueIds(rs) && SteadyWithin(i, c, Book(rs), 4 * |rs|)
    ensures i <= 4 * |rs|
    ensures c.sim.pending == {} ==> OneResultEach(c.results, rs)
    ensures forall o | o in c.results :: o.InOrder()
  {
    if c.sim.pending == {} {
      NothingLeft(c);
      AllAccounted(c, rs);
    }
  }

  /** Exactly once, with any placement policy and any outcome of the fetches, on a cold or warm cache: a run handles
      at most four events per request, and when nothing is pending any more there is one ordered result for each
      request. */
  lemma ExactlyOnce<T(!new)>(t: Topology, rs: seq<Request>, x: Setup<T>, worlds: seq<World<T>>, events: seq<Ev>)
    requires ED.Servable(t, rs) && UniqueIds(rs)
    requires IsTrace(Turns(x), worlds, events) && worlds[0].core == Loaded(t, rs)
    ensures |events| <= 4 * |rs|
    ensures worlds[|events|].core.sim.pending == {} ==> OneResultEach(worlds[|events|].core.results, rs)
    ensures forall o | o in worlds[|events|].core.results :: o.InOrder()
  {
    hide Turns, SteadyWithin, ED.Servable, OneResultEach;
    LoadedSteady(t, rs);
    RunSteady(x, worlds, events, |events|, Book(rs), 4 * |rs|);
    StateWithin(worlds[|events|].core, |events|, rs);
  }

  // ---- GPUs released too late ----

  /** No request of the trace finds a stored prefix. */
  ghost predicate NoHits(cache: Cache.State, rs: seq<Request>) {
    forall r | r in rs :: FindPrefix(cache, r) == None
  }

  /** Nothing has happened but arrivals that missed. */
  ghost predicate Idling<T>(w: World<T>, t: Topology, rs: seq<Request>) {
    ED.Idling(w.core, t, rs) && NoHits(w.cache, rs) && forall id | id in w.core.inFlight :: w.core.inFlight[id].req in rs
  }

  lemma TurnIdles<T(!new)>(t: Topology, rs: seq<Request>, x: Setup<T>, w: World<T>, e: Ev, w': World<T>)
    requires Distinct(t) && ED.AllLate(t, rs, Prefill)
    requires Idling(w, t, rs) && Turns(x)(w, e, w')
    ensures Idling(w', t, rs)
  {
    var p := PopWorld(w, e);
    assert e.kind.RequestArrival?;
    ED.LateArrivalQueues(t, rs, w.core, e);
    if e.kind.id in w.core.inFlight {
      assert FindPrefix(p.cache, p.core.inFlight[e.kind.id].req) == None;
    }
  }

  lemma {:induction false} RunIdles<T(!new)>(t: Topology, rs: seq<Request>, x: Setup<T>, worlds: seq<World<T>>,
                                             events: seq<Ev>, n: nat)
    requires Distinct(t) && ED.AllLate(t, rs, Prefill)
    requires IsTrace(Turns(x), worlds, events) && Idling(worlds[0], t, rs) && n <= |events|
    ensures Idling(worlds[n], t, rs)
  {
    hide *;
    if n > 0 {
      TraceStep(Turns(x), worlds, events, n - 1);
      RunIdles(t, rs, x, worlds, events, n - 1);
      TurnIdles(t, rs, x, worlds[n-1], events[n-1], worlds[n]);
    }
  }

  lemma LoadedIdles<T>(t: Topology, rs: seq<Request>, w: World<T>)
    requires w.core == Loaded(t, rs) && NoHits(w.cache, rs)
    ensures Idling(w, t, rs)
  {
    ED.LoadedIdles(t, rs);
    LoadedInFlight(t, rs);
    forall id | id in w.core.inFlight ensures w.core.inFlight[id].req in rs {
      BookEntry(rs, id);
    }
  }

  /** When every prefill GPU is released after the last arrival and no request finds a stored prefix, no run ever
      produces a result. */
  lemma LateGpusStrandAll<T(!new)>(t: Topology, rs: seq<Request>, x: Setup<T>, worlds: seq<World<T>>, events: seq<Ev>)
    requires Distinct(t) && ED.AllLate(t, rs, Prefill)
    requires IsTrace(Turns(x), worlds, events) && worlds[0].core == Loaded(t, rs) && NoHits(worlds[0].cache, rs)
    ensures worlds[|events|].core.results == []
  {
    hide Turns, ED.AllLate, Loaded, NoHits;
    LoadedIdles(t, rs, worlds[0]);
    RunIdles(t, rs, x, worlds, events, |events|);
  }

  /** Given a decode GPU released by the last arrival, and no stored prefix to be found at the start, a finished run has
      served every request exactly once if and only if some prefill GPU is released by the last arrival too. */
  lemma ServedIffReady<T(!new)>(t: Topology, rs: seq<Request>, x: Setup<T>, worlds: seq<World<T>>, events: seq<Ev>)
    requires Distinct(t) && UniqueIds(rs) && rs != [] && ED.ReadyFor(t, rs, Decode)
    requires IsTrace(Turns(x), worlds, events) && worlds[0].core == Loaded(t, rs) && NoHits(worlds[0].cache, rs)
    requires worlds[|events|].core.sim.pending == {}
    ensures OneResultEach(worlds[|events|].core.results, rs) <==> ED.ReadyFor(t, rs, Prefill)
  {
    hide Turns, ED.AllLate, ED.ReadyFor, Loaded, NoHits;
    ED.LateOrReady(t, rs, Prefill);
    if ED.ReadyFor(t, rs, Prefill) {
      ExactlyOnce(t, rs, x, worlds, events);
    } else {
      LateGpusStrandAll(t, rs, x, worlds, events);
    }
  }

  /** The loop never meets an event it cannot handle. */
  lemma TurnExists<T(!new)>(w: World<T>, x: Setup<T>, e: Ev)
    requires Steady(w.core) && e in w.core.sim.pending && Earliest(e, w.core.sim.pending)
    ensures CanServe(Pop(w.core, e), e) && Turn(w, x, e, Serve(PopWorld(w, e), x, e))
  {
    ED.PoppedIsReady(w.core, e);
  }
}
