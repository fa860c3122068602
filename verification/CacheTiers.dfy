/** The books of the cache-aware runner tier by tier: each credited hit counts for the tier in which the prefix lay when
    its request arrived. */
module CacheTiers {
  import opened Numbers
  import opened Simulation
  import opened Cluster
  import opened Requests
  import opened Tiers
  import opened Machine
  import opened Lifecycle
  import ED = EventDriven
  import opened Traces
  import opened CacheRunner
  import CL = CacheLifecycle
  import opened CacheMoves
  import opened CacheLedger
  import opened CacheArrivals
  import Transfer
  import Cache

  // ---- the trace's view ----

  /** Where the prefixes lie that requests found on arrival, after one more event. */
  function HomesAfter<T>(w: World<T>, e: Ev, homes: map<u64, Location>, book: map<u64, Request>): map<u64, Location> {
    if e.kind.RequestArrival? && e.kind.id in book && Prefix(w.cache, book[e.kind.id]).Some?
    then homes[e.kind.id := Prefix(w.cache, book[e.kind.id]).value.location] else homes
  }

  /** For each request that found a stored prefix among the first `n` events, the place where it lay at that moment. */
  function Homes<T>(worlds: seq<World<T>>, events: seq<Ev>, n: nat, book: map<u64, Request>): map<u64, Location>
    requires n <= |events| < |worlds|
  {
    if n == 0 then map[] else HomesAfter(worlds[n-1], events[n-1], Homes(worlds, events, n - 1, book), book)
  }

  function FoundOnGpu(credited: set<u64>, homes: map<u64, Location>): set<u64> {
    set id | id in credited && id in homes && homes[id].InGpu?
  }

  function FoundOnCpu(credited: set<u64>, homes: map<u64, Location>): set<u64> {
    set id | id in credited && id in homes && homes[id].InCpu?
  }

  function FoundRemote(credited: set<u64>, homes: map<u64, Location>): set<u64> {
    set id | id in credited && id in homes && (homes[id].InRemoteMemory? || homes[id].InRemoteSsd?)
  }

  // ---- the invariant ----

  /** Each counter is the number of credited requests whose prefix lay in its tier, and no credited request lies
      anywhere else. */
  ghost predicate ByTier(k: Counters, credited: set<u64>, homes: map<u64, Location>) {
    && k.hitsGpu == |FoundOnGpu(credited, homes)|
    && k.hitsCpu == |FoundOnCpu(credited, homes)|
    && k.hitsRemote == |FoundRemote(credited, homes)|
    && AllFound(credited, homes)
  }

  ghost predicate AllFound(credited: set<u64>, homes: map<u64, Location>) {
    forall id | id in credited ::
      id in homes && (homes[id].InGpu? || homes[id].InCpu? || homes[id].InRemoteMemory? || homes[id].InRemoteSsd?)
  }

  /** The tier a request carries while it is fetched from there. */
  predicate CarriedFrom(l: Location, tier: Option<TierKind>) {
    || (l.InCpu? && tier == Some(CpuTier))
    || (l.InRemoteMemory? && tier == Some(RemoteMemoryTier))
    || (l.InRemoteSsd? && tier == Some(RemoteSsdTier))
  }

  /** Requests being fetched carry the tier of their prefix. */
  ghost predicate Sourced(c: Core, homes: map<u64, Location>) {
    forall id | id in Fetching(c.sim.pending) ::
      id in homes && id in c.inFlight && CarriedFrom(homes[id], c.inFlight[id].fetchTier)
  }

  /** Requests still to arrive or being fetched are not credited, and the former have no place yet. */
  ghost predicate Uncredited(c: Core, credited: set<u64>, homes: map<u64, Location>) {
    && (forall id | id in Arriving(c.sim.pending) :: id !in credited && id !in homes)
    && (forall id | id in Fetching(c.sim.pending) :: id !in credited)
  }

  ghost predicate Tiered<T>(w: World<T>, credited: set<u64>, homes: map<u64, Location>) {
    ByTier(w.counters, credited, homes) && Sourced(w.core, homes) && Uncredited(w.core, credited, homes)
  }

  // ---- counting ----

  /** A request that is not credited may get a place. */
  lemma PlaceKeeps(k: Counters, credited: set<u64>, homes: map<u64, Location>, id: u64, l: Location)
    requires ByTier(k, credited, homes) && id !in credited
    ensures ByTier(k, credited, homes[id := l])
  {
    var h := homes[id := l];
    assert FoundOnGpu(credited, h) == FoundOnGpu(credited, homes);
    assert FoundOnCpu(credited, h) == FoundOnCpu(credited, homes);
    assert FoundRemote(credited, h) == FoundRemote(credited, homes);
  }

  lemma GpuGrows(credited: set<u64>, homes: map<u64, Location>, id: u64)
    requires id !in credited && id in homes
    ensures |FoundOnGpu(credited + {id}, homes)| == |FoundOnGpu(credited, homes)| + if homes[id].InGpu? then 1 else 0
  {
    var one := if homes[id].InGpu? then {id} else {};
    assert FoundOnGpu(credited + {id}, homes) == FoundOnGpu(credited, homes) + one && FoundOnGpu(credited, homes) !! one;
  }

  lemma CpuGrows(credited: set<u64>, homes: map<u64, Location>, id: u64)
    requires id !in credited && id in homes
    ensures |FoundOnCpu(credited + {id}, homes)| == |FoundOnCpu(credited, homes)| + if homes[id].InCpu? then 1 else 0
  {
    var one := if homes[id].InCpu? then {id} else {};
    assert FoundOnCpu(credited + {id}, homes) == FoundOnCpu(credited, homes) + one && FoundOnCpu(credited, homes) !! one;
  }

  lemma RemoteGrows(credited: set<u64>, homes: map<u64, Location>, id: u64)
    requires id !in credited && id in homes
    ensures |FoundRemote(credited + {id}, homes)|
            == |FoundRemote(credited, homes)| + if homes[id].InRemoteMemory? || homes[id].InRemoteSsd? then 1 else 0
  {
    var one := if homes[id].InRemoteMemory? || homes[id].InRemoteSsd? then {id} else {};
    assert FoundRemote(credited + {id}, homes) == FoundRemote(credited, homes) + one;
    assert FoundRemote(credited, homes) !! one;
  }

  /** Crediting a request raises the counter of the tier its prefix lies in. */
  lemma CreditCounts(k: Counters, k': Counters, credited: set<u64>, homes: map<u64, Location>, id: u64)
    requires ByTier(k, credited, homes) && id !in credited && id in homes
    requires homes[id].InGpu? || homes[id].InCpu? || homes[id].InRemoteMemory? || homes[id].InRemoteSsd?
    requires k'.hitsGpu == k.hitsGpu + if homes[id].InGpu? then 1 else 0
    requires k'.hitsCpu == k.hitsCpu + if homes[id].InCpu? then 1 else 0
    requires k'.hitsRemote == k.hitsRemote + if homes[id].InRemoteMemory? || homes[id].InRemoteSsd? then 1 else 0
    ensures ByTier(k', credited + {id}, homes)
  {
    hide FoundOnGpu, FoundOnCpu, FoundRemote;
    GpuGrows(credited, homes, id);
    CpuGrows(credited, homes, id);
    RemoteGrows(credited, homes, id);
  }

  lemma SameCounts(k: Counters, k': Counters, credited: set<u64>, homes: map<u64, Location>)
    requires ByTier(k, credited, homes)
    requires k'.hitsGpu == k.hitsGpu && k'.hitsCpu == k.hitsCpu && k'.hitsRemote == k.hitsRemote
    ensures ByTier(k', credited, homes)
  {}

  // ---- arrivals ----

  /** What an arrival does to the events and the tiers carried. */
  lemma ProceedsTiers<T>(w0: World<T>, w: World<T>, m: Engine, e: Ev, c': Core, tokens: u32, tier: Option<TierKind>,
                         credited: set<u64>, more: set<u64>, homes: map<u64, Location>, after: map<u64, Location>)
    requires Opened(w, w0, e) && !e.kind.Completes() && Sourced(w0.core, homes) && Uncredited(w0.core, credited, homes)
    requires Proceeds(m, w.core, c', e.kind.id, tokens, tier)
    requires forall id | id != e.kind.id :: (id in more <==> id in credited) && (id in after <==> id in homes)
    requires forall id | id != e.kind.id && id in homes :: after[id] == homes[id]
    requires e.kind.RequestArrival? ==> e.kind.id !in Fetching(w0.core.sim.pending)
    ensures Sourced(c', after) && Uncredited(c', more, after)
  {
    hide Arriving, Fetching;
    assert Arriving(w.core.sim.pending) == Arriving(w0.core.sim.pending) - {e.kind.id};
    assert Fetching(w.core.sim.pending) == Fetching(w0.core.sim.pending) - {e.kind.id};
    hide Opened, CarriedFrom;
    assert w.core.inFlight == w0.core.inFlight by { OpenedInFlight(w0, w, e); }
    ProceedsKinds(m, w.core, c', e.kind.id, tokens, tier);
  }

  lemma OpenedInFlight<T>(w0: World<T>, w: World<T>, e: Ev)
    requires Opened(w, w0, e)
    ensures w.core.inFlight == w0.core.inFlight && w.cache == w0.cache && w.counters == w0.counters
  {
    hide Arriving, Fetching;
  }

  lemma OneEventEach(c: Core, id: u64)
    requires Located(c, {}) && id in Arriving(c.sim.pending)
    ensures id !in Fetching(c.sim.pending)
  {}

  lemma ArrivingIsNew<T>(w0: World<T>, w: World<T>, e: Ev, credited: set<u64>, homes: map<u64, Location>)
    requires Tiered(w0, credited, homes) && Opened(w, w0, e) && e.kind.RequestArrival?
    ensures e.kind.id !in credited && e.kind.id !in homes && ByTier(w0.counters, credited, homes)
    ensures Sourced(w0.core, homes) && Uncredited(w0.core, credited, homes)
  {
    assert e.kind.id in Arriving(w0.core.sim.pending);
    hide Arriving, Fetching, ByTier, Sourced;
  }

  lemma OneCredited<T>(w0: World<T>, e: Ev, w': World<T>)
    ensures w'.counters.Hits() == w0.counters.Hits() ==> CreditedBy(w0, e, w') == {}
    ensures w'.counters.Hits() == w0.counters.Hits() + 1 ==> CreditedBy(w0, e, w') == {e.kind.id}
  {}

  /** A request whose prefix is on a GPU. */
  lemma HitTiered<T>(w0: World<T>, w: World<T>, x: Setup<T>, e: Ev, kv: Cache.KvObject, w': World<T>,
                     credited: set<u64>, homes: map<u64, Location>)
    requires Tiered(w0, credited, homes) && Opened(w, w0, e) && e.kind.RequestArrival? && kv.location.InGpu?
    requires Hit(w, x, e.kind.id, kv, w') && e.kind.id !in Fetching(w0.core.sim.pending)
    ensures Tiered(w', credited + {e.kind.id}, homes[e.kind.id := kv.location])
    ensures CreditedBy(w0, e, w') == {e.kind.id}
  {
    var id, after := e.kind.id, homes[e.kind.id := kv.location];
    hide Arriving, Fetching, ByTier, Proceeds, Opened, Sourced, Uncredited, CreditedBy, Cache.UpdateAccess;
    OpenedInFlight(w0, w, e);
    ArrivingIsNew(w0, w, e, credited, homes);
    OneCredited(w0, e, w');
    PlaceKeeps(w0.counters, credited, homes, id, kv.location);
    CreditCounts(w0.counters, w'.counters, credited, after, id);
    var f := w.core.inFlight[id];
    ProceedsTiers(w0, w, x.engine, e, w'.core, RestOf(f), f.fetchTier, credited, credited + {id}, homes, after);
  }

  /** A request that has to be prefilled in full. */
  lemma MissTiered<T>(w0: World<T>, w: World<T>, x: Setup<T>, e: Ev, found: Option<Cache.KvObject>,
                       w': World<T>, credited: set<u64>, homes: map<u64, Location>)
    requires Tiered(w0, credited, homes) && Opened(w, w0, e) && e.kind.RequestArrival?
    requires Missed(w, x, e.kind.id, w') || FetchFailed(w, x, e.kind.id, w')
    requires e.kind.id !in Fetching(w0.core.sim.pending)
    ensures Tiered(w', credited, if found.Some? then homes[e.kind.id := found.value.location] else homes)
    ensures CreditedBy(w0, e, w') == {}
  {
    var id := e.kind.id;
    var after := if found.Some? then homes[id := found.value.location] else homes;
    hide Arriving, Fetching, ByTier, Proceeds, Opened, Sourced, Uncredited, CreditedBy;
    OpenedInFlight(w0, w, e);
    ArrivingIsNew(w0, w, e, credited, homes);
    OneCredited(w0, e, w');
    if found.Some? { PlaceKeeps(w0.counters, credited, homes, id, found.value.location); }
    SameCounts(w0.counters, w'.counters, credited, after);
    var f := w.core.inFlight[id];
    if Missed(w, x, id, w') {
      ProceedsTiers(w0, w, x.engine, e, w'.core, f.req.promptTokens, f.fetchTier, credited, credited, homes, after);
    } else {
      ProceedsTiers(w0, w, x.engine, e, w'.core, f.req.promptTokens, None, credited, credited, homes, after);
    }
  }

  lemma AwaitEvents(c: Core, id: u64, finish: u64)
    ensures Arriving(AwaitFetch(c, id, finish).sim.pending) == Arriving(c.sim.pending)
    ensures Fetching(AwaitFetch(c, id, finish).sim.pending) == Fetching(c.sim.pending) + {id}
    ensures AwaitFetch(c, id, finish).inFlight == c.inFlight
  {
    AddEvent(c.sim.pending, Event(finish, c.sim.nextSeq, FetchDone(id)));
  }

  /** A request whose prefix is fetched. */
  lemma FetchTiered<T>(w0: World<T>, w: World<T>, e: Ev, tier: TierKind, l: Location, bytes: u64, transfer: T, finish: u64,
                       w': World<T>, credited: set<u64>, homes: map<u64, Location>)
    requires Tiered(w0, credited, homes) && Opened(w, w0, e) && e.kind.RequestArrival?
    requires Fetched(w, e.kind.id, tier, bytes, transfer, finish, w') && CarriedFrom(l, Some(tier))
    ensures Tiered(w', credited, homes[e.kind.id := l]) && CreditedBy(w0, e, w') == {}
  {
    var id, after := e.kind.id, homes[e.kind.id := l];
    hide Arriving, Fetching, ByTier, CarriedFrom, Opened, Sourced, Uncredited, CreditedBy, AwaitFetch, Tag;
    OpenedInFlight(w0, w, e);
    ArrivingIsNew(w0, w, e, credited, homes);
    OneCredited(w0, e, w');
    PlaceKeeps(w0.counters, credited, homes, id, l);
    SameCounts(w0.counters, w'.counters, credited, after);
    FetchedAwaits(w, id, tier, bytes, transfer, finish, w');
    FetchSourced(w0, w, e, w.core.inFlight[id].prefillTokens, tier, l, finish, credited, homes);
  }

  lemma FetchSourced<T>(w0: World<T>, w: World<T>, e: Ev, tokens: u32, tier: TierKind, l: Location, finish: u64,
                        credited: set<u64>, homes: map<u64, Location>)
    requires Opened(w, w0, e) && e.kind.RequestArrival? && e.kind.id in w.core.inFlight && CarriedFrom(l, Some(tier))
    requires Sourced(w0.core, homes) && Uncredited(w0.core, credited, homes) && e.kind.id !in credited
    ensures var c' := AwaitFetch(Tag(w.core, e.kind.id, tokens, Some(tier)), e.kind.id, finish);
            Sourced(c', homes[e.kind.id := l]) && Uncredited(c', credited, homes[e.kind.id := l])
  {
    var id := e.kind.id;
    var tagged := Tag(w.core, id, tokens, Some(tier));
    hide Arriving, Fetching, CarriedFrom;
    OpenedInFlight(w0, w, e);
    assert Arriving(w.core.sim.pending) == Arriving(w0.core.sim.pending) - {id};
    assert Fetching(w.core.sim.pending) == Fetching(w0.core.sim.pending) - {id};
    AwaitEvents(tagged, id, finish);
    hide Opened, AwaitFetch;
  }

  lemma AwayCarries(found: Option<Cache.KvObject>, path: Transfer.Path, tier: TierKind)
    requires Away(found, path, tier)
    ensures CarriedFrom(found.value.location, Some(tier))
  {}

  lemma ArrivalTiered<T>(w0: World<T>, w: World<T>, x: Setup<T>, e: Ev, credited: set<u64>, homes: map<u64, Location>,
                         book: map<u64, Request>)
    requires Tiered(w0, credited, homes) && Opened(w, w0, e) && e.kind.RequestArrival? && OfBook(w0.core, book)
    requires Distinct(w.core.cluster) && e.kind.id in w.core.inFlight && Located(w0.core, {})
    ensures var w' := OnArrival(w, x, e.kind.id);
            Tiered(w', credited + CreditedBy(w0, e, w'), HomesAfter(w0, e, homes, book))
  {
    var id, w' := e.kind.id, OnArrival(w, x, e.kind.id);
    assert id in Arriving(w0.core.sim.pending);
    OneEventEach(w0.core, id);
    OpenedInFlight(w0, w, e);
    var found := Prefix(w.cache, w.core.inFlight[id].req);
    assert id in book && w.core.inFlight[id].req == book[id];
    var after := HomesAfter(w0, e, homes, book);
    assert after == if found.Some? then homes[id := found.value.location] else homes;
    assert credited + {} == credited;
    ArrivalSplits(w, x, id);
    SomewhereOrUnusable(found);
    hide Tiered, Opened, OfBook, HomesAfter, OnArrival, Prefix, CreditedBy, Fetching, Arriving, Hit, Fetched, Missed,
      FetchFailed, Distinct, Located, CarriedFrom;
    if OnGpu(found) {
      HitTiered(w0, w, x, e, found.value, w', credited, homes);
    } else if path, tier :| Away(found, path, tier) {
      AwayCarries(found, path, tier);
      assert FetchedOrFailed(w, x, id, found.value, path, tier, w');
      var (transfer, finish) := x.estimate(w.transfer, w.core.Now(), path, found.value.bytes);
      if finish.Some? {
        FetchTiered(w0, w, e, tier, found.value.location, found.value.bytes, transfer, finish.value, w', credited, homes);
      } else {
        MissTiered(w0, w, x, e, found, w', credited, homes);
      }
    } else {
      MissTiered(w0, w, x, e, found, w', credited, homes);
    }
  }

  // ---- the end of a fetch ----

  /** Which counter the end of a fetch raises. */
  lemma CreditTier<T>(w: World<T>, id: u64, l: Location)
    requires id in w.core.inFlight && CarriedFrom(l, w.core.inFlight[id].fetchTier)
    ensures var k, k' := w.counters, Credit(w, id).counters;
            && k'.hitsGpu == k.hitsGpu
            && k'.hitsCpu == k.hitsCpu + (if l.InCpu? then 1 else 0)
            && k'.hitsRemote == k.hitsRemote + (if l.InRemoteMemory? || l.InRemoteSsd? then 1 else 0)
  {}

  lemma FetchEndTiered<T>(w0: World<T>, w: World<T>, x: Setup<T>, e: Ev, w': World<T>, credited: set<u64>,
                          homes: map<u64, Location>)
    requires Tiered(w0, credited, homes) && Opened(w, w0, e) && e.kind.FetchDone?
    requires FetchEnded(w, x, e.kind.id, w')
    ensures Tiered(w', credited + {e.kind.id}, homes) && CreditedBy(w0, e, w') == {e.kind.id}
  {
    var id := e.kind.id;
    assert id in Fetching(w0.core.sim.pending);
    OpenedInFlight(w0, w, e);
    hide Arriving, Fetching, ByTier, Proceeds, Opened, Credit;
    assert id in homes && CarriedFrom(homes[id], w.core.inFlight[id].fetchTier) && id !in credited;
    CreditTier(w, id, homes[id]);
    CreditCounts(w0.counters, w'.counters, credited, homes, id);
    ProceedsTiers(w0, w, x.engine, e, w'.core, RestOf(w.core.inFlight[id]), None, credited, credited + {id}, homes, homes);
  }

  // ---- completions ----

  lemma CompletionTiered<T>(w0: World<T>, w: World<T>, m: Engine, e: Ev, a: Core, w': World<T>, credited: set<u64>,
                            homes: map<u64, Location>)
    requires Tiered(w0, credited, homes) && Opened(w, w0, e) && e.kind.Completes() && Calm(m, a, w'.core)
    requires SameBooks(w0.counters, w'.counters) && a.sim.pending == w.core.sim.pending
    requires forall id | id in w0.core.inFlight && id != e.kind.id ::
               id in a.inFlight && a.inFlight[id] == w0.core.inFlight[id]
    ensures Tiered(w', credited, homes) && CreditedBy(w0, e, w') == {}
  {
    assert e.kind.id !in Fetching(w0.core.sim.pending);
    hide Arriving, Fetching, ByTier, CarriedFrom;
    SameKinds(w0, w, e);
    SameCounts(w0.counters, w'.counters, credited, homes);
  }

  lemma PrefillDoneTiered<T>(w0: World<T>, w: World<T>, x: Setup<T>, e: Ev, credited: set<u64>, homes: map<u64, Location>)
    requires Tiered(w0, credited, homes) && Opened(w, w0, e) && e.kind.PrefillDone? && CanServe(w.core, e)
    ensures var w' := OnPrefillDone(w, x, e.kind.id, e.kind.gpu);
            Tiered(w', credited, homes) && CreditedBy(w0, e, w') == {}
  {
    var id, g := e.kind.id, e.kind.gpu;
    OpenedInFlight(w0, w, e);
    hide Tiered, Opened, Calm, StoreKv, HasGpu, SetBusy, ED.OnPrefillDone, DispatchDecode, AssignPrefill, AssignDecode,
      Distinct, CreditedBy;
    StoreKvBooks(w.(core := Release(w.core, g)), x, id);
    CL.PrefillDoneCore(w, x, id, g);
    PrefillDoneCalm(w.core, x.engine, id, g);
    CompletionTiered(w0, w, x.engine, e, w.core, OnPrefillDone(w, x, id, g), credited, homes);
  }

  lemma DecodeDoneTiered<T>(w0: World<T>, w: World<T>, x: Setup<T>, e: Ev, credited: set<u64>, homes: map<u64, Location>)
    requires Tiered(w0, credited, homes) && Opened(w, w0, e) && e.kind.DecodeDone? && CanServe(w.core, e)
    ensures var w' := OnDecodeDone(w, x, e.kind.id, e.kind.gpu);
            Tiered(w', credited, homes) && CreditedBy(w0, e, w') == {}
  {
    var id, g := e.kind.id, e.kind.gpu;
    OpenedInFlight(w0, w, e);
    hide Tiered, Opened, Calm, HasGpu, SetBusy, ED.OnDecodeDone, Distinct, CreditedBy;
    DecodeDoneCalm(w.core, x.engine, id, g);
    CompletionTiered(w0, w, x.engine, e, Finish(w.core, id), OnDecodeDone(w, x, id, g), credited, homes);
  }

  // ---- turns and runs ----

  lemma ServeTiered<T>(w0: World<T>, w: World<T>, x: Setup<T>, e: Ev, credited: set<u64>, homes: map<u64, Location>,
                       book: map<u64, Request>)
    requires Tiered(w0, credited, homes) && Opened(w, w0, e) && CanServe(w.core, e) && OfBook(w0.core, book)
    requires e.kind.id in w.core.inFlight && Located(w0.core, {})
    ensures var w' := Serve(w, x, e);
            Tiered(w', credited + CreditedBy(w0, e, w'), HomesAfter(w0, e, homes, book))
  {
    assert credited + {} == credited;
    assert !e.kind.RequestArrival? ==> HomesAfter(w0, e, homes, book) == homes;
    hide Tiered, Opened, OfBook, Located, OnArrival, OnPrefillDone, OnFetchDone, OnDecodeDone, FetchEnded, CreditedBy,
      HomesAfter;
    match e.kind {
      case RequestArrival(id) => ArrivalTiered(w0, w, x, e, credited, homes, book);
      case PrefillDone(id, g) => PrefillDoneTiered(w0, w, x, e, credited, homes);
      case DecodeDone(id, g) => DecodeDoneTiered(w0, w, x, e, credited, homes);
      case FetchDone(id) =>
        FetchDoneMoves(w, x, id);
        FetchEndTiered(w0, w, x, e, OnFetchDone(w, x, id), credited, homes);
    }
  }

  /** The loop invariant with the tiers. */
  ghost predicate InTiers<T>(w: World<T>, credited: set<u64>, homes: map<u64, Location>, book: map<u64, Request>) {
    CL.Steady(w.core) && Accounted(w.core, book) && Tiered(w, credited, homes)
  }

  lemma SteadyLocated(c: Core, book: map<u64, Request>)
    requires CL.Steady(c) && Accounted(c, book)
    ensures Located(c, {}) && OfBook(c, book)
  {}

  lemma TurnTiered<T(!new)>(x: Setup<T>, w: World<T>, e: Ev, w': World<T>, credited: set<u64>,
                            homes: map<u64, Location>, book: map<u64, Request>)
    requires InTiers(w, credited, homes, book) && Turns(x)(w, e, w')
    ensures InTiers(w', credited + CreditedBy(w, e, w'), HomesAfter(w, e, homes, book), book)
  {
    SteadyLocated(w.core, book);
    hide CL.Steady, Accounted, Tiered, Serve, Located, OfBook, Opened, CreditedBy, HomesAfter;
    assert Turn(w, x, e, w');
    CL.TurnKeeps(w, x, e, w');
    CL.TurnAccounted(w, x, e, w', book);
    TurnOpens(w, x, e, w');
    ServeTiered(w, PopWorld(w, e), x, e, credited, homes, book);
  }

  lemma {:induction false} RunTiered<T(!new)>(x: Setup<T>, worlds: seq<World<T>>, events: seq<Ev>, n: nat,
                                              book: map<u64, Request>)
    requires IsTrace(Turns(x), worlds, events) && InTiers(worlds[0], {}, map[], book) && n <= |events|
    ensures InTiers(worlds[n], Credited(worlds, events, n), Homes(worlds, events, n, book), book)
  {
    hide Turns, InTiers, IsTrace, HomesAfter, CreditedBy;
    if n > 0 {
      TraceStep(Turns(x), worlds, events, n - 1);
      RunTiered(x, worlds, events, n - 1, book);
      TurnTiered(x, worlds[n-1], events[n-1], worlds[n], Credited(worlds, events, n - 1),
          Homes(worlds, events, n - 1, book), book);
    }
  }

  lemma NothingByTier(k: Counters)
    requires k.hitsGpu == 0 && k.hitsCpu == 0 && k.hitsRemote == 0
    ensures ByTier(k, {}, map[])
  {
    assert FoundOnGpu({}, map[]) == {} && FoundOnCpu({}, map[]) == {} && FoundRemote({}, map[]) == {};
  }

  lemma BeginTiered<T>(t: Topology, rs: seq<Request>, cache: Cache.State, transfer: T)
    requires ED.Servable(t, rs) && UniqueIds(rs)
    ensures InTiers(Begin(t, rs, cache, transfer), {}, map[], Book(rs))
  {
    hide CL.Steady, Accounted, ED.Servable, Loaded, Book, Arriving, Fetching, ByTier, UniqueIds;
    CL.LoadedSteady(t, rs);
    LoadedArriving(t, rs);
    NothingByTier(NoCounts());
  }

  /** The ledger tier by tier: after every event the counters for GPU, CPU and remote hits are the numbers of credited
      requests whose prefix, when they arrived, lay on a GPU, in CPU memory, and in remote memory or on remote SSD. */
  lemma HitsByTier<T(!new)>(t: Topology, rs: seq<Request>, x: Setup<T>, cache: Cache.State, transfer: T,
                            worlds: seq<World<T>>, events: seq<Ev>, n: nat)
    requires ED.Servable(t, rs) && UniqueIds(rs)
    requires IsTrace(Turns(x), worlds, events) && worlds[0] == Begin(t, rs, cache, transfer) && n <= |events|
    ensures var k, homes := worlds[n].counters, Homes(worlds, events, n, Book(rs));
            var credited := Credited(worlds, events, n);
            && k.hitsGpu == |FoundOnGpu(credited, homes)|
            && k.hitsCpu == |FoundOnCpu(credited, homes)|
            && k.hitsRemote == |FoundRemote(credited, homes)|
            && AllFound(credited, homes)
  {
    hide Turns, ED.Servable, UniqueIds, Begin, Book, Credited, Homes, CL.Steady, Accounted, FoundOnGpu, FoundOnCpu,
      FoundRemote, Sourced, Uncredited, AllFound;
    BeginTiered(t, rs, cache, transfer);
    RunTiered(x, worlds, events, n, Book(rs));
  }
}
