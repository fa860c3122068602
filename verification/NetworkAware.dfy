/** Network-aware placement: tiers ranked by utility, the best one that can hold the object at all
    (src/policy/network_aware.rs). Utilities are mathematical integers. */
module NetworkAware {
  import opened Numbers
  import opened Tiers
  import opened Cache
  import opened Lru
  import opened CacheStore
  import opened Cluster
  import opened Transfer
  import opened Placement

  const I128_MAX: nat := 0x7FFF_FFFF_FFFF_FFFF_FFFF_FFFF_FFFF_FFFF

  /** What the policy asks of the compute and transfer models. */
  datatype Prices = Prices(prefillTime: u32 -> u64, duration: (Path, u64) -> Option<u64>)
  {
    function FetchCost(tier: TierKind, bytes: u64): nat {
      match tier
      case GpuTier => 0
      case CpuTier => OrWorst(duration(LocalCpuToGpu, bytes))
      case RemoteMemoryTier => OrWorst(duration(RemoteMemoryToGpu, bytes))
      case RemoteSsdTier => OrWorst(duration(RemoteSsdToGpu, bytes))
      case LocalSsdTier => I128_MAX
    }

    function Utility(tier: TierKind, j: Job): int {
      prefillTime(j.prefixTokens) - FetchCost(tier, j.bytes) - Pressure(tier, j.bytes)
    }
  }

  function OrWorst(d: Option<u64>): nat {
    if d.Some? then d.value else I128_MAX
  }

  function Pressure(tier: TierKind, bytes: u64): nat {
    match tier
    case GpuTier => 0
    case CpuTier => bytes / 100
    case RemoteMemoryTier => bytes / 10
    case _ => bytes
  }

  // ---- the order of the tiers ----

  const CANDIDATES: seq<TierKind> := [GpuTier, CpuTier, RemoteMemoryTier, RemoteSsdTier]

  function InsertTier(u: TierKind -> int, x: TierKind, tiers: seq<TierKind>): (r: seq<TierKind>)
    ensures multiset(r) == multiset(tiers) + multiset{x}
  {
    if tiers == [] || u(tiers[0]) <= u(x) then [x] + tiers
    else
      assert tiers == [tiers[0]] + tiers[1..];
      [tiers[0]] + InsertTier(u, x, tiers[1..])
  }

  /** Stable sort by falling utility. */
  function SortTiers(u: TierKind -> int, tiers: seq<TierKind>): (r: seq<TierKind>)
    ensures multiset(r) == multiset(tiers)
  {
    if tiers == [] then []
    else
      assert tiers == [tiers[0]] + tiers[1..];
      InsertTier(u, tiers[0], SortTiers(u, tiers[1..]))
  }

  function UtilityOf(p: Prices, j: Job): TierKind -> int {
    t => p.Utility(t, j)
  }

  function Ranking(p: Prices, j: Job): seq<TierKind> {
    SortTiers(UtilityOf(p, j), CANDIDATES)
  }

  /** Position in the unsorted candidate list. */
  function Rank(t: TierKind): nat {
    match t
    case GpuTier => 0
    case CpuTier => 1
    case RemoteMemoryTier => 2
    case RemoteSsdTier => 3
    case LocalSsdTier => 4
  }

  predicate Precedes(u: TierKind -> int, a: TierKind, b: TierKind) {
    u(b) < u(a) || (u(a) == u(b) && Rank(a) < Rank(b))
  }

  ghost predicate Ranked(u: TierKind -> int, tiers: seq<TierKind>) {
    forall i, j | 0 <= i < j < |tiers| :: Precedes(u, tiers[i], tiers[j])
  }

  lemma HeadPrecedes(u: TierKind -> int, x: TierKind, tiers: seq<TierKind>)
    requires Ranked(u, tiers) && forall t | t in tiers :: Precedes(u, x, t)
    ensures Ranked(u, [x] + tiers)
  {
    hide Precedes;
    var r := [x] + tiers;
    forall i, j | 0 <= i < j < |r| ensures Precedes(u, r[i], r[j]) {
      if i > 0 { assert r[i] == tiers[i-1] && r[j] == tiers[j-1]; } else { assert r[j] in tiers; }
    }
  }

  lemma TailRanked(u: TierKind -> int, tiers: seq<TierKind>)
    requires Ranked(u, tiers) && tiers != []
    ensures Ranked(u, tiers[1..]) && forall t | t in tiers[1..] :: Precedes(u, tiers[0], t)
  {
    hide Precedes;
  }

  lemma {:induction false} InsertRanked(u: TierKind -> int, x: TierKind, tiers: seq<TierKind>)
    requires Ranked(u, tiers) && forall t | t in tiers :: Rank(x) < Rank(t)
    ensures Ranked(u, InsertTier(u, x, tiers))
  {
    if tiers == [] {
      HeadPrecedes(u, x, tiers);
    } else {
      TailRanked(u, tiers);
      assert tiers == [tiers[0]] + tiers[1..];
      if u(tiers[0]) <= u(x) {
        HeadPrecedes(u, x, tiers);
      } else {
        InsertRanked(u, x, tiers[1..]);
        var rest := InsertTier(u, x, tiers[1..]);
        forall t | t in rest ensures Precedes(u, tiers[0], t) {
          assert t in multiset(rest);
          if t != x { assert t in tiers[1..]; }
        }
        HeadPrecedes(u, tiers[0], rest);
      }
    }
  }

  lemma {:induction false} SortRanked(u: TierKind -> int, tiers: seq<TierKind>)
    requires forall i, j | 0 <= i < j < |tiers| :: Rank(tiers[i]) < Rank(tiers[j])
    ensures Ranked(u, SortTiers(u, tiers))
  {
    if tiers != [] {
      var rest := SortTiers(u, tiers[1..]);
      SortRanked(u, tiers[1..]);
      forall t | t in rest ensures Rank(tiers[0]) < Rank(t) {
        assert t in multiset(rest);
        assert t in tiers[1..];
      }
      InsertRanked(u, tiers[0], rest);
    }
  }

  lemma InRanking(p: Prices, j: Job, t: TierKind)
    ensures t in Ranking(p, j) <==> t in CANDIDATES
  {
    assert t in multiset(Ranking(p, j)) <==> t in multiset(CANDIDATES);
  }

  lemma CandidatesInOrder()
    ensures forall i, j | 0 <= i < j < |CANDIDATES| :: Rank(CANDIDATES[i]) < Rank(CANDIDATES[j])
    ensures GpuTier in CANDIDATES
  {
    assert CANDIDATES[0] == GpuTier;
  }

  lemma GpuMostUseful(p: Prices, j: Job, t: TierKind)
    ensures UtilityOf(p, j)(t) <= UtilityOf(p, j)(GpuTier)
  {}

  lemma FirstOfRanked(u: TierKind -> int, tiers: seq<TierKind>, t: TierKind)
    requires Ranked(u, tiers) && t in tiers && Rank(t) == 0 && forall x :: u(x) <= u(t)
    ensures tiers[0] == t
  {
    var i :| 0 <= i < |tiers| && tiers[i] == t;
    assert i > 0 ==> Precedes(u, tiers[0], tiers[i]);
    assert u(tiers[0]) <= u(t);
  }

  /** The ranking holds each candidate once, by falling utility and, between equals, in the order GPU, CPU, remote
      memory, remote SSD; and the GPU always comes first, since nothing is more useful. */
  lemma RankingIsStable(p: Prices, j: Job)
    ensures Ranked(UtilityOf(p, j), Ranking(p, j)) && multiset(Ranking(p, j)) == multiset(CANDIDATES)
    ensures Ranking(p, j) != [] && Ranking(p, j)[0] == GpuTier
  {
    CandidatesInOrder();
    SortRanked(UtilityOf(p, j), CANDIDATES);
    InRanking(p, j, GpuTier);
    hide SortTiers;
    forall t ensures UtilityOf(p, j)(t) <= UtilityOf(p, j)(GpuTier) {
      GpuMostUseful(p, j, t);
    }
    hide UtilityOf, Ranked;
    FirstOfRanked(UtilityOf(p, j), Ranking(p, j), GpuTier);
  }

  // ---- what decides the order ----

  /** In the ranking `a` comes before `b`. */
  ghost predicate Before(p: Prices, j: Job, a: TierKind, b: TierKind) {
    exists i, k :: 0 <= i < k < |Ranking(p, j)| && Ranking(p, j)[i] == a && Ranking(p, j)[k] == b
  }

  lemma RankedOnce(p: Prices, j: Job, a: TierKind, b: TierKind)
    requires Before(p, j, a, b)
    ensures Precedes(UtilityOf(p, j), a, b)
  {
    RankingIsStable(p, j);
    hide Ranking, UtilityOf, Precedes;
  }

  lemma BeforeIff(p: Prices, j: Job, a: TierKind, b: TierKind)
    requires a in CANDIDATES && b in CANDIDATES && a != b
    ensures Before(p, j, a, b) <==> Precedes(UtilityOf(p, j), a, b)
  {
    hide Precedes, Ranking;
    InRanking(p, j, a);
    InRanking(p, j, b);
    var r := Ranking(p, j);
    var i :| 0 <= i < |r| && r[i] == a;
    var k :| 0 <= k < |r| && r[k] == b;
    assert i < k ==> Before(p, j, a, b);
    assert k < i ==> Before(p, j, b, a);
    hide Before;
    if Before(p, j, a, b) {
      RankedOnce(p, j, a, b);
    } else {
      RankedOnce(p, j, b, a);
      NotBoth(UtilityOf(p, j), a, b);
    }
  }

  lemma NotBoth(u: TierKind -> int, a: TierKind, b: TierKind)
    ensures !(Precedes(u, a, b) && Precedes(u, b, a))
  {}

  /** Nanoseconds over a path, with the largest 128-bit value for a path without an estimate. */
  function Nanos(p: Prices, path: Path, bytes: u64): nat {
    match p.duration(path, bytes)
    case Some(d) => d
    case None => 170141183460469231731687303715884105727
  }

  /** The order of the tiers behind the GPU, pair by pair: what counts is the duration of each tier's own path, from the
      CPU, from remote memory and from remote SSD to the GPU, with a hundredth, a tenth and the whole of the size on top;
      the tier named first in the list wins a tie. The price of recomputing never matters. */
  lemma OrderOfTiers(p: Prices, j: Job)
    ensures var n := j.bytes;
            var cpu, memory := Nanos(p, LocalCpuToGpu, n), Nanos(p, RemoteMemoryToGpu, n);
            var ssd := Nanos(p, RemoteSsdToGpu, n);
            && (Before(p, j, CpuTier, RemoteMemoryTier) <==> cpu + n / 100 <= memory + n / 10)
            && (Before(p, j, CpuTier, RemoteSsdTier) <==> cpu + n / 100 <= ssd + n)
            && (Before(p, j, RemoteMemoryTier, RemoteSsdTier) <==> memory + n / 10 <= ssd + n)
  {
    hide Before;
    BeforeIff(p, j, CpuTier, RemoteMemoryTier);
    BeforeIff(p, j, CpuTier, RemoteSsdTier);
    BeforeIff(p, j, RemoteMemoryTier, RemoteSsdTier);
  }

  /** At equal transfer times the CPU comes before remote memory and remote memory before remote SSD. */
  lemma EqualPathsNearestFirst(p: Prices, j: Job)
    requires p.duration(LocalCpuToGpu, j.bytes) == p.duration(RemoteMemoryToGpu, j.bytes)
    requires p.duration(LocalCpuToGpu, j.bytes) == p.duration(RemoteSsdToGpu, j.bytes)
    ensures Before(p, j, CpuTier, RemoteMemoryTier) && Before(p, j, RemoteMemoryTier, RemoteSsdTier)
  {
    hide Before;
    OrderOfTiers(p, j);
  }

  /** The tier whose objects reach the GPU over this path. */
  predicate Uses(tier: TierKind, path: Path) {
    || (tier == CpuTier && path == LocalCpuToGpu)
    || (tier == RemoteMemoryTier && path == RemoteMemoryToGpu)
    || (tier == RemoteSsdTier && path == RemoteSsdToGpu)
  }

  /** Changing the duration of one path never reorders two tiers that do not use it, and a longer duration never moves
      the tier that uses it forward. */
  lemma OnePathChanges(p: Prices, p': Prices, j: Job, path: Path, a: TierKind, b: TierKind)
    requires forall q | q != path :: p'.duration(q, j.bytes) == p.duration(q, j.bytes)
    requires a in CANDIDATES && b in CANDIDATES && a != b && !Uses(b, path)
    ensures !Uses(a, path) ==> (Before(p', j, a, b) <==> Before(p, j, a, b))
    ensures Nanos(p, path, j.bytes) <= Nanos(p', path, j.bytes) ==> (Before(p', j, a, b) ==> Before(p, j, a, b))
  {
    hide Before;
    BeforeIff(p, j, a, b);
    BeforeIff(p', j, a, b);
    CostsMove(p, p', j.bytes, path, a);
    CostsMove(p, p', j.bytes, path, b);
  }

  lemma CostsMove(p: Prices, p': Prices, bytes: u64, path: Path, tier: TierKind)
    requires forall q | q != path :: p'.duration(q, bytes) == p.duration(q, bytes)
    requires tier in CANDIDATES
    ensures !Uses(tier, path) ==> p'.FetchCost(tier, bytes) == p.FetchCost(tier, bytes)
    ensures Nanos(p, path, bytes) <= Nanos(p', path, bytes) ==> p.FetchCost(tier, bytes) <= p'.FetchCost(tier, bytes)
  {}

  /** A tier that cannot be fetched from comes behind every tier that can. */
  lemma UnfetchableLast(p: Prices, j: Job, a: TierKind, b: TierKind, path: Path, dead: Path)
    requires Uses(a, path) && Uses(b, dead) && p.duration(path, j.bytes).Some? && p.duration(dead, j.bytes).None?
    ensures Before(p, j, a, b)
  {
    hide Before;
    BeforeIff(p, j, a, b);
  }

  /** The subtraction of the program stays within its 128 bits exactly when there is an estimate, or the penalty exceeds
      the recompute time by at most one. */
  lemma UtilityFits(p: Prices, j: Job, tier: TierKind, path: Path)
    requires Uses(tier, path)
    ensures 0 <= p.Utility(tier, j) + I128_MAX + 1 <= 2 * I128_MAX + 1
            <==> p.duration(path, j.bytes).Some? || Pressure(tier, j.bytes) <= p.prefillTime(j.prefixTokens) + 1
  {}

  // ---- placing ----

  function LocationFor(t: Topology, node: u32, tier: TierKind): (l: Option<Location>)
    ensures l.Some? ==> SlotOf(l.value) == Some((node, tier))
  {
    match tier
    case GpuTier => (match FirstGpu(t, node) case Some(g) => Some(InGpu(node, g)) case None => None)
    case CpuTier => Some(InCpu(node))
    case RemoteMemoryTier => Some(InRemoteMemory(node))
    case RemoteSsdTier => Some(InRemoteSsd(node))
    case LocalSsdTier => None
  }

  /** The tier can hold the object, if need be after losing everything else. */
  predicate Feasible(c: State, t: Topology, node: u32, tier: TierKind, bytes: u64) {
    LocationFor(t, node, tier).Some? && bytes <= c.Capacity((node, tier))
  }

  ghost predicate TryTier(c: State, t: Topology, node: u32, tier: TierKind, j: Job, ids: seq<u64>) {
    Feasible(c, t, node, tier, j.bytes) && EvictRun(c, (node, tier), j.bytes, ids)
  }

  /** The loop over the tiers, from a point where `before` has been evicted: skip infeasible tiers, make room in the
      next one and store there; should the room still not do, go on without undoing the evictions. */
  ghost predicate Tries(c: State, t: Topology, node: u32, tiers: seq<TierKind>, j: Job, before: seq<EvictedKv>,
                        out: Outcome, c': State)
    decreases |tiers|
  {
    if tiers == [] then out == Refused && c' == c
    else if !Feasible(c, t, node, tiers[0], j.bytes) then Tries(c, t, node, tiers[1..], j, before, out, c')
    else exists ids :: TryTier(c, t, node, tiers[0], j, ids) &&
           var d, l := After(c, ids), LocationFor(t, node, tiers[0]).value;
           if j.bytes <= d.Available((node, tiers[0])) then
             out == Placed(l, before + Listed(c, ids)) && c' == Insert(d, j.At(l)).state
           else Tries(d, t, node, tiers[1..], j, before + Listed(c, ids), out, c')
  }

  /** The tier at position `i` is used: room is made in it alone, and the object stored there. */
  ghost predicate StoredIn(c: State, t: Topology, node: u32, tier: TierKind, j: Job, ids: seq<u64>, out: Outcome,
                           c': State) {
    && TryTier(c, t, node, tier, j, ids)
    && var d, l := After(c, ids), LocationFor(t, node, tier).value;
       && j.bytes <= d.Available((node, tier))
       && out == Placed(l, Listed(c, ids)) && c' == Insert(d, j.At(l)).state
  }

  /** `tier` is the first feasible one of the list. */
  ghost predicate FirstFeasible(c: State, t: Topology, node: u32, tiers: seq<TierKind>, bytes: u64, tier: TierKind) {
    exists i :: 0 <= i < |tiers| && tiers[i] == tier && Feasible(c, t, node, tier, bytes)
                && forall k | 0 <= k < i :: !Feasible(c, t, node, tiers[k], bytes)
  }

  ghost predicate NoneFeasible(c: State, t: Topology, node: u32, tiers: seq<TierKind>, bytes: u64) {
    forall tier | tier in tiers :: !Feasible(c, t, node, tier, bytes)
  }

  ghost predicate StoredInFirst(c: State, t: Topology, node: u32, tiers: seq<TierKind>, j: Job, out: Outcome,
                                c': State) {
    exists tier, ids :: FirstFeasible(c, t, node, tiers, j.bytes, tier) && StoredIn(c, t, node, tier, j, ids, out, c')
  }

  lemma LaterFeasible(c: State, t: Topology, node: u32, tiers: seq<TierKind>, bytes: u64, tier: TierKind)
    requires tiers != [] && !Feasible(c, t, node, tiers[0], bytes) && FirstFeasible(c, t, node, tiers[1..], bytes, tier)
    ensures FirstFeasible(c, t, node, tiers, bytes, tier)
  {
    hide Feasible;
    var i :| 0 <= i < |tiers[1..]| && tiers[1..][i] == tier && Feasible(c, t, node, tier, bytes)
             && forall k | 0 <= k < i :: !Feasible(c, t, node, tiers[1..][k], bytes);
    forall k | 0 <= k < i + 1 ensures !Feasible(c, t, node, tiers[k], bytes) {
      if k > 0 { assert tiers[1..][k-1] == tiers[k]; }
    }
    assert tiers[i+1] == tier;
  }

  /** With the accounts in order, the first feasible tier of the ranking takes the object: evicting there is always
      enough, so the loop never gets past it. Without a feasible tier nothing happens at all. */
  lemma {:induction false} TriesContract(c: State, t: Topology, node: u32, tiers: seq<TierKind>, j: Job,
                                         out: Outcome, c': State)
    requires Tries(c, t, node, tiers, j, [], out, c') && Accounted(c)
    ensures NoneFeasible(c, t, node, tiers, j.bytes) ==> out == Refused && c' == c
    ensures !NoneFeasible(c, t, node, tiers, j.bytes) ==> StoredInFirst(c, t, node, tiers, j, out, c')
    decreases |tiers|
  {
    hide Feasible, After, Listed, EvictRun, Insert, Accounted, State.Available;
    if tiers != [] {
      assert tiers == [tiers[0]] + tiers[1..];
      if !Feasible(c, t, node, tiers[0], j.bytes) {
        TriesContract(c, t, node, tiers[1..], j, out, c');
        if !NoneFeasible(c, t, node, tiers[1..], j.bytes) {
          var tier, ids :| FirstFeasible(c, t, node, tiers[1..], j.bytes, tier) && StoredIn(c, t, node, tier, j, ids, out, c');
          LaterFeasible(c, t, node, tiers, j.bytes, tier);
        }
      } else {
        HeadTakes(c, t, node, tiers, j, out, c');
      }
    }
  }

  lemma FeasibleHasRoom(c: State, t: Topology, node: u32, tier: TierKind, j: Job, ids: seq<u64>)
    requires Accounted(c) && TryTier(c, t, node, tier, j, ids)
    ensures j.bytes <= After(c, ids).Available((node, tier))
  {
    EvictMakesRoom(c, (node, tier), j.bytes, ids);
  }

  lemma HeadTakes(c: State, t: Topology, node: u32, tiers: seq<TierKind>, j: Job, out: Outcome, c': State)
    requires Tries(c, t, node, tiers, j, [], out, c') && Accounted(c)
    requires tiers != [] && Feasible(c, t, node, tiers[0], j.bytes)
    ensures StoredInFirst(c, t, node, tiers, j, out, c')
  {
    hide After, Listed, EvictRun, Insert, Accounted, State.Available;
    var ids :| TryTier(c, t, node, tiers[0], j, ids) &&
      var d, l := After(c, ids), LocationFor(t, node, tiers[0]).value;
      if j.bytes <= d.Available((node, tiers[0])) then
        out == Placed(l, [] + Listed(c, ids)) && c' == Insert(d, j.At(l)).state
      else Tries(d, t, node, tiers[1..], j, [] + Listed(c, ids), out, c');
    FeasibleHasRoom(c, t, node, tiers[0], j, ids);
    assert [] + Listed(c, ids) == Listed(c, ids);
    assert FirstFeasible(c, t, node, tiers, j.bytes, tiers[0]);
    assert StoredIn(c, t, node, tiers[0], j, ids, out, c');
  }

  /** When and where the object is stored: exactly when some candidate tier is feasible, in the first feasible one of
      the ranking, hence on the GPU whenever that can be; only there is anything evicted, and no more than needed. A
      refused call leaves the cache as it was. */
  lemma NetworkAwareContract(p: Prices, c: State, t: Topology, node: u32, j: Job, out: Outcome, c': State)
    requires Tries(c, t, node, Ranking(p, j), j, [], out, c') && Accounted(c)
    ensures out.Placed? <==> exists tier :: tier in CANDIDATES && Feasible(c, t, node, tier, j.bytes)
    ensures out.Refused? ==> c' == c
    ensures out.Placed? ==> StoredInFirst(c, t, node, Ranking(p, j), j, out, c')
    ensures Feasible(c, t, node, GpuTier, j.bytes) ==> out.Placed? && out.loc.InGpu?
  {
    hide Feasible, Ranking, FirstFeasible, EvictRun, After, Listed, Insert, Accounted, State.Available;
    var r := Ranking(p, j);
    TriesContract(c, t, node, r, j, out, c');
    forall tier ensures tier in r <==> tier in CANDIDATES {
      InRanking(p, j, tier);
    }
    RankingIsStable(p, j);
    if Feasible(c, t, node, GpuTier, j.bytes) {
      assert r[0] in r;
      var tier, ids :| FirstFeasible(c, t, node, r, j.bytes, tier) && StoredIn(c, t, node, tier, j, ids, out, c');
      GpuWins(c, t, node, r, j.bytes, tier);
      StoredOnGpu(c, t, node, j, ids, out, c');
    }
  }

  lemma FeasibleIs(c: State, t: Topology, node: u32, tier: TierKind, bytes: u64)
    requires tier in CANDIDATES
    ensures Feasible(c, t, node, tier, bytes) <==>
              bytes <= c.Capacity((node, tier)) && (tier == GpuTier ==> FirstGpu(t, node).Some?)
  {
    hide FirstGpu, State.Capacity;
  }

  lemma StoredWhere(c: State, t: Topology, node: u32, tier: TierKind, j: Job, ids: seq<u64>, out: Outcome, c': State)
    requires StoredIn(c, t, node, tier, j, ids, out, c')
    ensures out.Placed? && LocationFor(t, node, tier) == Some(out.loc)
  {
    hide FirstGpu, After, EvictRun, Insert, Listed, LocationFor;
  }

  lemma NoneBefore(p: Prices, c: State, t: Topology, node: u32, j: Job, tier: TierKind, other: TierKind)
    requires FirstFeasible(c, t, node, Ranking(p, j), j.bytes, tier) && Before(p, j, other, tier)
    ensures !Feasible(c, t, node, other, j.bytes)
  {
    RankingIsStable(p, j);
    hide Ranking, Feasible, UtilityOf;
    var r := Ranking(p, j);
    var x, y :| 0 <= x < y < |r| && r[x] == other && r[y] == tier;
    var i :| 0 <= i < |r| && r[i] == tier && Feasible(c, t, node, tier, j.bytes)
             && forall k | 0 <= k < i :: !Feasible(c, t, node, r[k], j.bytes);
    RankedApart(UtilityOf(p, j), r, i, y);
  }

  /** No tier is ranked twice. */
  lemma RankedApart(u: TierKind -> int, tiers: seq<TierKind>, i: nat, k: nat)
    requires Ranked(u, tiers) && i < |tiers| && k < |tiers| && tiers[i] == tiers[k]
    ensures i == k
  {}

  /** The same with everything written out: a call succeeds exactly when one of the four tiers is large enough, the GPU
      tier counting only if the node has a GPU; the object goes to a tier that is large enough and before which the
      ranking has no such tier, on the target node and, in the GPU tier, on its first GPU. */
  lemma WhereItGoes(p: Prices, c: State, t: Topology, node: u32, j: Job, out: Outcome, c': State)
    requires Tries(c, t, node, Ranking(p, j), j, [], out, c') && Accounted(c)
    ensures out.Placed? <==>
              || (FirstGpu(t, node).Some? && j.bytes <= c.Capacity((node, GpuTier)))
              || j.bytes <= c.Capacity((node, CpuTier))
              || j.bytes <= c.Capacity((node, RemoteMemoryTier))
              || j.bytes <= c.Capacity((node, RemoteSsdTier))
    ensures out.Placed? ==>
              || (FirstGpu(t, node).Some? && out.loc == InGpu(node, FirstGpu(t, node).value))
              || out.loc == InCpu(node) || out.loc == InRemoteMemory(node) || out.loc == InRemoteSsd(node)
    ensures out.Placed? ==> SlotOf(out.loc).Some? && j.bytes <= c.Capacity(SlotOf(out.loc).value)
    ensures out.Placed? ==> forall other | other in CANDIDATES && Before(p, j, other, SlotOf(out.loc).value.1) ::
              c.Capacity((node, other)) < j.bytes || (other == GpuTier && FirstGpu(t, node).None?)
  {
    hide Feasible, Ranking, Before, FirstFeasible, EvictRun, After, Listed, Insert, Accounted, State.Available,
      State.Capacity, FirstGpu, StoredIn, Tries;
    NetworkAwareContract(p, c, t, node, j, out, c');
    forall tier | tier in CANDIDATES
      ensures Feasible(c, t, node, tier, j.bytes) <==>
                j.bytes <= c.Capacity((node, tier)) && (tier == GpuTier ==> FirstGpu(t, node).Some?)
    {
      FeasibleIs(c, t, node, tier, j.bytes);
    }
    assert GpuTier in CANDIDATES && CpuTier in CANDIDATES && RemoteMemoryTier in CANDIDATES && RemoteSsdTier in CANDIDATES;
    if out.Placed? {
      var tier, ids :| FirstFeasible(c, t, node, Ranking(p, j), j.bytes, tier) && StoredIn(c, t, node, tier, j, ids, out, c');
      StoredWhere(c, t, node, tier, j, ids, out, c');
      FirstIsFeasible(p, c, t, node, j, tier);
      forall other | other in CANDIDATES && Before(p, j, other, tier)
        ensures c.Capacity((node, other)) < j.bytes || (other == GpuTier && FirstGpu(t, node).None?)
      {
        NoneBefore(p, c, t, node, j, tier, other);
      }
    }
  }

  lemma FirstIsFeasible(p: Prices, c: State, t: Topology, node: u32, j: Job, tier: TierKind)
    requires FirstFeasible(c, t, node, Ranking(p, j), j.bytes, tier)
    ensures tier in CANDIDATES && Feasible(c, t, node, tier, j.bytes)
  {
    hide Ranking, Feasible;
    InRanking(p, j, tier);
  }

  lemma StoredOnGpu(c: State, t: Topology, node: u32, j: Job, ids: seq<u64>, out: Outcome, c': State)
    requires StoredIn(c, t, node, GpuTier, j, ids, out, c')
    ensures out.Placed? && out.loc.InGpu?
  {
    hide FirstGpu, After, EvictRun, Insert, Listed;
  }

  lemma GpuWins(c: State, t: Topology, node: u32, tiers: seq<TierKind>, bytes: u64, tier: TierKind)
    requires FirstFeasible(c, t, node, tiers, bytes, tier) && tiers != [] && Feasible(c, t, node, tiers[0], bytes)
    ensures tier == tiers[0]
  {
    hide Feasible;
  }

  /** What it does to the cache: one run of evictions and the insert, or nothing. */
  lemma NetworkAwareEffect(p: Prices, c: State, t: Topology, node: u32, j: Job, out: Outcome, c': State)
    requires Tries(c, t, node, Ranking(p, j), j, [], out, c') && Accounted(c)
    ensures HasEffect(c, j, out, c')
    ensures out.Refused? ==> c' == c
  {
    hide Ranking, FirstFeasible, EvictRun, After, Listed, Insert, Accounted;
    NetworkAwareContract(p, c, t, node, j, out, c');
    if out.Placed? {
      var tier, ids :| FirstFeasible(c, t, node, Ranking(p, j), j.bytes, tier) && StoredIn(c, t, node, tier, j, ids, out, c');
      RunEffect(c, (node, tier), j, ids, out, c');
    } else {
      AfterNothing(c);
      assert Effect(c, j, [], out, c');
    }
  }

  lemma AfterNothing(c: State)
    ensures After(c, []) == c && SetOf([]) == {}
  {}

  datatype NetworkAwarePlacement = NetworkAwarePlacement(targetNode: u32)
  {
    method Place(cache: CacheState, t: Topology, p: Prices, j: Job) returns (out: Outcome)
      modifies cache
      ensures Tries(old(cache.Value()), t, targetNode, Ranking(p, j), j, [], out, cache.Value())
    {
      hide FirstGpu, After, Listed, EvictRun, Insert, Ranking;
      ghost var c := cache.Value();
      var scored := Ranking(p, j);
      var evicted: seq<EvictedKv> := [];
      for i := 0 to |scored|
        invariant forall o, s :: Tries(cache.Value(), t, targetNode, scored[i..], j, evicted, o, s)
                                 ==> Tries(c, t, targetNode, scored, j, [], o, s)
      {
        var l := LocationFor(t, targetNode, scored[i]);
        if l.Some? && j.bytes <= cache.Value().Capacity((targetNode, scored[i])) {
          ghost var d, before := cache.Value(), evicted;
          var more, ids := cache.EvictLru((targetNode, scored[i]), j.bytes);
          evicted := evicted + more;
          assert TryTier(d, t, targetNode, scored[i], j, ids);
          if j.bytes <= cache.Value().Available((targetNode, scored[i])) {
            var ok := cache.Insert(j.At(l.value));
            out := Placed(l.value, evicted);
            assert Tries(d, t, targetNode, scored[i..], j, before, out, cache.Value());
            return;
          }
          assert forall o, s :: Tries(cache.Value(), t, targetNode, scored[i..][1..], j, evicted, o, s)
                                ==> Tries(d, t, targetNode, scored[i..], j, before, o, s);
        }
        assert scored[i..][1..] == scored[i+1..];
      }
      out := Refused;
    }
  }
}
