/** GPUs, nodes and the search for a worker (src/cluster/). */
module Cluster {
  import opened Numbers

  datatype Role = Unified | Prefill | Decode | CacheOnly

  datatype Gpu = Gpu(gpuId: u32, hbmBytes: u64, busyUntil: u64, role: Role)

  datatype Node = Node(nodeId: u32, gpus: seq<Gpu>)

  type Topology = seq<Node>

  /** How the simulator names a GPU: the node's id and the position on that node. */
  datatype GpuRef = GpuRef(node: u32, idx: nat)

  predicate Serves(g: Gpu, role: Role) {
    g.role == role || g.role == Unified
  }

  predicate IdleFor(g: Gpu, now: u64, role: Role) {
    g.busyUntil <= now && Serves(g, role)
  }

  /** Node ids are not repeated; the simulator addresses GPUs through them. */
  ghost predicate Distinct(t: Topology) {
    forall i, j | 0 <= i < j < |t| :: t[i].nodeId != t[j].nodeId
  }

  /** Position of the first node with this id; |t| when there is none. */
  function NodeIndex(t: Topology, id: u32): (i: nat)
    ensures i <= |t|
    ensures i < |t| ==> t[i].nodeId == id
    ensures forall j | 0 <= j < i :: t[j].nodeId != id
  {
    if t == [] then 0
    else if t[0].nodeId == id then 0
    else 1 + NodeIndex(t[1..], id)
  }

  predicate HasGpu(t: Topology, g: GpuRef) {
    var i := NodeIndex(t, g.node);
    i < |t| && g.idx < |t[i].gpus|
  }

  function GpuAt(t: Topology, g: GpuRef): Gpu
    requires HasGpu(t, g)
  {
    t[NodeIndex(t, g.node)].gpus[g.idx]
  }

  /** First among the least busy idle GPUs of a node that serve `role`. */
  function NodeIdle(gpus: seq<Gpu>, now: u64, role: Role): (r: Option<nat>)
    ensures r.None? ==> forall j | 0 <= j < |gpus| :: !IdleFor(gpus[j], now, role)
    ensures r.Some? ==> r.value < |gpus| && IdleFor(gpus[r.value], now, role)
    ensures r.Some? ==> forall j | 0 <= j < |gpus| && IdleFor(gpus[j], now, role) ::
                          gpus[r.value].busyUntil <= gpus[j].busyUntil
    ensures r.Some? ==> forall j | 0 <= j < r.value && IdleFor(gpus[j], now, role) ::
                          gpus[r.value].busyUntil < gpus[j].busyUntil
  {
    if gpus == [] then None
    else
      var last := |gpus| - 1;
      var best := NodeIdle(gpus[..last], now, role);
      if !IdleFor(gpus[last], now, role) then best
      else if best.None? || gpus[last].busyUntil < gpus[best.value].busyUntil then Some(last)
      else best
  }

  /** Among the first `k` nodes, the least busy GPU idle for `role`; earlier nodes win ties. */
  function FindIdleAmong(t: Topology, k: nat, now: u64, role: Role): (r: Option<GpuRef>)
    requires Distinct(t) && k <= |t|
    ensures r.Some? ==> HasGpu(t, r.value) && NodeIndex(t, r.value.node) < k && IdleFor(GpuAt(t, r.value), now, role)
    ensures r.None? ==> forall h: GpuRef | HasGpu(t, h) && NodeIndex(t, h.node) < k ::
                          !IdleFor(GpuAt(t, h), now, role)
    ensures r.Some? ==> forall h: GpuRef | HasGpu(t, h) && NodeIndex(t, h.node) < k && IdleFor(GpuAt(t, h), now, role) ::
                          GpuAt(t, r.value).busyUntil <= GpuAt(t, h).busyUntil
  {
    if k == 0 then None
    else
      var best := FindIdleAmong(t, k - 1, now, role);
      match NodeIdle(t[k-1].gpus, now, role)
      case None => best
      case Some(i) =>
        var g := GpuRef(t[k-1].nodeId, i);
        if best.None? || GpuAt(t, g).busyUntil < GpuAt(t, best.value).busyUntil then Some(g) else best
  }

  /** `find_idle_gpu_for`: some GPU exactly when one is idle for the role, and then a least busy one. */
  function FindIdle(t: Topology, now: u64, role: Role): (r: Option<GpuRef>)
    requires Distinct(t)
    ensures r.Some? ==> HasGpu(t, r.value) && IdleFor(GpuAt(t, r.value), now, role)
    ensures r.None? ==> forall h: GpuRef | HasGpu(t, h) :: !IdleFor(GpuAt(t, h), now, role)
    ensures r.Some? ==> forall h: GpuRef | HasGpu(t, h) && IdleFor(GpuAt(t, h), now, role) ::
                          GpuAt(t, r.value).busyUntil <= GpuAt(t, h).busyUntil
  {
    FindIdleAmong(t, |t|, now, role)
  }

  /** Same nodes and GPUs, with possibly other busy times. */
  ghost predicate SameShape(a: Topology, b: Topology) {
    && Distinct(b)
    && (forall h: GpuRef :: HasGpu(a, h) <==> HasGpu(b, h))
    && (forall h: GpuRef | HasGpu(b, h) :: HasGpu(a, h) && GpuAt(b, h).role == GpuAt(a, h).role)
  }

  /** `node_mut(..)` followed by a write of `busy_until_ns`; nothing happens when the node is unknown. */
  function SetBusy(t: Topology, g: GpuRef, until: u64): (r: Topology)
    requires HasGpu(t, g)
    ensures |r| == |t|
    ensures forall h: GpuRef {:trigger HasGpu(r, h)} :: HasGpu(r, h) <==> HasGpu(t, h)
    ensures forall h: GpuRef {:trigger GpuAt(r, h)} | HasGpu(r, h) ::
              HasGpu(t, h) && GpuAt(r, h) == if h == g then GpuAt(t, h).(busyUntil := until) else GpuAt(t, h)
    ensures Distinct(t) ==> SameShape(t, r)
  {
    var i := NodeIndex(t, g.node);
    var gpus := t[i].gpus;
    var r := t[i := t[i].(gpus := gpus[g.idx := gpus[g.idx].(busyUntil := until)])];
    NodeIndexSame(t, r);
    r
  }

  lemma NodeIndexSame(t: Topology, r: Topology)
    requires |t| == |r| && forall i | 0 <= i < |t| :: t[i].nodeId == r[i].nodeId
    ensures forall id: u32 :: NodeIndex(r, id) == NodeIndex(t, id)
  {
    forall id: u32 ensures NodeIndex(r, id) == NodeIndex(t, id) {
      var i, j := NodeIndex(r, id), NodeIndex(t, id);
      assert i < |t| ==> t[i].nodeId == id;
      assert j < |t| ==> r[j].nodeId == id;
    }
  }

  /** How many GPUs that serve `role` are released by `limit`. */
  function FreeOn(gpus: seq<Gpu>, role: Role, limit: nat): nat {
    if gpus == [] then 0
    else FreeOn(gpus[1..], role, limit) + if Serves(gpus[0], role) && gpus[0].busyUntil <= limit then 1 else 0
  }

  function FreeBy(t: Topology, role: Role, limit: nat): nat {
    if t == [] then 0 else FreeOn(t[0].gpus, role, limit) + FreeBy(t[1..], role, limit)
  }

  function Released(g: Gpu, role: Role, limit: nat): nat {
    if Serves(g, role) && g.busyUntil <= limit then 1 else 0
  }

  lemma {:induction false} FreeOnUpdate(gpus: seq<Gpu>, i: nat, g: Gpu, role: Role, limit: nat)
    requires i < |gpus|
    ensures FreeOn(gpus[i := g], role, limit)
            == FreeOn(gpus, role, limit) - Released(gpus[i], role, limit) + Released(g, role, limit)
    ensures FreeOn(gpus, role, limit) >= Released(gpus[i], role, limit)
  {
    var r := gpus[i := g];
    if i == 0 {
      assert r[1..] == gpus[1..];
    } else {
      assert r[1..] == gpus[1..][i-1 := g];
      FreeOnUpdate(gpus[1..], i - 1, g, role, limit);
    }
  }

  lemma {:induction false} FreeByUpdate(t: Topology, i: nat, n: Node, role: Role, limit: nat)
    requires i < |t|
    ensures FreeBy(t[i := n], role, limit)
            == FreeBy(t, role, limit) - FreeOn(t[i].gpus, role, limit) + FreeOn(n.gpus, role, limit)
    ensures FreeBy(t, role, limit) >= FreeOn(t[i].gpus, role, limit)
  {
    var r := t[i := n];
    if i == 0 {
      assert r[1..] == t[1..];
    } else {
      assert r[1..] == t[1..][i-1 := n];
      FreeByUpdate(t[1..], i - 1, n, role, limit);
    }
  }

  /** Changing one GPU's release time moves exactly that GPU's contribution to the count. */
  lemma FreeBySetBusy(t: Topology, g: GpuRef, until: u64, role: Role, limit: nat)
    requires HasGpu(t, g)
    ensures FreeBy(SetBusy(t, g, until), role, limit)
            == FreeBy(t, role, limit) - Released(GpuAt(t, g), role, limit)
               + Released(GpuAt(t, g).(busyUntil := until), role, limit)
    ensures FreeBy(t, role, limit) >= Released(GpuAt(t, g), role, limit)
  {
    var i := NodeIndex(t, g.node);
    var gpus := t[i].gpus;
    var gpus' := gpus[g.idx := gpus[g.idx].(busyUntil := until)];
    FreeOnUpdate(gpus, g.idx, gpus[g.idx].(busyUntil := until), role, limit);
    FreeByUpdate(t, i, t[i].(gpus := gpus'), role, limit);
  }

  /** The count is positive exactly when some GPU serving the role is released by then. */
  lemma FreeByPositive(t: Topology, g: GpuRef, role: Role, limit: nat)
    requires HasGpu(t, g) && Serves(GpuAt(t, g), role) && GpuAt(t, g).busyUntil <= limit
    ensures FreeBy(t, role, limit) >= 1
  {
    FreeBySetBusy(t, g, 0, role, limit);
  }

  lemma {:induction false} FreeOnZero(gpus: seq<Gpu>, role: Role, limit: nat)
    requires forall i | 0 <= i < |gpus| :: Released(gpus[i], role, limit) == 0
    ensures FreeOn(gpus, role, limit) == 0
  {
    if gpus != [] {
      assert Released(gpus[0], role, limit) == 0;
      FreeOnZero(gpus[1..], role, limit);
    }
  }

  lemma {:induction false} FreeByZeroFrom(t: Topology, k: nat, role: Role, limit: nat)
    requires Distinct(t) && k <= |t|
    requires forall h: GpuRef | HasGpu(t, h) :: Released(GpuAt(t, h), role, limit) == 0
    ensures FreeBy(t[k..], role, limit) == 0
    decreases |t| - k
  {
    if k < |t| {
      forall i | 0 <= i < |t[k].gpus| ensures Released(t[k].gpus[i], role, limit) == 0 {
        var h := GpuRef(t[k].nodeId, i);
        assert NodeIndex(t, h.node) == k;
        assert HasGpu(t, h) && GpuAt(t, h) == t[k].gpus[i];
      }
      FreeOnZero(t[k].gpus, role, limit);
      FreeByZeroFrom(t, k + 1, role, limit);
      assert t[k..][1..] == t[k+1..];
    }
  }

  lemma FreeByZero(t: Topology, role: Role, limit: nat)
    requires Distinct(t)
    requires forall h: GpuRef | HasGpu(t, h) && Serves(GpuAt(t, h), role) :: limit < GpuAt(t, h).busyUntil
    ensures FreeBy(t, role, limit) == 0
  {
    FreeByZeroFrom(t, 0, role, limit);
    assert t[0..] == t;
  }

  /** Earliest moment from `now` on at which GPU `g` could start. */
  function StartOn(g: Gpu, now: u64): u64 {
    Later(g.busyUntil, now)
  }

  function NodeEarliest(gpus: seq<Gpu>, now: u64, role: Role): (r: Option<nat>)
    ensures r.None? ==> forall j | 0 <= j < |gpus| :: !Serves(gpus[j], role)
    ensures r.Some? ==> r.value < |gpus| && Serves(gpus[r.value], role)
    ensures r.Some? ==> forall j | 0 <= j < |gpus| && Serves(gpus[j], role) ::
                          StartOn(gpus[r.value], now) <= StartOn(gpus[j], now)
  {
    if gpus == [] then None
    else
      var last := |gpus| - 1;
      var best := NodeEarliest(gpus[..last], now, role);
      if !Serves(gpus[last], role) then best
      else if best.None? || StartOn(gpus[last], now) < StartOn(gpus[best.value], now) then Some(last)
      else best
  }

  /** Among the first `k` nodes, the GPU that serves the role and can start first, with its start time. */
  function EarliestAmong(t: Topology, k: nat, now: u64, role: Role): (r: Option<(GpuRef, u64)>)
    requires Distinct(t) && k <= |t|
    ensures r.None? ==> forall h: GpuRef | HasGpu(t, h) && NodeIndex(t, h.node) < k :: !Serves(GpuAt(t, h), role)
    ensures r.Some? ==> && HasGpu(t, r.value.0) && Serves(GpuAt(t, r.value.0), role)
                        && r.value.1 == StartOn(GpuAt(t, r.value.0), now)
    ensures r.Some? ==> forall h: GpuRef | HasGpu(t, h) && NodeIndex(t, h.node) < k && Serves(GpuAt(t, h), role) ::
                          r.value.1 <= StartOn(GpuAt(t, h), now)
  {
    if k == 0 then None
    else
      var best := EarliestAmong(t, k - 1, now, role);
      match NodeEarliest(t[k-1].gpus, now, role)
      case None => best
      case Some(i) =>
        var start := StartOn(t[k-1].gpus[i], now);
        if best.None? || start < best.value.1 then Some((GpuRef(t[k-1].nodeId, i), start)) else best
  }

  function EarliestStart(t: Topology, now: u64, role: Role): (r: Option<(GpuRef, u64)>)
    requires Distinct(t)
    ensures r.None? ==> forall h: GpuRef | HasGpu(t, h) :: !Serves(GpuAt(t, h), role)
    ensures r.Some? ==> && HasGpu(t, r.value.0) && Serves(GpuAt(t, r.value.0), role)
                        && r.value.1 == StartOn(GpuAt(t, r.value.0), now)
    ensures r.Some? ==> forall h: GpuRef | HasGpu(t, h) && Serves(GpuAt(t, h), role) ::
                          r.value.1 <= StartOn(GpuAt(t, h), now)
  {
    EarliestAmong(t, |t|, now, role)
  }

  /** The two searches agree: the earliest start is `now` exactly when an idle worker is found. */
  lemma IdleIffEarliestNow(t: Topology, now: u64, role: Role)
    requires Distinct(t)
    ensures FindIdle(t, now, role).Some? <==> EarliestStart(t, now, role).Some? && EarliestStart(t, now, role).value.1 == now
  {
    var idle, best := FindIdle(t, now, role), EarliestStart(t, now, role);
    if idle.Some? {
      assert Serves(GpuAt(t, idle.value), role);
    }
    if best.Some? && best.value.1 == now {
      assert IdleFor(GpuAt(t, best.value.0), now, role);
    }
  }

  // ---- ties ----

  /** The GPU comes first in the order of the cluster: on an earlier node, or earlier on the same one. */
  predicate NotAfter(t: Topology, g: GpuRef, h: GpuRef) {
    NodeIndex(t, g.node) < NodeIndex(t, h.node) || (NodeIndex(t, g.node) == NodeIndex(t, h.node) && g.idx <= h.idx)
  }

  lemma IndexOfNode(t: Topology, k: nat)
    requires Distinct(t) && k < |t|
    ensures NodeIndex(t, t[k].nodeId) == k
  {}

  /** The GPU at a position of node `k`. */
  lemma OnNode(t: Topology, k: nat, i: nat)
    requires Distinct(t) && k < |t| && i < |t[k].gpus|
    ensures var g := GpuRef(t[k].nodeId, i); NodeIndex(t, g.node) == k && HasGpu(t, g) && GpuAt(t, g) == t[k].gpus[i]
  {}

  lemma FindIdleStep(t: Topology, k: nat, now: u64, role: Role)
    requires Distinct(t) && 0 < k <= |t|
    ensures var best, found := FindIdleAmong(t, k - 1, now, role), NodeIdle(t[k-1].gpus, now, role);
            && (found.None? ==> FindIdleAmong(t, k, now, role) == best)
            && (found.Some? ==>
                  var g := GpuRef(t[k-1].nodeId, found.value);
                  HasGpu(t, g) && FindIdleAmong(t, k, now, role) ==
                    if best.None? || GpuAt(t, g).busyUntil < GpuAt(t, best.value).busyUntil then Some(g) else best)
  {
    hide NodeIdle;
    if NodeIdle(t[k-1].gpus, now, role).Some? { OnNode(t, k - 1, NodeIdle(t[k-1].gpus, now, role).value); }
  }

  /** `g`, whose key is at most that of `h`, is not after `h` should the keys be equal. */
  predicate Leads(t: Topology, g: Option<GpuRef>, key: int, h: GpuRef, of: int) {
    g.Some? && key <= of && (key == of ==> NotAfter(t, g.value, h))
  }

  /** Keeping the better of two, and the first of two equals. */
  lemma PickLeads(t: Topology, best: Option<GpuRef>, b: int, g: Option<GpuRef>, n: int, h: GpuRef, of: int)
    requires Leads(t, best, b, h, of)
             || (Leads(t, g, n, h, of) && (best.Some? ==> NodeIndex(t, best.value.node) < NodeIndex(t, h.node)))
    ensures var stays := g.None? || (best.Some? && b <= n);
            Leads(t, if stays then best else g, if stays then b else n, h, of)
  {
    hide NodeIndex;
  }

  /** Release time of a GPU that was found. */
  function BusyOf(t: Topology, g: Option<GpuRef>): int {
    if g.Some? && HasGpu(t, g.value) then GpuAt(t, g.value).busyUntil else -1
  }

  lemma FindIdlePicks(t: Topology, k: nat, now: u64, role: Role)
    requires Distinct(t) && 0 < k <= |t|
    ensures var best, found := FindIdleAmong(t, k - 1, now, role), NodeIdle(t[k-1].gpus, now, role);
            var r := FindIdleAmong(t, k, now, role);
            var g := if found.Some? then Some(GpuRef(t[k-1].nodeId, found.value)) else None;
            r == if g.None? || (best.Some? && BusyOf(t, best) <= BusyOf(t, g)) then best else g
  {
    FindIdleStep(t, k, now, role);
    hide NodeIdle, NodeIndex, Distinct;
  }

  lemma NodeIdleLeads(t: Topology, k: nat, now: u64, role: Role, h: GpuRef)
    requires Distinct(t) && k < |t| && HasGpu(t, h) && NodeIndex(t, h.node) == k && IdleFor(GpuAt(t, h), now, role)
    ensures NodeIdle(t[k].gpus, now, role).Some?
    ensures var g := Some(GpuRef(t[k].nodeId, NodeIdle(t[k].gpus, now, role).value));
            Leads(t, g, BusyOf(t, g), h, BusyOf(t, Some(h)))
  {
    assert t[k].gpus[h.idx] == GpuAt(t, h);
    OnNode(t, k, NodeIdle(t[k].gpus, now, role).value);
  }

  lemma {:induction false} FirstIdleAmong(t: Topology, k: nat, now: u64, role: Role, h: GpuRef)
    requires Distinct(t) && k <= |t| && HasGpu(t, h) && NodeIndex(t, h.node) < k && IdleFor(GpuAt(t, h), now, role)
    ensures var r := FindIdleAmong(t, k, now, role); Leads(t, r, BusyOf(t, r), h, BusyOf(t, Some(h)))
  {
    hide FindIdleAmong, NodeIdle, NodeIndex, HasGpu, GpuAt, IdleFor, Distinct, Leads, BusyOf;
    var best, found := FindIdleAmong(t, k - 1, now, role), NodeIdle(t[k-1].gpus, now, role);
    var g := if found.Some? then Some(GpuRef(t[k-1].nodeId, found.value)) else None;
    FindIdlePicks(t, k, now, role);
    if NodeIndex(t, h.node) < k - 1 {
      FirstIdleAmong(t, k - 1, now, role, h);
    } else {
      NodeIdleLeads(t, k - 1, now, role, h);
    }
    PickLeads(t, best, BusyOf(t, best), g, BusyOf(t, g), h, BusyOf(t, Some(h)));
  }

  /** Among equally busy idle GPUs the search takes the first: on the first such node, the first GPU. */
  lemma FirstIdle(t: Topology, now: u64, role: Role, h: GpuRef)
    requires Distinct(t) && HasGpu(t, h) && IdleFor(GpuAt(t, h), now, role)
    ensures FindIdle(t, now, role).Some?
    ensures var g := FindIdle(t, now, role).value;
            GpuAt(t, g).busyUntil == GpuAt(t, h).busyUntil ==> NotAfter(t, g, h)
  {
    FirstIdleAmong(t, |t|, now, role, h);
  }

  lemma {:induction false} FirstEarliestOn(gpus: seq<Gpu>, now: u64, role: Role, j: nat)
    requires j < |gpus| && Serves(gpus[j], role)
    ensures NodeEarliest(gpus, now, role).Some?
    ensures StartOn(gpus[NodeEarliest(gpus, now, role).value], now) == StartOn(gpus[j], now) ==>
              NodeEarliest(gpus, now, role).value <= j
  {
    if j < |gpus| - 1 { FirstEarliestOn(gpus[..|gpus|-1], now, role, j); }
  }

  lemma {:induction false} EarliestAmongWhere(t: Topology, k: nat, now: u64, role: Role)
    requires Distinct(t) && k <= |t|
    ensures EarliestAmong(t, k, now, role).Some? ==> NodeIndex(t, EarliestAmong(t, k, now, role).value.0.node) < k
  {
    hide NodeEarliest, HasGpu, GpuAt, NodeIndex;
    if k > 0 {
      EarliestAmongWhere(t, k - 1, now, role);
      IndexOfNode(t, k - 1);
    }
  }

  function GpuOf(r: Option<(GpuRef, u64)>): Option<GpuRef> {
    if r.Some? then Some(r.value.0) else None
  }

  function StartOf(r: Option<(GpuRef, u64)>): int {
    if r.Some? then r.value.1 else -1
  }

  lemma EarliestPicks(t: Topology, k: nat, now: u64, role: Role)
    requires Distinct(t) && 0 < k <= |t|
    ensures var best, found := EarliestAmong(t, k - 1, now, role), NodeEarliest(t[k-1].gpus, now, role);
            var g := if found.None? then None
                     else Some((GpuRef(t[k-1].nodeId, found.value), StartOn(t[k-1].gpus[found.value], now)));
            EarliestAmong(t, k, now, role) ==
              if GpuOf(g).None? || (GpuOf(best).Some? && StartOf(best) <= StartOf(g)) then best else g
  {
    hide NodeEarliest, HasGpu, GpuAt, NodeIndex, Distinct;
  }

  lemma NodeEarliestLeads(t: Topology, k: nat, now: u64, role: Role, h: GpuRef)
    requires Distinct(t) && k < |t| && HasGpu(t, h) && NodeIndex(t, h.node) == k && Serves(GpuAt(t, h), role)
    ensures NodeEarliest(t[k].gpus, now, role).Some?
    ensures var i := NodeEarliest(t[k].gpus, now, role).value;
            Leads(t, Some(GpuRef(t[k].nodeId, i)), StartOn(t[k].gpus[i], now), h, StartOn(GpuAt(t, h), now))
  {
    assert t[k].gpus[h.idx] == GpuAt(t, h);
    FirstEarliestOn(t[k].gpus, now, role, h.idx);
    IndexOfNode(t, k);
  }

  lemma {:induction false} FirstEarliestAmong(t: Topology, k: nat, now: u64, role: Role, h: GpuRef)
    requires Distinct(t) && k <= |t| && HasGpu(t, h) && NodeIndex(t, h.node) < k && Serves(GpuAt(t, h), role)
    ensures var r := EarliestAmong(t, k, now, role); Leads(t, GpuOf(r), StartOf(r), h, StartOn(GpuAt(t, h), now))
  {
    hide EarliestAmong, NodeEarliest, NodeIndex, HasGpu, GpuAt, Serves, Distinct, Leads, StartOn;
    var best, found := EarliestAmong(t, k - 1, now, role), NodeEarliest(t[k-1].gpus, now, role);
    var g := if found.None? then None
             else Some((GpuRef(t[k-1].nodeId, found.value), StartOn(t[k-1].gpus[found.value], now)));
    EarliestPicks(t, k, now, role);
    EarliestAmongWhere(t, k - 1, now, role);
    if NodeIndex(t, h.node) < k - 1 {
      FirstEarliestAmong(t, k - 1, now, role, h);
    } else {
      NodeEarliestLeads(t, k - 1, now, role, h);
    }
    PickLeads(t, GpuOf(best), StartOf(best), GpuOf(g), StartOf(g), h, StartOn(GpuAt(t, h), now));
  }

  /** Among GPUs that can start equally early the scan takes the first. */
  lemma FirstEarliest(t: Topology, now: u64, role: Role, h: GpuRef)
    requires Distinct(t) && HasGpu(t, h) && Serves(GpuAt(t, h), role)
    ensures EarliestStart(t, now, role).Some?
    ensures var (g, start) := EarliestStart(t, now, role).value;
            start == StartOn(GpuAt(t, h), now) ==> NotAfter(t, g, h)
  {
    FirstEarliestAmong(t, |t|, now, role, h);
  }

  /** `earliest_gpu_for`: a scan over the nodes that keeps the best start seen. */
  method EarliestGpuFor(t: Topology, now: u64, role: Role) returns (best: Option<(GpuRef, u64)>)
    requires Distinct(t)
    ensures best == EarliestStart(t, now, role)
  {
    best := None;
    for k := 0 to |t|
      invariant best == EarliestAmong(t, k, now, role)
    {
      hide HasGpu, GpuAt, NodeIndex, Serves;
      var i := NodeEarliest(t[k].gpus, now, role);
      if i.Some? {
        var start := StartOn(t[k].gpus[i.value], now);
        if best.None? || start < best.value.1 {
          best := Some((GpuRef(t[k].nodeId, i.value), start));
        }
      }
    }
  }
}
