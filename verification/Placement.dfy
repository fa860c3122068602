/** The placement policies: where a new KV object goes, and which objects make room for it (src/policy/). */
module Placement {
  import opened Numbers
  import opened Tiers
  import opened Cache
  import opened Lru
  import opened CacheStore
  import opened Cluster
  import opened Transfer

  /** What a policy is asked to store. */
  datatype Job = Job(kvId: u64, session: u64, prefixTokens: u32, bytes: u64, now: u64)
  {
    function At(l: Location): KvObject {
      KvObject(kvId, session, prefixTokens, bytes, l, now)
    }
  }

  datatype Outcome = Placed(loc: Location, evicted: seq<EvictedKv>) | Refused

  /** `cluster.node(id)?.gpus.first()?.gpu_id`. */
  function FirstGpu(t: Topology, node: u32): Option<u32> {
    var i := NodeIndex(t, node);
    if i < |t| && t[i].gpus != [] then Some(t[i].gpus[0].gpuId) else None
  }

  /** The GPU named is the one in the first position of the node. */
  lemma FirstGpuIsFirst(t: Topology, node: u32)
    ensures FirstGpu(t, node).Some? <==> HasGpu(t, GpuRef(node, 0))
    ensures FirstGpu(t, node).Some? ==> FirstGpu(t, node).value == GpuAt(t, GpuRef(node, 0)).gpuId
  {}

  // ---- what every policy does to the cache ----

  /** Some objects are removed; then the new one is stored and the removed ones are reported, or neither. */
  ghost predicate Effect(c: State, j: Job, ids: seq<u64>, out: Outcome, c': State) {
    var d := After(c, ids);
    && NoRepeats(ids) && SetOf(ids) <= c.objects.Keys
    && (out.Placed? ==> Fits(d, j.At(out.loc)) && c' == Insert(d, j.At(out.loc)).state && out.evicted == Listed(c, ids))
    && (out.Refused? ==> c' == d)
  }

  ghost predicate HasEffect(c: State, j: Job, out: Outcome, c': State) {
    exists ids :: Effect(c, j, ids, out, c')
  }

  /** Under a fresh id, placing keeps accounts and index in order, adds nothing but the new object, and leaves
      capacities and the id counter alone. */
  lemma EffectCoherent(c: State, j: Job, out: Outcome, c': State)
    requires HasEffect(c, j, out, c') && j.kvId !in c.objects
    ensures Coherent(c) ==> Coherent(c')
    ensures c'.capacities == c.capacities && c'.nextKvId == c.nextKvId
    ensures forall id | id in c'.objects ::
              if id == j.kvId then out.Placed? && c'.objects[id] == j.At(out.loc)
              else id in c.objects && c'.objects[id] == c.objects[id]
    ensures out.Placed? ==> c'.Lookup(j.session, j.prefixTokens) == Some(j.At(out.loc))
  {
    var ids :| Effect(c, j, ids, out, c');
    var d := After(c, ids);
    AfterCoherent(c, ids);
    AfterObjects(c, ids);
    if Coherent(c) && out.Placed? { InsertCoherent(d, j.At(out.loc)); }
  }

  /** Bytes are conserved by a successful call: what is stored now and what was reported evicted make up what was
      stored before and the new object. A refused call may have removed objects, and reports none of them. */
  lemma EffectBytes(c: State, j: Job, out: Outcome, c': State)
    requires HasEffect(c, j, out, c') && j.kvId !in c.objects
    ensures out.Placed? ==> TotalBytes(c'.objects) + SumBytes(out.evicted) == TotalBytes(c.objects) + j.bytes
    ensures out.Refused? ==> TotalBytes(c'.objects) <= TotalBytes(c.objects)
  {
    var ids :| Effect(c, j, ids, out, c');
    var d := After(c, ids);
    AfterTotal(c, ids);
    AfterObjects(c, ids);
    if out.Placed? {
      ListedBytes(c, ids);
      TotalOf(c'.objects, j.kvId);
      assert c'.objects - {j.kvId} == d.objects;
    }
  }

  /** One eviction run and an attempt to store, the common part of the policies. */
  lemma RunEffect(c: State, s: Slot, j: Job, ids: seq<u64>, out: Outcome, c': State)
    requires EvictRun(c, s, j.bytes, ids)
    requires var d := After(c, ids);
             if out.Placed? then Fits(d, j.At(out.loc)) && c' == Insert(d, j.At(out.loc)).state && out.evicted == Listed(c, ids)
             else c' == d
    ensures HasEffect(c, j, out, c')
  {
    ChosenObjects(c, s, j.bytes, ids);
    assert Effect(c, j, ids, out, c');
  }

  // ---- RemoteLru and SizeAware: one tier, a fallible insert ----

  /** Make room at the location, then insert whatever the result. */
  ghost predicate EvictAndInsert(c: State, s: Slot, l: Location, j: Job, out: Outcome, c': State)
    requires SlotOf(l) == Some(s)
  {
    exists ids :: EvictRun(c, s, j.bytes, ids) && EvictAndInsertWith(c, s, l, j, ids, out, c')
  }

  ghost predicate EvictAndInsertWith(c: State, s: Slot, l: Location, j: Job, ids: seq<u64>, out: Outcome, c': State) {
    var d := After(c, ids);
    && c' == Insert(d, j.At(l)).state
    && out == (if Insert(d, j.At(l)).ok then Placed(l, Listed(c, ids)) else Refused)
  }

  lemma EvictAndInsertEffect(c: State, s: Slot, l: Location, j: Job, out: Outcome, c': State)
    requires SlotOf(l) == Some(s) && EvictAndInsert(c, s, l, j, out, c')
    ensures HasEffect(c, j, out, c')
  {
    var ids :| EvictRun(c, s, j.bytes, ids) && EvictAndInsertWith(c, s, l, j, ids, out, c');
    RunEffect(c, s, j, ids, out, c');
  }

  lemma InsertedInSlot(d: State, o: KvObject, s: Slot, r: Slot)
    requires SlotOf(o.location) == Some(s) && r != s && o.kvId !in d.objects
    ensures Insert(d, o).state.InTier(r) == d.InTier(r)
  {}

  /** The call succeeds exactly when the tier is large enough, and only this tier loses objects. */
  lemma EvictAndInsertContract(c: State, s: Slot, l: Location, j: Job, out: Outcome, c': State)
    requires SlotOf(l) == Some(s) && EvictAndInsert(c, s, l, j, out, c') && Accounted(c) && j.kvId !in c.objects
    ensures out.Placed? <==> j.bytes <= c.Capacity(s)
    ensures out.Placed? ==> out.loc == l
    ensures forall r: Slot | r != s :: c'.InTier(r) == c.InTier(r)
  {
    var ids :| EvictRun(c, s, j.bytes, ids) && EvictAndInsertWith(c, s, l, j, ids, out, c');
    EvictMakesRoom(c, s, j.bytes, ids);
    EvictLeastRecent(c, s, j.bytes, ids);
    hide EvictRun, After, Accounted;
    forall r: Slot | r != s ensures c'.InTier(r) == c.InTier(r) {
      InsertedInSlot(After(c, ids), j.At(l), s, r);
    }
  }

  /** A refused call has emptied the tier for nothing and told nobody: the bytes lost are the tier's whole usage. So
      the books balance exactly when the object fits the tier or there was nothing to lose. */
  lemma RefusedEmptiesTier(c: State, s: Slot, l: Location, j: Job, out: Outcome, c': State)
    requires SlotOf(l) == Some(s) && EvictAndInsert(c, s, l, j, out, c') && Accounted(c) && out.Refused?
    ensures c'.InTier(s) == {} && TotalBytes(c'.objects) + c.Usage(s) == TotalBytes(c.objects)
  {
    var ids :| EvictRun(c, s, j.bytes, ids) && EvictAndInsertWith(c, s, l, j, ids, out, c');
    EvictMakesRoom(c, s, j.bytes, ids);
    EvictLeastRecent(c, s, j.bytes, ids);
    ChosenObjects(c, s, j.bytes, ids);
    hide EvictRun, After, Accounted;
    AfterTotal(c, ids);
    ChosenUsage(c, s, j.bytes, ids, s);
    AfterCoherent(c, ids);
    EmptyTierUsage(After(c, ids), s);
  }

  lemma EmptyTierUsage(c: State, s: Slot)
    requires Accounted(c) && c.InTier(s) == {}
    ensures c.Usage(s) == 0
  {
    assert Charges(c, s);
    forall id | id in c.objects ensures SlotOf(c.objects[id].location) != Some(s) {
      assert id !in c.InTier(s);
    }
    EmptyTierUnused(c.objects, s);
  }

  datatype RemoteLru = RemoteLru(targetNode: u32)
  {
    method Place(cache: CacheState, j: Job) returns (out: Outcome)
      modifies cache
      ensures EvictAndInsert(old(cache.Value()), (targetNode, RemoteMemoryTier), InRemoteMemory(targetNode), j, out, cache.Value())
    {
      ghost var c := cache.Value();
      var l := InRemoteMemory(targetNode);
      var evicted, ids := cache.EvictLru((targetNode, RemoteMemoryTier), j.bytes);
      var ok := cache.Insert(j.At(l));
      out := if ok then Placed(l, evicted) else Refused;
      assert EvictAndInsertWith(c, (targetNode, RemoteMemoryTier), l, j, ids, out, cache.Value());
    }
  }

  datatype SizeAware = SizeAware(targetNode: u32, gpuThresholdBytes: u64)
  {
    function Tier(j: Job): TierKind {
      if j.bytes <= gpuThresholdBytes then GpuTier else CpuTier
    }

    /** The GPU is always called number 0 here, whatever the cluster says. */
    function Target(j: Job): (l: Location)
      ensures SlotOf(l) == Some((targetNode, Tier(j)))
    {
      if Tier(j) == GpuTier then InGpu(targetNode, 0) else InCpu(targetNode)
    }

    method Place(cache: CacheState, j: Job) returns (out: Outcome)
      modifies cache
      ensures EvictAndInsert(old(cache.Value()), (targetNode, Tier(j)), Target(j), j, out, cache.Value())
    {
      ghost var c := cache.Value();
      var l := Target(j);
      var evicted, ids := cache.EvictLru((targetNode, Tier(j)), j.bytes);
      var ok := cache.Insert(j.At(l));
      out := if ok then Placed(l, evicted) else Refused;
      assert EvictAndInsertWith(c, (targetNode, Tier(j)), l, j, ids, out, cache.Value());
    }
  }

  /** Objects up to the threshold go to the GPU tier, larger ones to the CPU tier, each exactly when that tier is large
      enough; the other tier loses nothing and takes nothing. */
  lemma SizeAwareContract(p: SizeAware, c: State, j: Job, out: Outcome, c': State)
    requires EvictAndInsert(c, (p.targetNode, p.Tier(j)), p.Target(j), j, out, c') && Accounted(c) && j.kvId !in c.objects
    ensures j.bytes <= p.gpuThresholdBytes ==>
              && (out.Placed? <==> j.bytes <= c.Capacity((p.targetNode, GpuTier)))
              && (out.Placed? ==> out.loc == InGpu(p.targetNode, 0))
              && c'.InTier((p.targetNode, CpuTier)) == c.InTier((p.targetNode, CpuTier))
    ensures p.gpuThresholdBytes < j.bytes ==>
              && (out.Placed? <==> j.bytes <= c.Capacity((p.targetNode, CpuTier)))
              && (out.Placed? ==> out.loc == InCpu(p.targetNode))
              && c'.InTier((p.targetNode, GpuTier)) == c.InTier((p.targetNode, GpuTier))
  {
    hide EvictAndInsert, Accounted;
    EvictAndInsertContract(c, (p.targetNode, p.Tier(j)), p.Target(j), j, out, c');
  }

  // ---- LocalGpuLru: the GPU tier, then whatever room the CPU tier has ----

  ghost predicate GpuThenCpuWith(c: State, t: Topology, node: u32, j: Job, ids: seq<u64>, out: Outcome, c': State) {
    var d, gpu := After(c, ids), FirstGpu(t, node);
    if gpu.Some? && j.bytes <= d.Available((node, GpuTier)) then
      out == Placed(InGpu(node, gpu.value), Listed(c, ids)) && c' == Insert(d, j.At(InGpu(node, gpu.value))).state
    else if j.bytes <= d.Available((node, CpuTier)) then
      out == Placed(InCpu(node), Listed(c, ids)) && c' == Insert(d, j.At(InCpu(node))).state
    else
      out == Refused && c' == d
  }

  ghost predicate GpuThenCpu(c: State, t: Topology, node: u32, j: Job, out: Outcome, c': State) {
    exists ids :: EvictRun(c, (node, GpuTier), j.bytes, ids) && GpuThenCpuWith(c, t, node, j, ids, out, c')
  }

  /** `find_gpu_with_space`. */
  function FindGpuWithSpace(t: Topology, c: State, node: u32, bytes: u64): Option<u32> {
    if bytes <= c.Available((node, GpuTier)) then FirstGpu(t, node) else None
  }

  datatype LocalGpuLru = LocalGpuLru(targetNode: u32)
  {
    method Place(cache: CacheState, t: Topology, j: Job) returns (out: Outcome)
      modifies cache
      ensures GpuThenCpu(old(cache.Value()), t, targetNode, j, out, cache.Value())
    {
      hide FirstGpu;
      ghost var c := cache.Value();
      var gpu := FindGpuWithSpace(t, cache.Value(), targetNode, j.bytes);
      if gpu.Some? {
        var l := InGpu(targetNode, gpu.value);
        var ok := cache.Insert(j.At(l));
        out := Placed(l, []);
        NothingEvicted(c, (targetNode, GpuTier), j.bytes);
        assert GpuThenCpuWith(c, t, targetNode, j, [], out, cache.Value());
        return;
      }
      var evicted, ids := cache.EvictLru((targetNode, GpuTier), j.bytes);
      hide After, Listed, Insert, EvictRun;
      if j.bytes <= cache.Value().Available((targetNode, GpuTier)) {
        gpu := FindGpuWithSpace(t, cache.Value(), targetNode, j.bytes);
        if gpu.Some? {
          var l := InGpu(targetNode, gpu.value);
          InsertFits(cache.Value(), j.At(l));
          var ok := cache.Insert(j.At(l));
          out := Placed(l, evicted);
          assert GpuThenCpuWith(c, t, targetNode, j, ids, out, cache.Value());
          return;
        }
      }
      if j.bytes <= cache.Value().Available((targetNode, CpuTier)) {
        var l := InCpu(targetNode);
        InsertFits(cache.Value(), j.At(l));
        var ok := cache.Insert(j.At(l));
        out := Placed(l, evicted);
        assert GpuThenCpuWith(c, t, targetNode, j, ids, out, cache.Value());
        return;
      }
      out := Refused;
      assert GpuThenCpuWith(c, t, targetNode, j, ids, out, cache.Value());
    }
  }

  lemma InsertFits(c: State, o: KvObject)
    requires Fits(c, o)
    ensures Insert(c, o).ok
  {}

  lemma NothingEvicted(c: State, s: Slot, bytes: u64)
    requires bytes <= c.Available(s)
    ensures EvictRun(c, s, bytes, []) && Listed(c, []) == [] && After(c, []) == c
  {}

  lemma GpuThenCpuEffect(c: State, t: Topology, node: u32, j: Job, out: Outcome, c': State)
    requires GpuThenCpu(c, t, node, j, out, c')
    ensures HasEffect(c, j, out, c')
  {
    var ids :| EvictRun(c, (node, GpuTier), j.bytes, ids) && GpuThenCpuWith(c, t, node, j, ids, out, c');
    hide FirstGpu, After, EvictRun, Insert, Listed;
    RunEffect(c, (node, GpuTier), j, ids, out, c');
  }

  /** Eviction in one slot leaves the room and the objects of every other slot as they are. */
  lemma OtherSlotKept(c: State, s: Slot, bytes: u64, ids: seq<u64>, r: Slot)
    requires Accounted(c) && EvictRun(c, s, bytes, ids) && r != s
    ensures After(c, ids).Available(r) == c.Available(r)
    ensures forall id | id in c.InTier(r) :: id in After(c, ids).objects && After(c, ids).objects[id] == c.objects[id]
  {
    ChosenUsage(c, s, bytes, ids, r);
    ChosenObjects(c, s, bytes, ids);
  }

  /** The object goes to the GPU exactly when the node has one and its tier is large enough; otherwise to the CPU
      exactly when that has room as it is. */
  lemma GpuThenCpuContract(c: State, t: Topology, node: u32, j: Job, out: Outcome, c': State)
    requires GpuThenCpu(c, t, node, j, out, c') && Accounted(c)
    ensures var gpu := FirstGpu(t, node).Some? && j.bytes <= c.Capacity((node, GpuTier));
            && (out.Placed? <==> gpu || j.bytes <= c.Available((node, CpuTier)))
            && (out.Placed? ==> out.loc == if gpu then InGpu(node, FirstGpu(t, node).value) else InCpu(node))
  {
    hide FirstGpu, After, EvictRun, Accounted, Insert, Listed;
    var ids :| EvictRun(c, (node, GpuTier), j.bytes, ids) && GpuThenCpuWith(c, t, node, j, ids, out, c');
    EvictMakesRoom(c, (node, GpuTier), j.bytes, ids);
    OtherSlotKept(c, (node, GpuTier), j.bytes, ids, (node, CpuTier));
  }

  lemma InsertedElsewhere(d: State, o: KvObject, s: Slot)
    requires d.InTier(s) == {} && SlotOf(o.location) != Some(s)
    ensures Insert(d, o).state.InTier(s) == {}
  {
    forall id | id in Insert(d, o).state.objects ensures id !in Insert(d, o).state.InTier(s) {
      if id in d.objects { assert id !in d.InTier(s); }
    }
  }

  /** The CPU tier never gives anything up, but a GPU tier that is too small is emptied all the same. */
  lemma GpuThenCpuVictims(c: State, t: Topology, node: u32, j: Job, out: Outcome, c': State)
    requires GpuThenCpu(c, t, node, j, out, c') && Accounted(c) && j.kvId !in c.objects
    ensures c.Capacity((node, GpuTier)) < j.bytes ==> c'.InTier((node, GpuTier)) == {}
    ensures forall id | id in c.InTier((node, CpuTier)) :: id in c'.objects && c'.objects[id] == c.objects[id]
  {
    hide FirstGpu, After, EvictRun, Accounted, Listed;
    var ids :| EvictRun(c, (node, GpuTier), j.bytes, ids) && GpuThenCpuWith(c, t, node, j, ids, out, c');
    var d := After(c, ids);
    EvictMakesRoom(c, (node, GpuTier), j.bytes, ids);
    OtherSlotKept(c, (node, GpuTier), j.bytes, ids, (node, CpuTier));
    if c.Capacity((node, GpuTier)) < j.bytes {
      InsertedElsewhere(d, j.At(InCpu(node)), (node, GpuTier));
    }
  }

  // ---- CpuOffloadLru: evict on the GPU, then evict on the CPU ----

  ghost predicate OffloadWith(c: State, t: Topology, node: u32, j: Job, onGpu: seq<u64>, onCpu: seq<u64>,
                              out: Outcome, c': State) {
    var d, gpu := After(c, onGpu), FirstGpu(t, node);
    && EvictRun(c, (node, GpuTier), j.bytes, onGpu)
    && if gpu.Some? && j.bytes <= d.Available((node, GpuTier)) then
         && onCpu == [] && out == Placed(InGpu(node, gpu.value), Listed(c, onGpu))
         && c' == Insert(d, j.At(InGpu(node, gpu.value))).state
       else
         var e := After(d, onCpu);
         && EvictRun(d, (node, CpuTier), j.bytes, onCpu)
         && if j.bytes <= e.Available((node, CpuTier)) then
              && out == Placed(InCpu(node), Listed(c, onGpu) + Listed(d, onCpu))
              && c' == Insert(e, j.At(InCpu(node))).state
            else out == Refused && c' == e
  }

  ghost predicate Offload(c: State, t: Topology, node: u32, j: Job, out: Outcome, c': State) {
    exists onGpu, onCpu :: OffloadWith(c, t, node, j, onGpu, onCpu, out, c')
  }

  /** `try_place_in_tier` for the two tiers the policy uses. */
  function TryGpu(t: Topology, c: State, node: u32, bytes: u64): Option<Location> {
    if c.Available((node, GpuTier)) < bytes then None
    else match FirstGpu(t, node) case Some(g) => Some(InGpu(node, g)) case None => None
  }

  function TryCpu(c: State, node: u32, bytes: u64): Option<Location> {
    if c.Available((node, CpuTier)) < bytes then None else Some(InCpu(node))
  }

  datatype CpuOffloadLru = CpuOffloadLru(targetNode: u32)
  {
    method Place(cache: CacheState, t: Topology, j: Job) returns (out: Outcome)
      modifies cache
      ensures Offload(old(cache.Value()), t, targetNode, j, out, cache.Value())
    {
      hide FirstGpu, After, Listed, EvictRun, Insert;
      ghost var c := cache.Value();
      var l := TryGpu(t, cache.Value(), targetNode, j.bytes);
      if l.Some? {
        var ok := cache.Insert(j.At(l.value));
        out := Placed(l.value, []);
        NothingEvicted(c, (targetNode, GpuTier), j.bytes);
        assert OffloadWith(c, t, targetNode, j, [], [], out, cache.Value());
        return;
      }
      var evicted, onGpu := cache.EvictLru((targetNode, GpuTier), j.bytes);
      ghost var d := cache.Value();
      l := TryGpu(t, cache.Value(), targetNode, j.bytes);
      if l.Some? {
        var ok := cache.Insert(j.At(l.value));
        out := Placed(l.value, evicted);
        assert OffloadWith(c, t, targetNode, j, onGpu, [], out, cache.Value());
        return;
      }
      l := TryCpu(cache.Value(), targetNode, j.bytes);
      if l.Some? {
        var ok := cache.Insert(j.At(l.value));
        out := Placed(l.value, evicted);
        NothingEvicted(d, (targetNode, CpuTier), j.bytes);
        assert evicted + [] == evicted;
        assert OffloadWith(c, t, targetNode, j, onGpu, [], out, cache.Value());
        return;
      }
      var more, onCpu := cache.EvictLru((targetNode, CpuTier), j.bytes);
      evicted := evicted + more;
      l := TryCpu(cache.Value(), targetNode, j.bytes);
      if l.Some? {
        var ok := cache.Insert(j.At(l.value));
        out := Placed(l.value, evicted);
        assert OffloadWith(c, t, targetNode, j, onGpu, onCpu, out, cache.Value());
        return;
      }
      out := Refused;
      assert OffloadWith(c, t, targetNode, j, onGpu, onCpu, out, cache.Value());
    }
  }

  lemma ListedBoth(c: State, d: State, a: seq<u64>, b: seq<u64>)
    requires d.objects == c.objects - SetOf(a) && SetOf(b) <= d.objects.Keys
    ensures Listed(c, a + b) == Listed(c, a) + Listed(d, b)
  {
    forall i | 0 <= i < |b| ensures b[i] in d.objects && c.objects[b[i]] == d.objects[b[i]] {
      assert b[i] in SetOf(b);
    }
  }

  lemma NoRepeatsBoth(a: seq<u64>, b: seq<u64>)
    requires NoRepeats(a) && NoRepeats(b) && SetOf(a) !! SetOf(b)
    ensures NoRepeats(a + b) && SetOf(a + b) == SetOf(a) + SetOf(b)
  {
    forall i, j | 0 <= i < |a| && 0 <= j < |b| ensures a[i] != b[j] {
      assert a[i] in SetOf(a) && b[j] in SetOf(b);
    }
    forall x ensures x in a + b <==> x in a || x in b {
      if x in a + b {
        var k :| 0 <= k < |a + b| && (a + b)[k] == x;
      }
      if x in a {
        var k :| 0 <= k < |a| && a[k] == x;
        assert (a + b)[k] == x;
      }
      if x in b {
        var k :| 0 <= k < |b| && b[k] == x;
        assert (a + b)[|a| + k] == x;
      }
    }
  }

  lemma TwoRuns(c: State, s: Slot, r: Slot, bytes: u64, a: seq<u64>, b: seq<u64>)
    requires EvictRun(c, s, bytes, a) && EvictRun(After(c, a), r, bytes, b)
    ensures NoRepeats(a + b) && SetOf(a + b) <= c.objects.Keys
    ensures After(c, a + b) == After(After(c, a), b)
    ensures Listed(c, a + b) == Listed(c, a) + Listed(After(c, a), b)
  {
    ChosenObjects(c, s, bytes, a);
    ChosenObjects(After(c, a), r, bytes, b);
    hide After, EvictRun, Chosen, Listed, NoRepeats, SetOf;
    AfterBoth(c, a, b);
    NoRepeatsBoth(a, b);
    ListedBoth(c, After(c, a), a, b);
  }

  lemma OffloadEffect(c: State, t: Topology, node: u32, j: Job, out: Outcome, c': State)
    requires Offload(c, t, node, j, out, c')
    ensures HasEffect(c, j, out, c')
  {
    hide FirstGpu, After, EvictRun, Insert, Listed;
    var onGpu, onCpu :| OffloadWith(c, t, node, j, onGpu, onCpu, out, c');
    if out.Placed? && out.loc.InGpu? {
      RunEffect(c, (node, GpuTier), j, onGpu, out, c');
    } else {
      TwoRuns(c, (node, GpuTier), (node, CpuTier), j.bytes, onGpu, onCpu);
      assert Effect(c, j, onGpu + onCpu, out, c');
    }
  }

  /** The call succeeds exactly when one of the two tiers is large enough, and prefers the GPU whenever that can be.
      */
  lemma OffloadContract(c: State, t: Topology, node: u32, j: Job, out: Outcome, c': State)
    requires Offload(c, t, node, j, out, c') && Accounted(c)
    ensures var gpu := FirstGpu(t, node).Some? && j.bytes <= c.Capacity((node, GpuTier));
            && (out.Placed? <==> gpu || j.bytes <= c.Capacity((node, CpuTier)))
            && (out.Placed? ==> out.loc == if gpu then InGpu(node, FirstGpu(t, node).value) else InCpu(node))
  {
    hide FirstGpu, After, EvictRun, Accounted, Insert, Listed;
    var onGpu, onCpu :| OffloadWith(c, t, node, j, onGpu, onCpu, out, c');
    var d := After(c, onGpu);
    EvictMakesRoom(c, (node, GpuTier), j.bytes, onGpu);
    AfterCoherent(c, onGpu);
    AfterObjects(c, onGpu);
    if !(FirstGpu(t, node).Some? && j.bytes <= d.Available((node, GpuTier))) {
      EvictMakesRoom(d, (node, CpuTier), j.bytes, onCpu);
    }
  }
}
