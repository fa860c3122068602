/** The cache as the object the runner and the policies mutate (src/cache/state.rs), and the eviction loop run on it.
    */
module CacheStore {
  import opened Numbers
  import opened Tiers
  import opened Cache
  import opened Lru

  class CacheState {
    var objects: map<u64, KvObject>
    var index: map<(u64, u32), u64>
    var capacities: map<Slot, u64>
    var usage: map<Slot, u64>
    var nextKvId: u64

    function Value(): State
      reads this
    {
      State(objects, index, capacities, usage, nextKvId)
    }

    constructor ()
      ensures Value() == Empty()
    {
      objects, index, capacities, usage, nextKvId := map[], map[], map[], map[], 0;
    }

    method SetCapacity(s: Slot, bytes: u64)
      modifies this
      ensures Value() == Cache.SetCapacity(old(Value()), s, bytes)
    {
      capacities := capacities[s := bytes];
      if s !in usage {
        usage := usage[s := 0];
      }
    }

    method AllocKvId() returns (id: u64)
      modifies this
      ensures (id, Value()) == Cache.AllocKvId(old(Value()))
    {
      id := nextKvId;
      nextKvId := SatAdd(nextKvId, 1);
    }

    /** Gives back an object's bytes, if its slot is accounted at all. */
    method Free(o: KvObject)
      modifies this`usage
      ensures usage == Freed(old(Value()), o)
    {
      var s := SlotOf(o.location);
      if s.Some? && s.value in usage {
        usage := usage[s.value := SatSub(usage[s.value], o.bytes)];
      }
    }

    /** Charges an object's bytes to its slot. */
    method Charge(o: KvObject)
      requires Fits(Value(), o)
      modifies this`usage
      ensures usage == Charged(old(Value()), o)
    {
      var s := SlotOf(o.location);
      if s.Some? {
        usage := usage[s.value := Value().Usage(s.value) + o.bytes];
      }
    }

    /** Charges an object again that was freed a moment ago. */
    method Recharge(o: KvObject)
      modifies this`usage
      ensures usage == Recharged(old(Value()), o)
    {
      var s := SlotOf(o.location);
      if s.Some? {
        usage := usage[s.value := Cap(Value().Usage(s.value) + o.bytes)];
      }
    }

    method Remove(id: u64) returns (o: Option<KvObject>)
      modifies this
      ensures Value() == Cache.Remove(old(Value()), id)
      ensures o == if id in old(objects) then Some(old(objects)[id]) else None
    {
      if id !in objects { return None; }
      o := Some(objects[id]);
      objects := objects - {id};
      index := index - {o.value.Key()};
      Free(o.value);
    }

    method Insert(o: KvObject) returns (ok: bool)
      modifies this
      ensures Attempt(ok, Value()) == Cache.Insert(old(Value()), o)
    {
      if !Fits(Value(), o) { return false; }
      Charge(o);
      index := index[o.Key() := o.kvId];
      objects := objects[o.kvId := o];
      ok := true;
    }

    method UpdateAccess(id: u64, now: u64)
      modifies this
      ensures Value() == Cache.UpdateAccess(old(Value()), id, now)
    {
      if id in objects {
        objects := objects[id := objects[id].(lastAccess := now)];
      }
    }

    method Relocate(id: u64, l: Location, now: u64) returns (ok: bool)
      modifies this
      ensures Attempt(ok, Value()) == Cache.Relocate(old(Value()), id, l, now)
    {
      hide Freed, Charged, Recharged, Fits;
      if id !in objects { return false; }
      var o := objects[id];
      objects := objects - {id};
      Free(o);
      assert usage == Freed(old(Value()), o) by { FreedIgnoresObjects(old(Value()), objects, o); }
      var moved := o.(location := l, lastAccess := now);
      if !Fits(Value(), moved) {
        Recharge(o);
        objects := objects[id := o];
        return false;
      }
      Charge(moved);
      objects := objects[id := moved];
      ok := true;
    }

    /** Some least recently used object of the slot. */
    method Oldest(s: Slot) returns (victim: Option<u64>)
      ensures victim.None? <==> Value().InTier(s) == {}
      ensures victim.Some? ==> Victim(Value(), s, victim.value)
    {
      var candidates := Value().InTier(s);
      if candidates == {} { return None; }
      OldestExists(Value(), s, candidates);
      var id :| id in candidates && forall k | k in candidates :: objects[id].lastAccess <= objects[k].lastAccess;
      victim := Some(id);
    }

    /** Remove least recently used objects of the slot until `bytes` fit or nothing is left. */
    method EvictLru(s: Slot, bytes: u64) returns (evicted: seq<EvictedKv>, ghost ids: seq<u64>)
      modifies this
      ensures EvictRun(old(Value()), s, bytes, ids) && Value() == After(old(Value()), ids)
      ensures evicted == Listed(old(Value()), ids)
    {
      evicted, ids := [], [];
      ghost var start := Value();
      while Value().Available(s) < bytes
        invariant Chosen(start, s, bytes, ids) && Value() == After(start, ids)
        invariant evicted == Listed(start, ids)
        decreases |objects|
      {
        var victim := Oldest(s);
        if victim.None? { break; }
        assert victim.value in objects;
        hide Listed, After, Chosen, Victim, Cache.Remove;
        ChosenGrows(start, s, bytes, ids, victim.value);
        AfterObjects(start, ids);
        ListedGrows(start, ids, victim.value);
        RemoveShrinks(Value(), victim.value);
        var o := Remove(victim.value);
        evicted, ids := evicted + [EvictedKv(victim.value, o.value.bytes)], ids + [victim.value];
      }
    }
  }

  lemma RemoveShrinks(c: State, id: u64)
    requires id in c.objects
    ensures |Cache.Remove(c, id).objects| < |c.objects|
  {}

  lemma FreedIgnoresObjects(c: State, objects: map<u64, KvObject>, o: KvObject)
    ensures Freed(c.(objects := objects), o) == Freed(c, o)
  {}

  lemma {:induction false} OldestExists(c: State, s: Slot, ids: set<u64>)
    requires ids != {} && forall k | k in ids :: k in c.objects
    ensures exists id :: id in ids && forall k | k in ids :: c.objects[id].lastAccess <= c.objects[k].lastAccess
    decreases |ids|
  {
    var x :| x in ids;
    if ids == {x} {
      assert forall k | k in ids :: k == x;
    } else {
      OldestExists(c, s, ids - {x});
      var y :| y in ids - {x} && forall k | k in ids - {x} :: c.objects[y].lastAccess <= c.objects[k].lastAccess;
      var best := if c.objects[x].lastAccess <= c.objects[y].lastAccess then x else y;
      forall k | k in ids ensures c.objects[best].lastAccess <= c.objects[k].lastAccess {
        if k != x { assert k in ids - {x}; }
      }
    }
  }
}
