/** Least-recently-used eviction from one tier, the loop shared by all placement policies (src/policy/). Objects with
    equal access times are removed in no particular order. */
module Lru {
  import opened Numbers
  import opened Tiers
  import opened Cache

  /** Nothing in the slot was used longer ago. */
  ghost predicate Victim(c: State, s: Slot, id: u64) {
    && id in c.InTier(s)
    && forall k | k in c.InTier(s) :: c.objects[id].lastAccess <= c.objects[k].lastAccess
  }

  /** The state after removing the given objects one by one. */
  function After(c: State, ids: seq<u64>): State {
    if ids == [] then c else Remove(After(c, ids[..|ids|-1]), ids[|ids|-1])
  }

  /** Each object was removed because room was still lacking, and was then a least recently used one. */
  ghost predicate Chosen(c: State, s: Slot, bytes: u64, ids: seq<u64>) {
    forall i | 0 <= i < |ids| :: After(c, ids[..i]).Available(s) < bytes && Victim(After(c, ids[..i]), s, ids[i])
  }

  /** A complete run of the loop: it stops when there is room, or nothing left to remove. */
  ghost predicate EvictRun(c: State, s: Slot, bytes: u64, ids: seq<u64>) {
    Chosen(c, s, bytes, ids) && (bytes <= After(c, ids).Available(s) || After(c, ids).InTier(s) == {})
  }

  /** Bytes of the named objects. */
  function BytesOfIds(c: State, ids: seq<u64>): nat {
    if ids == [] then 0
    else
      var id := ids[|ids|-1];
      BytesOfIds(c, ids[..|ids|-1]) + if id in c.objects then c.objects[id].bytes else 0
  }

  lemma ChosenGrows(c: State, s: Slot, bytes: u64, ids: seq<u64>, id: u64)
    requires Chosen(c, s, bytes, ids) && After(c, ids).Available(s) < bytes && Victim(After(c, ids), s, id)
    ensures Chosen(c, s, bytes, ids + [id]) && After(c, ids + [id]) == Remove(After(c, ids), id)
  {
    var all := ids + [id];
    assert all[..|all|-1] == ids;
    forall i | 0 <= i < |all|
      ensures After(c, all[..i]).Available(s) < bytes && Victim(After(c, all[..i]), s, all[i])
    {
      hide After, Victim;
      if i < |ids| {
        assert all[..i] == ids[..i];
      } else {
        assert all[..i] == ids;
      }
    }
  }

  lemma ChosenPrefix(c: State, s: Slot, bytes: u64, ids: seq<u64>, n: nat)
    requires Chosen(c, s, bytes, ids) && n <= |ids|
    ensures Chosen(c, s, bytes, ids[..n])
  {
    hide Victim, After, State.Available;
    forall i | 0 <= i < n ensures ids[..n][..i] == ids[..i] {}
  }

  // ---- what is removed and what stays ----

  function SetOf(ids: seq<u64>): set<u64> {
    set id | id in ids
  }

  ghost predicate NoRepeats(ids: seq<u64>) {
    forall i, j | 0 <= i < j < |ids| :: ids[i] != ids[j]
  }

  lemma PushToSet(ids: seq<u64>, id: u64)
    ensures SetOf(ids + [id]) == SetOf(ids) + {id}
    ensures NoRepeats(ids) && id !in ids ==> NoRepeats(ids + [id])
  {
    forall x ensures x in SetOf(ids + [id]) <==> x in SetOf(ids) || x == id {
      if x in ids { assert x in ids + [id]; }
      assert (ids + [id])[|ids|] == id;
    }
  }

  /** `d` is `c` without the objects in `gone`, which were all in the slot. */
  ghost predicate Without(c: State, d: State, s: Slot, gone: set<u64>) {
    && gone <= c.InTier(s)
    && d.objects == c.objects - gone && d.capacities == c.capacities && d.nextKvId == c.nextKvId
  }

  lemma RemoveWithout(c: State, d: State, s: Slot, gone: set<u64>, id: u64)
    requires Without(c, d, s, gone) && id in d.InTier(s)
    ensures Without(c, Remove(d, id), s, gone + {id}) && id !in gone
  {
    assert c.objects - gone - {id} == c.objects - (gone + {id});
  }

  lemma AfterLast(c: State, ids: seq<u64>)
    requires ids != []
    ensures After(c, ids) == Remove(After(c, ids[..|ids|-1]), ids[|ids|-1])
  {}

  lemma LastVictim(c: State, s: Slot, bytes: u64, ids: seq<u64>)
    requires Chosen(c, s, bytes, ids) && ids != []
    ensures var n := |ids| - 1;
            && Chosen(c, s, bytes, ids[..n]) && Victim(After(c, ids[..n]), s, ids[n])
            && After(c, ids) == Remove(After(c, ids[..n]), ids[n]) && ids == ids[..n] + [ids[n]]
  {
    hide Victim, State.Available, After, Remove;
    var n := |ids| - 1;
    AfterLast(c, ids);
    assert Victim(After(c, ids[..n]), s, ids[n]);
    ChosenPrefix(c, s, bytes, ids, n);
    hide Chosen;
  }

  lemma {:induction false} ChosenObjects(c: State, s: Slot, bytes: u64, ids: seq<u64>)
    requires Chosen(c, s, bytes, ids)
    ensures Without(c, After(c, ids), s, SetOf(ids)) && NoRepeats(ids)
  {
    if ids == [] {
      assert SetOf(ids) == {};
    } else {
      var n := |ids| - 1;
      LastVictim(c, s, bytes, ids);
      hide Chosen, Without, NoRepeats, SetOf, Remove, State.InTier, After;
      ChosenObjects(c, s, bytes, ids[..n]);
      RemoveWithout(c, After(c, ids[..n]), s, SetOf(ids[..n]), ids[n]);
      PushToSet(ids[..n], ids[n]);
      InSetOf(ids[..n], ids[n]);
    }
  }

  lemma InSetOf(ids: seq<u64>, id: u64)
    ensures id in SetOf(ids) <==> id in ids
  {}

  /** Removals keep the accounts and the index in order. */
  lemma {:induction false} AfterCoherent(c: State, ids: seq<u64>)
    ensures Accounted(c) ==> Accounted(After(c, ids))
    ensures IndexSound(c) ==> IndexSound(After(c, ids))
    ensures IndexComplete(c) ==> IndexComplete(After(c, ids))
  {
    if ids != [] {
      var n := |ids| - 1;
      AfterCoherent(c, ids[..n]);
      if Accounted(After(c, ids[..n])) { RemoveAccounted(After(c, ids[..n]), ids[n]); }
      RemoveIndexed(After(c, ids[..n]), ids[n]);
    }
  }

  /** Only the slot's own account changes, and by exactly the bytes removed. */
  lemma {:induction false} ChosenUsage(c: State, s: Slot, bytes: u64, ids: seq<u64>, r: Slot)
    requires Chosen(c, s, bytes, ids) && Accounted(c)
    ensures After(c, ids).Usage(r) + (if r == s then BytesOfIds(c, ids) else 0) == c.Usage(r)
  {
    if ids != [] {
      var n := |ids| - 1;
      ChosenPrefix(c, s, bytes, ids, n);
      ChosenUsage(c, s, bytes, ids[..n], r);
      AfterCoherent(c, ids[..n]);
      ChosenObjects(c, s, bytes, ids[..n]);
      RemoveAccounted(After(c, ids[..n]), ids[n]);
      assert Victim(After(c, ids[..n]), s, ids[n]);
    }
  }

  // ---- room ----

  lemma {:induction false} EmptyTierUnused(objects: map<u64, KvObject>, s: Slot)
    requires forall id | id in objects :: SlotOf(objects[id].location) != Some(s)
    ensures BytesIn(objects, s) == 0
    decreases |objects|
  {
    if objects != map[] {
      var id :| id in objects;
      BytesOf(objects, id, s);
      EmptyTierUnused(objects - {id}, s);
    }
  }

  /** The loop makes room exactly when the slot is large enough at all; otherwise it empties the slot. */
  lemma EvictMakesRoom(c: State, s: Slot, bytes: u64, ids: seq<u64>)
    requires Accounted(c) && EvictRun(c, s, bytes, ids)
    ensures bytes <= After(c, ids).Available(s) <==> bytes <= c.Capacity(s)
    ensures c.Capacity(s) < bytes ==> After(c, ids).InTier(s) == {}
  {
    var d := After(c, ids);
    ChosenObjects(c, s, bytes, ids);
    AfterCoherent(c, ids);
    assert Charges(d, s);
    if d.InTier(s) == {} {
      forall id | id in d.objects ensures SlotOf(d.objects[id].location) != Some(s) {
        assert id !in d.InTier(s);
      }
      EmptyTierUnused(d.objects, s);
    }
  }

  /** Nothing is removed needlessly: without the last victim the room would not have sufficed. */
  lemma LastEvictionNeeded(c: State, s: Slot, bytes: u64, ids: seq<u64>)
    requires Accounted(c) && EvictRun(c, s, bytes, ids) && ids != []
    ensures c.Available(s) + BytesOfIds(c, ids[..|ids|-1]) < bytes
  {
    var n := |ids| - 1;
    ChosenPrefix(c, s, bytes, ids, n);
    ChosenObjects(c, s, bytes, ids[..n]);
    ChosenUsage(c, s, bytes, ids[..n], s);
    assert Charges(c, s);
  }

  // ---- the order of eviction ----

  function AccessOf(c: State, id: u64): u64 {
    if id in c.objects then c.objects[id].lastAccess else 0
  }

  /** Whatever has not been removed before step `i` was used no longer ago than victim `i`. */
  lemma EvictInOrder(c: State, s: Slot, bytes: u64, ids: seq<u64>, i: nat, k: u64)
    requires Chosen(c, s, bytes, ids) && i < |ids| && k in c.InTier(s) && k !in ids[..i]
    ensures AccessOf(c, ids[i]) <= AccessOf(c, k)
  {
    var d := After(c, ids[..i]);
    assert Victim(d, s, ids[i]);
    ChosenPrefix(c, s, bytes, ids, i);
    ChosenObjects(c, s, bytes, ids[..i]);
    assert k in d.InTier(s);
  }

  ghost predicate Ascending(c: State, ids: seq<u64>) {
    forall i, j | 0 <= i < j < |ids| :: AccessOf(c, ids[i]) <= AccessOf(c, ids[j])
  }

  ghost predicate NoneNewer(c: State, ids: seq<u64>, rest: set<u64>) {
    forall i, k | 0 <= i < |ids| && k in rest :: AccessOf(c, ids[i]) <= AccessOf(c, k)
  }

  lemma OtherSlots(c: State, d: State, s: Slot, gone: set<u64>, r: Slot)
    requires Without(c, d, s, gone) && r != s
    ensures d.InTier(r) == c.InTier(r)
  {}

  /** Victims come out in order of last access, none was used after a survivor of the slot, other slots keep their
      objects, and the loop removes no more objects than the slot held. */
  lemma EvictLeastRecent(c: State, s: Slot, bytes: u64, ids: seq<u64>)
    requires EvictRun(c, s, bytes, ids)
    ensures SetOf(ids) <= c.InTier(s) && After(c, ids).objects == c.objects - SetOf(ids)
    ensures Ascending(c, ids) && NoneNewer(c, ids, After(c, ids).InTier(s))
    ensures forall r: Slot | r != s :: After(c, ids).InTier(r) == c.InTier(r)
    ensures |ids| <= |c.InTier(s)|
  {
    ChosenObjects(c, s, bytes, ids);
    forall i, j | 0 <= i < j < |ids| ensures AccessOf(c, ids[i]) <= AccessOf(c, ids[j]) {
      VictimsInOrder(c, s, bytes, ids, i, j);
    }
    forall i, k | 0 <= i < |ids| && k in After(c, ids).InTier(s) ensures AccessOf(c, ids[i]) <= AccessOf(c, k) {
      SurvivorsNewer(c, s, bytes, ids, i, k);
    }
    forall r: Slot | r != s ensures After(c, ids).InTier(r) == c.InTier(r) {
      OtherSlots(c, After(c, ids), s, SetOf(ids), r);
    }
    DistinctCount(ids, c.InTier(s));
  }

  lemma VictimsInOrder(c: State, s: Slot, bytes: u64, ids: seq<u64>, i: nat, j: nat)
    requires Chosen(c, s, bytes, ids) && i < j < |ids|
    ensures AccessOf(c, ids[i]) <= AccessOf(c, ids[j])
  {
    ChosenObjects(c, s, bytes, ids);
    InSetOf(ids, ids[j]);
    EvictInOrder(c, s, bytes, ids, i, ids[j]);
  }

  lemma SurvivorsNewer(c: State, s: Slot, bytes: u64, ids: seq<u64>, i: nat, k: u64)
    requires Chosen(c, s, bytes, ids) && i < |ids| && k in After(c, ids).InTier(s)
    ensures AccessOf(c, ids[i]) <= AccessOf(c, k)
  {
    ChosenObjects(c, s, bytes, ids);
    InSetOf(ids, k);
    assert forall x | x in ids[..i] :: x in ids;
    EvictInOrder(c, s, bytes, ids, i, k);
  }

  lemma {:induction false} DistinctCount(ids: seq<u64>, all: set<u64>)
    requires SetOf(ids) <= all && NoRepeats(ids)
    ensures |ids| <= |all|
  {
    if ids != [] {
      var n := |ids| - 1;
      assert ids == ids[..n] + [ids[n]];
      PushToSet(ids[..n], ids[n]);
      DistinctCount(ids[..n], all - {ids[n]});
    }
  }

  /** Removing the objects frees the same number of bytes in the cache as a whole. */
  ghost function TotalBytes(objects: map<u64, KvObject>): nat {
    if objects == map[] then 0
    else
      var id :| id in objects;
      objects[id].bytes + TotalBytes(objects - {id})
  }

  lemma {:induction false} TotalOf(objects: map<u64, KvObject>, id: u64)
    requires id in objects
    ensures TotalBytes(objects) == objects[id].bytes + TotalBytes(objects - {id})
    decreases |objects|
  {
    var k :| k in objects && TotalBytes(objects) == objects[k].bytes + TotalBytes(objects - {k});
    if k != id {
      TotalOf(objects - {k}, id);
      TotalOf(objects - {id}, k);
      assert objects - {k} - {id} == objects - {id} - {k};
    }
  }

  lemma {:induction false} AfterObjects(c: State, ids: seq<u64>)
    ensures After(c, ids).objects == c.objects - SetOf(ids)
    ensures After(c, ids).capacities == c.capacities && After(c, ids).nextKvId == c.nextKvId
  {
    if ids == [] {
      assert SetOf(ids) == {};
    } else {
      var n := |ids| - 1;
      AfterObjects(c, ids[..n]);
      assert ids == ids[..n] + [ids[n]];
      PushToSet(ids[..n], ids[n]);
      assert c.objects - SetOf(ids[..n]) - {ids[n]} == c.objects - SetOf(ids);
    }
  }

  /** The bytes of the objects removed are missing afterwards, and no others. */
  lemma {:induction false} AfterTotal(c: State, ids: seq<u64>)
    requires NoRepeats(ids) && SetOf(ids) <= c.objects.Keys
    ensures TotalBytes(After(c, ids).objects) + BytesOfIds(c, ids) == TotalBytes(c.objects)
  {
    if ids != [] {
      var n := |ids| - 1;
      assert ids == ids[..n] + [ids[n]];
      PushToSet(ids[..n], ids[n]);
      AfterTotal(c, ids[..n]);
      AfterObjects(c, ids[..n]);
      TotalOf(After(c, ids[..n]).objects, ids[n]);
    }
  }

  lemma {:induction false} AfterBoth(c: State, a: seq<u64>, b: seq<u64>)
    ensures After(c, a + b) == After(After(c, a), b)
  {
    if b == [] {
      assert a + b == a;
    } else {
      var n := |b| - 1;
      assert (a + b)[..|a + b| - 1] == a + b[..n];
      AfterBoth(c, a, b[..n]);
    }
  }

  // ---- the list reported ----

  datatype EvictedKv = EvictedKv(kvId: u64, bytes: u64)

  /** Id and size of each object removed. */
  function Listed(c: State, ids: seq<u64>): (r: seq<EvictedKv>)
    ensures |r| == |ids|
  {
    seq<EvictedKv>(|ids|, i requires 0 <= i < |ids| => EvictedKv(ids[i], if ids[i] in c.objects then c.objects[ids[i]].bytes else 0))
  }

  lemma ListedGrows(c: State, ids: seq<u64>, id: u64)
    requires id in c.objects
    ensures Listed(c, ids + [id]) == Listed(c, ids) + [EvictedKv(id, c.objects[id].bytes)]
  {}

  function SumBytes(evicted: seq<EvictedKv>): nat {
    if evicted == [] then 0 else SumBytes(evicted[..|evicted|-1]) + evicted[|evicted|-1].bytes
  }

  lemma {:induction false} ListedBytes(c: State, ids: seq<u64>)
    ensures SumBytes(Listed(c, ids)) == BytesOfIds(c, ids)
  {
    if ids != [] {
      var n := |ids| - 1;
      assert Listed(c, ids)[..n] == Listed(c, ids[..n]);
      ListedBytes(c, ids[..n]);
    }
  }
}
