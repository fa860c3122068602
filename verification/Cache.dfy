/** The object cache: objects, the lookup index, capacities and usage per node and tier (src/cache/state.rs). */
module Cache {
  import opened Numbers
  import opened Tiers

  datatype KvObject = KvObject(
    kvId: u64, session: u64, prefixTokens: u32, bytes: u64, location: Location, lastAccess: u64)
  {
    function Key(): (u64, u32) { (session, prefixTokens) }

    function BytesIn(s: Slot): nat {
      if SlotOf(location) == Some(s) then bytes else 0
    }
  }

  datatype State = State(
    objects: map<u64, KvObject>,
    index: map<(u64, u32), u64>,
    capacities: map<Slot, u64>,
    usage: map<Slot, u64>,
    nextKvId: u64)
  {
    function Capacity(s: Slot): u64 { if s in capacities then capacities[s] else 0 }

    function Usage(s: Slot): u64 { if s in usage then usage[s] else 0 }

    /** `available_space`. */
    function Available(s: Slot): u64 { SatSub(Capacity(s), Usage(s)) }

    function Lookup(session: u64, prefixTokens: u32): Option<KvObject> {
      if (session, prefixTokens) !in index then None
      else
        var id := index[(session, prefixTokens)];
        if id in objects then Some(objects[id]) else None
    }

    /** `objects_in_tier`, as ids. */
    function InTier(s: Slot): set<u64> {
      set id | id in objects && SlotOf(objects[id].location) == Some(s)
    }
  }

  function Empty(): State {
    State(map[], map[], map[], map[], 0)
  }

  // ---- operations ----

  /** The result of an operation that may be refused, with the state it leaves behind. */
  datatype Attempt = Attempt(ok: bool, state: State)

  function SetCapacity(c: State, s: Slot, bytes: u64): State {
    c.(capacities := c.capacities[s := bytes], usage := if s in c.usage then c.usage else c.usage[s := 0])
  }

  function AllocKvId(c: State): (u64, State) {
    (c.nextKvId, c.(nextKvId := SatAdd(c.nextKvId, 1)))
  }

  /** `usage.get_mut(slot)` minus the object's bytes, when there is such an entry. */
  function Freed(c: State, o: KvObject): map<Slot, u64> {
    match SlotOf(o.location)
    case Some(s) => if s in c.usage then c.usage[s := SatSub(c.usage[s], o.bytes)] else c.usage
    case None => c.usage
  }

  function Remove(c: State, id: u64): State {
    if id !in c.objects then c
    else
      var o := c.objects[id];
      c.(objects := c.objects - {id}, index := c.index - {o.Key()}, usage := Freed(c, o))
  }

  function Fits(c: State, o: KvObject): bool {
    match SlotOf(o.location)
    case Some(s) => o.bytes <= c.Available(s)
    case None => true
  }

  /** `usage.entry(slot).or_insert(0) += bytes`, for bytes that were found available. */
  function Charged(c: State, o: KvObject): (u: map<Slot, u64>)
    requires Fits(c, o)
  {
    match SlotOf(o.location)
    case Some(s) => c.usage[s := c.Usage(s) + o.bytes]
    case None => c.usage
  }

  function Insert(c: State, o: KvObject): Attempt {
    if Fits(c, o) then
      Attempt(true, c.(usage := Charged(c, o), index := c.index[o.Key() := o.kvId], objects := c.objects[o.kvId := o]))
    else Attempt(false, c)
  }

  function UpdateAccess(c: State, id: u64, now: u64): State {
    if id in c.objects then c.(objects := c.objects[id := c.objects[id].(lastAccess := now)]) else c
  }

  /** The object is taken out, its bytes are freed, then the new place is charged; if that does not fit, the object is
      put back and charged to its old place again. */
  function Relocate(c: State, id: u64, l: Location, now: u64): Attempt {
    if id !in c.objects then Attempt(false, c)
    else
      var o := c.objects[id];
      var freed := c.(objects := c.objects - {id}, usage := Freed(c, o));
      var moved := o.(location := l, lastAccess := now);
      if Fits(freed, moved) then
        Attempt(true, freed.(usage := Charged(freed, moved), objects := freed.objects[id := moved]))
      else
        Attempt(false, freed.(objects := freed.objects[id := o], usage := Recharged(freed, o)))
  }

  /** The rollback's `+=`; it cannot overflow because at most the object's own bytes were freed. */
  function Recharged(c: State, o: KvObject): map<Slot, u64> {
    match SlotOf(o.location)
    case Some(s) => c.usage[s := Cap(c.Usage(s) + o.bytes)]
    case None => c.usage
  }

  // ---- accounting ----

  /** Bytes of all objects in a slot. */
  ghost function BytesIn(objects: map<u64, KvObject>, s: Slot): nat {
    if objects == map[] then 0
    else
      var id :| id in objects;
      objects[id].BytesIn(s) + BytesIn(objects - {id}, s)
  }

  lemma {:induction false} BytesOf(objects: map<u64, KvObject>, id: u64, s: Slot)
    requires id in objects
    ensures BytesIn(objects, s) == objects[id].BytesIn(s) + BytesIn(objects - {id}, s)
    decreases |objects|
  {
    var k :| k in objects && BytesIn(objects, s) == objects[k].BytesIn(s) + BytesIn(objects - {k}, s);
    if k != id {
      BytesOf(objects - {k}, id, s);
      BytesOf(objects - {id}, k, s);
      assert objects - {k} - {id} == objects - {id} - {k};
    }
  }

  lemma BytesAfterPut(objects: map<u64, KvObject>, id: u64, o: KvObject, s: Slot)
    ensures BytesIn(objects[id := o], s) == BytesIn(objects - {id}, s) + o.BytesIn(s)
  {
    BytesOf(objects[id := o], id, s);
    assert objects[id := o] - {id} == objects - {id};
  }

  ghost predicate Charges(c: State, s: Slot) {
    c.Usage(s) == BytesIn(c.objects, s) && c.Usage(s) <= c.Capacity(s)
  }

  /** Usage is the sum of the bytes stored, and never exceeds capacity. */
  ghost predicate Accounted(c: State) {
    && (forall s: Slot :: Charges(c, s))
    && (forall id | id in c.objects :: c.objects[id].kvId == id)
    && (forall id | id in c.objects && SlotOf(c.objects[id].location).Some? :: SlotOf(c.objects[id].location).value in c.usage)
  }

  lemma EmptyAccounted()
    ensures Accounted(Empty())
  {
    assert forall s: Slot :: Charges(Empty(), s);
  }

  /** Changing a capacity keeps the accounts in order exactly when it stays above what is stored. */
  lemma SetCapacityAccounted(c: State, s: Slot, bytes: u64)
    requires Accounted(c)
    ensures Accounted(SetCapacity(c, s, bytes)) <==> c.Usage(s) <= bytes
  {
    var c' := SetCapacity(c, s, bytes);
    forall r: Slot ensures Charges(c', r) <==> (r == s ==> c.Usage(s) <= bytes) {
      assert Charges(c, r);
    }
    if bytes < c.Usage(s) { assert !Charges(c', s); }
  }

  lemma RemoveAccounted(c: State, id: u64)
    requires Accounted(c)
    ensures Accounted(Remove(c, id))
    ensures forall s: Slot :: Remove(c, id).Usage(s) == c.Usage(s) - if id in c.objects then c.objects[id].BytesIn(s) else 0
  {
    if id in c.objects {
      var c' := Remove(c, id);
      forall s: Slot ensures Charges(c', s) && c'.Usage(s) == c.Usage(s) - c.objects[id].BytesIn(s) {
        assert Charges(c, s);
        BytesOf(c.objects, id, s);
      }
    }
  }

  /** A new object must carry an id that is not in use. */
  lemma InsertAccounted(c: State, o: KvObject)
    requires Accounted(c) && o.kvId !in c.objects
    ensures Accounted(Insert(c, o).state)
    ensures forall s: Slot :: Insert(c, o).state.Usage(s) == c.Usage(s) + if Insert(c, o).ok then o.BytesIn(s) else 0
  {
    if Fits(c, o) {
      var c' := Insert(c, o).state;
      forall s: Slot ensures Charges(c', s) && c'.Usage(s) == c.Usage(s) + o.BytesIn(s) {
        assert Charges(c, s);
        BytesAfterPut(c.objects, o.kvId, o, s);
        assert c.objects - {o.kvId} == c.objects;
      }
    }
  }

  /** An id that is in use does harm: what the first object took is never given back. */
  lemma ReusedIdBreaksAccounts(c: State, o: KvObject)
    requires Accounted(c) && o.kvId in c.objects && Fits(c, o)
    ensures Accounted(Insert(c, o).state) <==>
              (SlotOf(c.objects[o.kvId].location).None? || c.objects[o.kvId].bytes == 0)
  {
    var c' := Insert(c, o).state;
    var prior := c.objects[o.kvId];
    forall s: Slot ensures Charges(c', s) <==> prior.BytesIn(s) == 0 {
      assert Charges(c, s);
      BytesOf(c.objects, o.kvId, s);
      BytesAfterPut(c.objects, o.kvId, o, s);
    }
    if SlotOf(prior.location).Some? {
      assert prior.BytesIn(SlotOf(prior.location).value) == prior.bytes;
    }
  }

  lemma UpdateAccessAccounted(c: State, id: u64, now: u64)
    requires Accounted(c)
    ensures Accounted(UpdateAccess(c, id, now))
  {
    if id in c.objects {
      forall s: Slot ensures Charges(UpdateAccess(c, id, now), s) {
        assert Charges(c, s);
        BytesOf(c.objects, id, s);
        BytesAfterPut(c.objects, id, c.objects[id].(lastAccess := now), s);
      }
    }
  }

  /** Touching an object sets its access time, and nothing else of the cache changes. */
  lemma UpdateAccessExactly(c: State, id: u64, now: u64)
    requires id in c.objects
    ensures var c', o := UpdateAccess(c, id, now), c.objects[id];
            && c'.objects.Keys == c.objects.Keys
            && c'.objects[id] == KvObject(o.kvId, o.session, o.prefixTokens, o.bytes, o.location, now)
            && (forall k | k in c.objects && k != id :: c'.objects[k] == c.objects[k])
            && c'.index == c.index && c'.capacities == c.capacities && c'.usage == c.usage && c'.nextKvId == c.nextKvId
  {}

  /** A refused relocation leaves everything exactly as it was. */
  lemma RelocateRestores(c: State, id: u64, l: Location, now: u64)
    requires Accounted(c) && !Relocate(c, id, l, now).ok
    ensures Relocate(c, id, l, now).state == c
  {
    if id in c.objects {
      var o := c.objects[id];
      if SlotOf(o.location).Some? {
        var s := SlotOf(o.location).value;
        assert Charges(c, s);
        BytesOf(c.objects, id, s);
        assert c.usage[s := SatSub(c.usage[s], o.bytes)][s := c.usage[s]] == c.usage;
      }
      assert (c.objects - {id})[id := o] == c.objects;
    }
  }

  lemma FreedCharges(c: State, id: u64, s: Slot)
    requires Charges(c, s) && id in c.objects
    ensures Charges(c.(objects := c.objects - {id}, usage := Freed(c, c.objects[id])), s)
  {
    BytesOf(c.objects, id, s);
  }

  lemma ChargedCharges(c: State, id: u64, o: KvObject, s: Slot)
    requires Charges(c, s) && id !in c.objects && Fits(c, o)
    ensures Charges(c.(usage := Charged(c, o), objects := c.objects[id := o]), s)
  {
    BytesAfterPut(c.objects, id, o, s);
    assert c.objects - {id} == c.objects;
  }

  lemma RelocateCharges(c: State, id: u64, l: Location, now: u64, s: Slot)
    requires Charges(c, s) && Relocate(c, id, l, now).ok
    ensures Charges(Relocate(c, id, l, now).state, s)
  {
    hide Freed, Charged, Fits, Charges;
    var o := c.objects[id];
    var freed := c.(objects := c.objects - {id}, usage := Freed(c, o));
    FreedCharges(c, id, s);
    ChargedCharges(freed, id, o.(location := l, lastAccess := now), s);
  }

  lemma RelocateAccounted(c: State, id: u64, l: Location, now: u64)
    requires Accounted(c)
    ensures Accounted(Relocate(c, id, l, now).state)
  {
    if !Relocate(c, id, l, now).ok {
      RelocateRestores(c, id, l, now);
    } else {
      forall s: Slot ensures Charges(Relocate(c, id, l, now).state, s) {
        assert Charges(c, s);
        RelocateCharges(c, id, l, now, s);
      }
      hide Charges, Fits;
    }
  }

  /** A relocation that succeeds moves the object and touches it; the other objects, the index and the capacities stay,
      and the bytes go from the old slot's account to the new one's. */
  lemma RelocateMoves(c: State, id: u64, l: Location, now: u64)
    requires Accounted(c) && Relocate(c, id, l, now).ok
    ensures id in c.objects
    ensures var c', o := Relocate(c, id, l, now).state, c.objects[id];
            var moved := KvObject(o.kvId, o.session, o.prefixTokens, o.bytes, l, now);
            && c'.objects == c.objects[id := moved]
            && c'.index == c.index && c'.capacities == c.capacities && c'.nextKvId == c.nextKvId
            && (forall s: Slot :: c'.Usage(s) == c.Usage(s) - o.BytesIn(s) + moved.BytesIn(s))
  {
    var c', o := Relocate(c, id, l, now).state, c.objects[id];
    var moved := o.(location := l, lastAccess := now);
    assert (c.objects - {id})[id := moved] == c.objects[id := moved];
    RelocateAccounted(c, id, l, now);
    forall s: Slot ensures c'.Usage(s) == c.Usage(s) - o.BytesIn(s) + moved.BytesIn(s) {
      assert Charges(c, s) && Charges(c', s);
      BytesOf(c.objects, id, s);
      BytesAfterPut(c.objects, id, moved, s);
    }
  }

  /** When a relocation succeeds: the object exists, and its new slot has room once its old place is given up; in
      particular a move within one slot always succeeds. */
  lemma RelocateSucceeds(c: State, id: u64, l: Location, now: u64)
    requires Accounted(c) && id in c.objects
    ensures Relocate(c, id, l, now).ok <==>
              SlotOf(l).None? || c.Usage(SlotOf(l).value) - c.objects[id].BytesIn(SlotOf(l).value) + c.objects[id].bytes
                                 <= c.Capacity(SlotOf(l).value)
    ensures SlotOf(l) == SlotOf(c.objects[id].location) ==> Relocate(c, id, l, now).ok
  {
    if SlotOf(l).Some? {
      assert Charges(c, SlotOf(l).value);
      BytesOf(c.objects, id, SlotOf(l).value);
    }
  }

  // ---- the index ----

  /** Every index entry leads to a live object with exactly that key. */
  ghost predicate IndexSound(c: State) {
    forall k | k in c.index :: c.index[k] in c.objects && c.objects[c.index[k]].Key() == k
  }

  /** Every object is found under its key. */
  ghost predicate IndexComplete(c: State) {
    forall id | id in c.objects :: c.objects[id].Key() in c.index && c.index[c.objects[id].Key()] == id
  }

  lemma RemoveIndexed(c: State, id: u64)
    ensures IndexSound(c) ==> IndexSound(Remove(c, id))
    ensures IndexComplete(c) ==> IndexComplete(Remove(c, id))
  {
    if id in c.objects && IndexComplete(c) {
      var c' := Remove(c, id);
      forall k | k in c'.objects ensures c'.objects[k].Key() in c'.index && c'.index[c'.objects[k].Key()] == k {
        assert c.objects[k].Key() != c.objects[id].Key();
      }
    }
  }

  /** With a fresh id an insert keeps the index sound; it keeps it complete exactly when the key is new as well. */
  lemma InsertIndexed(c: State, o: KvObject)
    requires o.kvId !in c.objects && IndexSound(c) && Insert(c, o).ok
    ensures IndexSound(Insert(c, o).state)
    ensures Insert(c, o).state.Lookup(o.session, o.prefixTokens) == Some(o)
    ensures IndexComplete(c) ==> (IndexComplete(Insert(c, o).state) <==> o.Key() !in c.index)
  {
    var c' := Insert(c, o).state;
    if IndexComplete(c) {
      if o.Key() in c.index {
        var prior := c.index[o.Key()];
        assert prior in c'.objects && c'.objects[prior].Key() == o.Key() && c'.index[o.Key()] != prior;
      } else {
        forall id | id in c'.objects ensures c'.objects[id].Key() in c'.index && c'.index[c'.objects[id].Key()] == id {
          if id != o.kvId { assert c.objects[id].Key() != o.Key(); }
        }
      }
    }
  }

  lemma RelocateIndexed(c: State, id: u64, l: Location, now: u64)
    ensures IndexSound(c) ==> IndexSound(Relocate(c, id, l, now).state)
    ensures IndexComplete(c) ==> IndexComplete(Relocate(c, id, l, now).state)
  {}

  lemma UpdateAccessIndexed(c: State, id: u64, now: u64)
    ensures IndexSound(c) ==> IndexSound(UpdateAccess(c, id, now))
    ensures IndexComplete(c) ==> IndexComplete(UpdateAccess(c, id, now))
  {}

  /** In a sound index a lookup finds an object of that session and that length, or nothing. */
  lemma LookupSound(c: State, session: u64, prefixTokens: u32)
    requires IndexSound(c) && Accounted(c) && c.Lookup(session, prefixTokens).Some?
    ensures var o := c.Lookup(session, prefixTokens).value;
            o.session == session && o.prefixTokens == prefixTokens && o.kvId in c.objects && c.objects[o.kvId] == o
  {}

  lemma LookupComplete(c: State, id: u64)
    requires IndexComplete(c) && id in c.objects
    ensures c.Lookup(c.objects[id].session, c.objects[id].prefixTokens) == Some(c.objects[id])
  {}

  /** Removing what was just inserted gives back objects and usage, and the index exactly when the key was new: the
      index entry of an older object with the same key is lost for good. */
  lemma InsertRemove(c: State, o: KvObject)
    requires Accounted(c) && o.kvId !in c.objects && Insert(c, o).ok
    ensures var back := Remove(Insert(c, o).state, o.kvId);
            && back.objects == c.objects
            && (forall s: Slot :: back.Usage(s) == c.Usage(s) && back.Capacity(s) == c.Capacity(s))
            && (back.index == c.index <==> o.Key() !in c.index)
  {
    var c' := Insert(c, o).state;
    InsertAccounted(c, o);
    RemoveAccounted(c', o.kvId);
    assert c'.objects - {o.kvId} == c.objects;
    if o.Key() !in c.index {
      assert c'.index - {o.Key()} == c.index;
    }
  }

  /** A second object under a key in use hides the first one, and evicting the first one then hides the second. */
  lemma DuplicateKeyHidesBoth(c: State, prior: u64, o: KvObject)
    requires Accounted(c) && IndexSound(c) && prior in c.objects && o.kvId !in c.objects
    requires o.Key() == c.objects[prior].Key() && Insert(c, o).ok
    ensures var c' := Remove(Insert(c, o).state, prior);
            o.kvId in c'.objects && c'.Lookup(o.session, o.prefixTokens) == None
  {}

  // ---- fresh ids ----

  /** Ids in use are below the counter. */
  ghost predicate Numbered(c: State) {
    forall id | id in c.objects :: id < c.nextKvId
  }

  /** The allocator hands out unused ids and stays ahead of them, up to the last one it can name. */
  lemma AllocFresh(c: State)
    requires Numbered(c)
    ensures AllocKvId(c).0 !in c.objects
    ensures c.nextKvId < MAX64 ==> AllocKvId(c).0 < AllocKvId(c).1.nextKvId && Numbered(AllocKvId(c).1)
  {}

  /** What the operations keep up together. */
  ghost predicate Coherent(c: State) {
    Accounted(c) && IndexSound(c)
  }

  lemma InsertCoherent(c: State, o: KvObject)
    requires Coherent(c) && o.kvId !in c.objects
    ensures Coherent(Insert(c, o).state)
  {
    InsertAccounted(c, o);
    if Insert(c, o).ok { InsertIndexed(c, o); }
  }

  lemma UpdateAccessCoherent(c: State, id: u64, now: u64)
    requires Coherent(c)
    ensures Coherent(UpdateAccess(c, id, now))
  {
    UpdateAccessAccounted(c, id, now);
    UpdateAccessIndexed(c, id, now);
  }

  // ---- whole histories ----

  datatype Op =
    | SetCapacityOp(slot: Slot, bytes: u64)
    | InsertOp(o: KvObject)
    | RemoveOp(id: u64)
    | RelocateOp(id: u64, place: Location, now: u64)
    | UpdateAccessOp(id: u64, now: u64)

  function Apply(c: State, op: Op): State {
    match op
    case SetCapacityOp(s, bytes) => SetCapacity(c, s, bytes)
    case InsertOp(o) => Insert(c, o).state
    case RemoveOp(id) => Remove(c, id)
    case RelocateOp(id, l, now) => Relocate(c, id, l, now).state
    case UpdateAccessOp(id, now) => UpdateAccess(c, id, now)
  }

  /** Capacities do not shrink below what is stored, and inserts come under fresh ids. */
  predicate Legal(c: State, op: Op) {
    match op
    case SetCapacityOp(s, bytes) => c.Usage(s) <= bytes
    case InsertOp(o) => o.kvId !in c.objects
    case _ => true
  }

  function ApplyAll(c: State, ops: seq<Op>, n: nat): State
    requires n <= |ops|
  {
    if n == 0 then c else Apply(ApplyAll(c, ops, n - 1), ops[n-1])
  }

  lemma ApplyCoherent(c: State, op: Op)
    requires Coherent(c) && Legal(c, op)
    ensures Coherent(Apply(c, op))
    ensures IndexComplete(c) && (op.InsertOp? ==> op.o.Key() !in c.index) ==> IndexComplete(Apply(c, op))
  {
    hide Accounted, IndexSound, IndexComplete, Relocate, Remove, UpdateAccess, Fits;
    match op
    case SetCapacityOp(s, bytes) =>
      SetCapacityAccounted(c, s, bytes);
      SetCapacityIndexed(c, s, bytes);
    case InsertOp(o) =>
      InsertCoherent(c, o);
      if Insert(c, o).ok { InsertIndexed(c, o); }
    case RemoveOp(id) =>
      RemoveAccounted(c, id);
      RemoveIndexed(c, id);
    case RelocateOp(id, l, now) =>
      RelocateAccounted(c, id, l, now);
      RelocateIndexed(c, id, l, now);
    case UpdateAccessOp(id, now) =>
      UpdateAccessAccounted(c, id, now);
      UpdateAccessIndexed(c, id, now);
  }

  lemma SetCapacityIndexed(c: State, s: Slot, bytes: u64)
    ensures IndexSound(c) ==> IndexSound(SetCapacity(c, s, bytes))
    ensures IndexComplete(c) ==> IndexComplete(SetCapacity(c, s, bytes))
  {}

  /** The first `n` operations are legal, each in the state it meets. */
  predicate LegalHistory(ops: seq<Op>, n: nat)
    requires n <= |ops|
  {
    n == 0 || (LegalHistory(ops, n - 1) && Legal(ApplyAll(Empty(), ops, n - 1), ops[n-1]))
  }

  /** None of the first `n` operations inserts under a key in use. */
  predicate NewKeys(ops: seq<Op>, n: nat)
    requires n <= |ops|
  {
    n == 0 || (NewKeys(ops, n - 1)
               && (ops[n-1].InsertOp? ==> ops[n-1].o.Key() !in ApplyAll(Empty(), ops, n - 1).index))
  }

  lemma EmptyCoherent()
    ensures Coherent(Empty()) && IndexComplete(Empty())
  {
    EmptyAccounted();
  }

  /** Over any history of operations from the empty cache, with fresh ids and capacities that do not shrink below usage,
      usage is the sum of what is stored and stays within capacity, and the index is sound; with new keys it is
      complete as well. */
  lemma {:induction false} HistoryCoherent(ops: seq<Op>, n: nat)
    requires n <= |ops| && LegalHistory(ops, n)
    ensures Coherent(ApplyAll(Empty(), ops, n))
    ensures NewKeys(ops, n) ==> IndexComplete(ApplyAll(Empty(), ops, n))
  {
    hide Coherent, IndexComplete, Apply, Legal, Empty;
    if n == 0 {
      EmptyCoherent();
    } else {
      HistoryCoherent(ops, n - 1);
      ApplyCoherent(ApplyAll(Empty(), ops, n - 1), ops[n-1]);
    }
  }
}
