/** How long prefills run under the cache: a credited hit prefills only its new tokens (or nothing), every other
    request its whole prompt. */
module CachePrefills {
  import opened Numbers
  import opened Simulation
  import opened Cluster
  import opened Requests
  import opened Tiers
  import opened Machine
  import opened Lifecycle
  import ED = EventDriven
  import opened Traces
  import opened CacheRunner
  import CL = CacheLifecycle
  import opened CacheMoves
  import opened CacheLedger
  import Cache

  // ---- who may start what ----

  /** From `a` to `b` only requests queued before or named in `p` come to prefill, and only requests queued for decode
      before or named in `d` come to decode. */
  ghost predicate Touches(a: Core, b: Core, p: set<u64>, d: set<u64>) {
    && b.inFlight.Keys <= a.inFlight.Keys
    && (forall id | id in b.prefillQueue :: id in a.prefillQueue || id in p)
    && (forall id | id in b.decodeQueue :: id in a.decodeQueue || id in d)
    && (forall id | id in b.inFlight && b.inFlight[id].prefillStart.Some? ::
          a.inFlight[id].prefillStart.Some? || id in a.prefillQueue || id in p)
    && (forall id | id in b.inFlight && b.inFlight[id].decodeStart.Some? ::
          a.inFlight[id].decodeStart.Some? || id in a.decodeQueue || id in d)
    && (forall id | id in b.inFlight && a.inFlight[id].prefillStart.Some? :: b.inFlight[id].prefillStart.Some?)
  }

  lemma TouchesTransitive(a: Core, b: Core, c: Core, p: set<u64>, d: set<u64>)
    requires (Touches(a, b, p, d) && Touches(b, c, {}, {})) || (Touches(a, b, {}, {}) && Touches(b, c, p, d))
    ensures Touches(a, c, p, d)
  {}

  lemma QueuesTouch(c: Core, pq: seq<u64>, dq: seq<u64>, p: set<u64>, d: set<u64>)
    requires forall id | id in pq :: id in c.prefillQueue || id in p
    requires forall id | id in dq :: id in c.decodeQueue || id in d
    ensures Touches(c, c.(prefillQueue := pq, decodeQueue := dq), p, d)
  {}

  lemma StartPrefillTouches(c: Core, m: Engine, id: u64, g: GpuRef, rest: Core, p: set<u64>)
    requires id in c.inFlight && HasGpu(c.cluster, g) && (id in c.prefillQueue || id in p)
    requires rest == c.(prefillQueue := rest.prefillQueue) && forall k | k in rest.prefillQueue :: k in c.prefillQueue
    ensures Touches(c, StartPrefill(rest, m, id, g), p, {})
  {
    hide HasGpu, SetBusy;
  }

  lemma StartDecodeTouches(c: Core, m: Engine, id: u64, g: GpuRef, rest: Core, d: set<u64>)
    requires id in c.inFlight && HasGpu(c.cluster, g) && (id in c.decodeQueue || id in d)
    requires rest == c.(decodeQueue := rest.decodeQueue) && forall k | k in rest.decodeQueue :: k in c.decodeQueue
    ensures Touches(c, StartDecode(rest, m, id, g), {}, d)
  {
    hide HasGpu, SetBusy;
  }

  lemma DispatchPrefillTouches(c: Core, m: Engine, id: u64)
    requires Distinct(c.cluster) && id in c.inFlight
    ensures Touches(c, DispatchPrefill(c, m, id), {id}, {})
  {
    hide Touches, StartPrefill;
    match c.Idle(Prefill)
    case Some(g) => StartPrefillTouches(c, m, id, g, c, {id});
    case None => QueuesTouch(c, c.prefillQueue + [id], c.decodeQueue, {id}, {});
  }

  lemma DispatchDecodeTouches(c: Core, m: Engine, id: u64)
    requires Distinct(c.cluster) && id in c.inFlight
    ensures Touches(c, DispatchDecode(c, m, id), {}, {id})
  {
    hide Touches, StartDecode;
    match c.Idle(Decode)
    case Some(g) => StartDecodeTouches(c, m, id, g, c, {id});
    case None => QueuesTouch(c, c.prefillQueue, c.decodeQueue + [id], {}, {id});
  }

  lemma {:induction false} AssignPrefillTouches(c: Core, m: Engine)
    requires Distinct(c.cluster)
    ensures Touches(c, AssignPrefill(c, m), {}, {})
    decreases |c.prefillQueue|
  {
    hide Touches, StartPrefill;
    QueuesTouch(c, c.prefillQueue, c.decodeQueue, {}, {});
    if c.prefillQueue != [] && c.Idle(Prefill).Some? {
      var id, rest := c.prefillQueue[0], c.(prefillQueue := c.prefillQueue[1..]);
      var next := if id in rest.inFlight then StartPrefill(rest, m, id, c.Idle(Prefill).value) else rest;
      QueuesTouch(c, c.prefillQueue[1..], c.decodeQueue, {}, {});
      if id in rest.inFlight { StartPrefillTouches(c, m, id, c.Idle(Prefill).value, rest, {}); }
      AssignPrefillQueue(c, m, next);
      AssignPrefillTouches(next, m);
      TouchesTransitive(c, next, AssignPrefill(c, m), {}, {});
    }
  }

  lemma {:induction false} AssignDecodeTouches(c: Core, m: Engine)
    requires Distinct(c.cluster)
    ensures Touches(c, AssignDecode(c, m), {}, {})
    decreases |c.decodeQueue|
  {
    hide Touches, StartDecode;
    QueuesTouch(c, c.prefillQueue, c.decodeQueue, {}, {});
    if c.decodeQueue != [] && c.Idle(Decode).Some? {
      var id, rest := c.decodeQueue[0], c.(decodeQueue := c.decodeQueue[1..]);
      var next := if id in rest.inFlight then StartDecode(rest, m, id, c.Idle(Decode).value) else rest;
      QueuesTouch(c, c.prefillQueue, c.decodeQueue[1..], {}, {});
      if id in rest.inFlight { StartDecodeTouches(c, m, id, c.Idle(Decode).value, rest, {}); }
      AssignDecodeQueue(c, m, next);
      AssignDecodeTouches(next, m);
      TouchesTransitive(c, next, AssignDecode(c, m), {}, {});
    }
  }

  lemma TagTouches(c: Core, id: u64, tokens: u32, tier: Option<TierKind>)
    requires id in c.inFlight
    ensures Touches(c, Tag(c, id, tokens, tier), {}, {})
  {}

  lemma TaggedPrefillTouches(c: Core, m: Engine, id: u64, tokens: u32, tier: Option<TierKind>)
    requires Distinct(c.cluster) && id in c.inFlight
    ensures Touches(c, DispatchPrefill(Tag(c, id, tokens, tier), m, id), {id}, {})
  {
    TagTouches(c, id, tokens, tier);
    DispatchPrefillTouches(Tag(c, id, tokens, tier), m, id);
    hide Touches, DispatchPrefill;
    TouchesTransitive(c, Tag(c, id, tokens, tier), DispatchPrefill(Tag(c, id, tokens, tier), m, id), {id}, {});
  }

  // ---- what a turn starts ----

  /** The prefill set `p` and the decode set `d` of a turn about request `id`: only this request, to prefill if it
      arrives or was fetched and has something to prefill, to decode if it was prefilled or needs no prefill. */
  ghost predicate Allowed(w0: Core, e: Ev, hit: bool, p: set<u64>, d: set<u64>) {
    var id := e.kind.id;
    && p <= {id} && d <= {id} && id in w0.inFlight
    && (id in p ==> !e.kind.Completes() && !(hit && w0.inFlight[id].req.newPromptTokens == 0))
    && (id in d ==> e.kind.PrefillDone? || (hit && w0.inFlight[id].req.newPromptTokens == 0))
  }

  /** Where the rest of a hit's prompt goes. */
  lemma PrefillRestTouches<T>(w: World<T>, x: Setup<T>, id: u64)
    requires Distinct(w.core.cluster) && id in w.core.inFlight
    ensures var skip := w.core.inFlight[id].req.newPromptTokens == 0;
            Touches(w.core, PrefillRest(w, x, id).core, if skip then {} else {id}, if skip then {id} else {})
  {
    hide Touches, DispatchPrefill, DispatchDecode, Tag;
    var f := w.core.inFlight[id];
    if f.req.newPromptTokens == 0 {
      DispatchDecodeTouches(w.core, x.engine, id);
    } else {
      TaggedPrefillTouches(w.core, x.engine, id, f.req.newPromptTokens, f.fetchTier);
    }
  }

  lemma AwaitTouches(c: Core, id: u64, tokens: u32, tier: Option<TierKind>, finish: u64)
    requires id in c.inFlight
    ensures Touches(c, AwaitFetch(Tag(c, id, tokens, tier), id, finish), {}, {})
  {}

  lemma HitElsewhereTouches<T>(w: World<T>, x: Setup<T>, id: u64, kv: Cache.KvObject)
    requires Distinct(w.core.cluster) && id in w.core.inFlight && FetchPath(kv.location).Some?
    ensures Touches(w.core, HitElsewhere(w, x, id, kv).core, {}, {}) || Touches(w.core, HitElsewhere(w, x, id, kv).core, {id}, {})
    ensures HitElsewhere(w, x, id, kv).counters.Hits() == w.counters.Hits()
  {
    var (p, tier) := FetchPath(kv.location).value;
    var f := w.core.inFlight[id];
    var c1 := Tag(w.core, id, f.prefillTokens, Some(tier));
    var finish := x.estimate(w.transfer, w.core.Now(), p, kv.bytes).1;
    hide DispatchPrefill, Touches, Distinct;
    if finish.Some? {
      AwaitTouches(w.core, id, f.prefillTokens, Some(tier), finish.value);
      assert HitElsewhere(w, x, id, kv).core == AwaitFetch(c1, id, finish.value);
    } else {
      assert Tag(c1, id, f.req.promptTokens, None) == Tag(w.core, id, f.req.promptTokens, None);
      TaggedPrefillTouches(w.core, x.engine, id, f.req.promptTokens, None);
    }
  }

  lemma ArrivalTouches<T>(w: World<T>, x: Setup<T>, e: Ev) returns (p: set<u64>, d: set<u64>)
    requires Distinct(w.core.cluster) && e.kind.RequestArrival? && e.kind.id in w.core.inFlight
    ensures var w' := OnArrival(w, x, e.kind.id);
            Touches(w.core, w'.core, p, d) && Allowed(w.core, e, w.counters.Hits() < w'.counters.Hits(), p, d)
  {
    var id := e.kind.id;
    var f := w.core.inFlight[id];
    hide Touches, HitElsewhere, DispatchPrefill, PrefillRest, Tag;
    match FindPrefix(w.cache, f.req)
    case None =>
      TaggedPrefillTouches(w.core, x.engine, id, f.req.promptTokens, f.fetchTier);
      p, d := {id}, {};
    case Some(kv) =>
      if kv.location.InGpu? {
        var w1 := w.(counters := w.counters.(hitsGpu := w.counters.hitsGpu + 1),
                     cache := Cache.UpdateAccess(w.cache, kv.kvId, w.core.Now()));
        PrefillRestTouches(w1, x, id);
        PrefillRestHits(w1, x, id);
        var skip := f.req.newPromptTokens == 0;
        p, d := if skip then {} else {id}, if skip then {id} else {};
      } else if FetchPath(kv.location).Some? {
        HitElsewhereTouches(w, x, id, kv);
        p, d := if Touches(w.core, HitElsewhere(w, x, id, kv).core, {}, {}) then {} else {id}, {};
      } else {
        TaggedPrefillTouches(w.core, x.engine, id, f.req.promptTokens, f.fetchTier);
        p, d := {id}, {};
      }
  }

  lemma PrefillRestHits<T>(w: World<T>, x: Setup<T>, id: u64)
    requires Distinct(w.core.cluster) && id in w.core.inFlight
    ensures PrefillRest(w, x, id).counters.Hits() == w.counters.Hits()
  {}

  lemma PrefillDoneTouches(c: Core, m: Engine, id: u64, g: GpuRef)
    requires Distinct(c.cluster) && HasGpu(c.cluster, g) && id in c.inFlight
    ensures Touches(c, ED.OnPrefillDone(c, m, id, g), {}, {id})
  {
    hide AssignPrefill, AssignDecode, DispatchDecode, HasGpu, SetBusy, Distinct;
    var c1 := Release(c, g);
    assert Touches(c, c1, {}, {}) && id in c1.inFlight;
    hide Touches, Release;
    var c2 := DispatchDecode(c1, m, id);
    DispatchDecodeTouches(c1, m, id);
    TouchesTransitive(c, c1, c2, {}, {id});
    var c3 := AssignPrefill(c2, m);
    AssignPrefillTouches(c2, m);
    TouchesTransitive(c, c2, c3, {}, {id});
    AssignDecodeTouches(c3, m);
    TouchesTransitive(c, c3, AssignDecode(c3, m), {}, {id});
  }

  lemma DecodeDoneTouches(c: Core, m: Engine, id: u64, g: GpuRef)
    requires Distinct(c.cluster) && HasGpu(c.cluster, g)
    ensures Touches(c, ED.OnDecodeDone(c, m, id, g), {}, {})
  {
    hide AssignPrefill, AssignDecode, HasGpu, SetBusy, Distinct;
    var c1 := Finish(Release(c, g), id);
    assert Touches(c, c1, {}, {}) && c1.cluster == Release(c, g).cluster;
    hide Touches, Release, Finish;
    var c2 := AssignDecode(c1, m);
    AssignDecodeTouches(c1, m);
    TouchesTransitive(c, c1, c2, {}, {});
    AssignPrefillTouches(c2, m);
    TouchesTransitive(c, c2, AssignPrefill(c2, m), {}, {});
  }

  lemma FetchDoneTouches<T>(w: World<T>, x: Setup<T>, id: u64)
    requires Distinct(w.core.cluster) && id in w.core.inFlight
    ensures var skip := w.core.inFlight[id].req.newPromptTokens == 0;
            Touches(w.core, OnFetchDone(w, x, id).core, if skip then {} else {id}, if skip then {id} else {})
  {
    var f, w1 := w.core.inFlight[id], Credit(w, id);
    var skip := f.req.newPromptTokens == 0;
    var p, d := if skip then {} else {id}, if skip then {id} else {};
    CreditIsTag(w, id);
    TagTouches(w.core, id, f.prefillTokens, None);
    hide Touches, AssignPrefill, AssignDecode, PrefillRest, Credit, Distinct;
    PrefillRestTouches(w1, x, id);
    var w2 := PrefillRest(w1, x, id);
    PrefillRestDistinct(w1, x, id);
    TouchesTransitive(w.core, w1.core, w2.core, p, d);
    AssignDecodeTouches(w2.core, x.engine);
    TouchesTransitive(w.core, w2.core, AssignDecode(w2.core, x.engine), p, d);
    AssignPrefillTouches(AssignDecode(w2.core, x.engine), x.engine);
    TouchesTransitive(w.core, AssignDecode(w2.core, x.engine), OnFetchDone(w, x, id).core, p, d);
  }

  // ---- the invariant ----

  /** A credited hit that leaves nothing to prefill. */
  predicate Skips(credited: set<u64>, book: map<u64, Request>, id: u64) {
    id in credited && id in book && book[id].newPromptTokens == 0
  }

  /** Complete hits never come to prefill, and only they come to decode without one. */
  ghost predicate Skipping(c: Core, credited: set<u64>, book: map<u64, Request>) {
    && (forall id | id in c.prefillQueue :: !Skips(credited, book, id))
    && (forall id | id in c.inFlight && c.inFlight[id].prefillStart.Some? :: !Skips(credited, book, id))
    && (forall id | id in c.decodeQueue && id in c.inFlight :: c.inFlight[id].prefillStart.Some? || Skips(credited, book, id))
    && (forall id | id in c.inFlight && c.inFlight[id].decodeStart.Some? ::
          c.inFlight[id].prefillStart.Some? || Skips(credited, book, id))
  }

  /** Tokens given to the prefill: none yet, the rest of a hit, or the whole prompt. */
  predicate Given(f: InFlight, waiting: bool, hit: bool) {
    f.prefillTokens == if waiting then 0 else if hit then f.req.newPromptTokens else f.req.promptTokens
  }

  ghost predicate AllGiven(m: Engine, c: Core, credited: set<u64>) {
    forall id | id in c.inFlight :: Given(c.inFlight[id], id in Waiting(c), id in credited) && Timed(m, c.inFlight[id])
  }

  /** The prefill a result reports ran over exactly the tokens the request had to prefill. */
  predicate Ran(m: Engine, o: RequestResult, r: Request, hit: bool) {
    if hit && r.newPromptTokens == 0 then o.prefillStart == o.prefillDone == o.arrival
    else o.prefillDone == SatAdd(o.prefillStart, m.prefillTime(if hit then r.newPromptTokens else r.promptTokens))
  }

  ghost predicate AllRan(m: Engine, results: seq<RequestResult>, credited: set<u64>, book: map<u64, Request>) {
    forall o | o in results :: o.id in book && Ran(m, o, book[o.id], o.id in credited)
  }

  ghost predicate Prefills(m: Engine, c: Core, credited: set<u64>, book: map<u64, Request>) {
    Skipping(c, credited, book) && AllGiven(m, c, credited) && AllRan(m, c.results, credited, book)
  }

  // ---- complete hits ----

  lemma SkippingKept(c0: Core, c': Core, e: Ev, hit: bool, p: set<u64>, d: set<u64>, credited: set<u64>,
                     book: map<u64, Request>)
    requires Skipping(c0, credited, book) && Touches(c0, c', p, d) && Allowed(c0, e, hit, p, d) && OfBook(c0, book)
    requires hit || !e.kind.Completes() ==> e.kind.id !in credited && e.kind.id !in c0.prefillQueue && e.kind.id !in c0.decodeQueue
                                             && Unstarted(c0.inFlight[e.kind.id])
    requires e.kind.PrefillDone? ==> c0.inFlight[e.kind.id].prefillStart.Some?
    requires NoDangling(c0)
    ensures Skipping(c', if hit then credited + {e.kind.id} else credited, book)
  {
    var after := if hit then credited + {e.kind.id} else credited;
    var id := e.kind.id;
    forall k | k != id ensures Skips(after, book, k) == Skips(credited, book, k) {}
    assert Skips(after, book, id) ==> Skips(credited, book, id) || (hit && c0.inFlight[id].req.newPromptTokens == 0);
  }

  /** Queued requests are in flight. */
  ghost predicate NoDangling(c: Core) {
    (forall id | id in c.prefillQueue :: id in c.inFlight) && (forall id | id in c.decodeQueue :: id in c.inFlight)
  }

  // ---- tokens given ----

  lemma AdvancedTimed(m: Engine, f: InFlight, g: InFlight)
    requires Advanced(m, f, g) && Timed(m, f)
    ensures Timed(m, g)
  {}

  lemma ProceedsGiven(m: Engine, c0: Core, c: Core, c': Core, id: u64, tokens: u32, tier: Option<TierKind>,
                      credited: set<u64>, after: set<u64>)
    requires AllGiven(m, c0, credited) && c.inFlight == c0.inFlight && Proceeds(m, c, c', id, tokens, tier)
    requires Waiting(c') == Waiting(c0) - {id}
    requires forall k | k in c0.inFlight && k != id :: k in after <==> k in credited
    requires Unstarted(c0.inFlight[id])
    requires tokens == if id in after then c0.inFlight[id].req.newPromptTokens else c0.inFlight[id].req.promptTokens
    ensures AllGiven(m, c', after)
  {
    hide Waiting, Arriving, Fetching;
    forall k | k in c'.inFlight ensures Given(c'.inFlight[k], k in Waiting(c'), k in after) && Timed(m, c'.inFlight[k]) {
      var t := Tag(c, id, tokens, tier).inFlight[k];
      assert Advanced(m, t, c'.inFlight[k]);
      if k != id { assert Given(c0.inFlight[k], k in Waiting(c0), k in credited); }
      AdvancedTimed(m, t, c'.inFlight[k]);
    }
  }

  lemma CalmGiven(m: Engine, c0: Core, a: Core, b: Core, credited: set<u64>)
    requires AllGiven(m, c0, credited) && Calm(m, a, b) && Waiting(b) == Waiting(c0)
    requires a.inFlight.Keys <= c0.inFlight.Keys && forall k | k in a.inFlight :: a.inFlight[k] == c0.inFlight[k]
    ensures AllGiven(m, b, credited)
  {
    hide Waiting, Arriving, Fetching;
    forall k | k in b.inFlight ensures Given(b.inFlight[k], k in Waiting(b), k in credited) && Timed(m, b.inFlight[k]) {
      assert Given(c0.inFlight[k], k in Waiting(c0), k in credited);
      AdvancedTimed(m, a.inFlight[k], b.inFlight[k]);
    }
  }

  lemma FetchStartGiven<T>(w0: World<T>, w: World<T>, x: Setup<T>, e: Ev, kv: Cache.KvObject, w': World<T>,
                           credited: set<u64>)
    requires AllGiven(x.engine, w0.core, credited) && Opened(w, w0, e) && e.kind.RequestArrival?
    requires FetchStarted(w, x, e.kind.id, kv, w')
    ensures AllGiven(x.engine, w'.core, credited)
  {
    FetchStartWaiting(w0, w, x, e, kv, w');
    AwaitKinds(w, x, e.kind.id, kv, w');
    hide Waiting, Arriving, Fetching, FetchStarted;
  }

  lemma UnmarkedIsNone<T>(w0: World<T>, w: World<T>, x: Setup<T>, e: Ev, w': World<T>, credited: set<u64>,
                          book: map<u64, Request>)
    requires Ledger(w0, credited, book) && Opened(w, w0, e) && e.kind.RequestArrival?
    requires Missed(w, x, e.kind.id, w') || FetchFailed(w, x, e.kind.id, w')
    ensures e.kind.id in w.core.inFlight && e.kind.id !in credited
    ensures Waiting(w'.core) == Waiting(w0.core) - {e.kind.id}
    ensures Proceeds(x.engine, w.core, w'.core, e.kind.id, w.core.inFlight[e.kind.id].req.promptTokens, None)
  {
    hide Ledger, Opened, Proceeds, Missed, FetchFailed, Waiting;
    FullPrefillInFlight(w, x, e.kind.id, w');
    ArrivalUnmarked(w0, w, e, credited, book);
    FullPrefillProceeds(w, x, e.kind.id, w');
    MarkedOf(w0, credited, book);
    ProceedsMarked(w0, w, x.engine, e, w', w.core.inFlight[e.kind.id].req.promptTokens);
  }

  lemma MarkedOf<T>(w: World<T>, credited: set<u64>, book: map<u64, Request>)
    requires Ledger(w, credited, book)
    ensures Marked(w.core) && OfBook(w.core, book)
  {
    hide Marked, OfBook, Balanced, TokensKept, AllPrompts;
  }

  lemma MissGiven<T>(w0: World<T>, w: World<T>, x: Setup<T>, e: Ev, w': World<T>, credited: set<u64>, book: map<u64,
                     Request>)
    requires Ledger(w0, credited, book) && Opened(w, w0, e) && e.kind.RequestArrival?
    requires AllGiven(x.engine, w0.core, credited) && e.kind.id in w0.core.inFlight
             && Unstarted(w0.core.inFlight[e.kind.id])
    requires Missed(w, x, e.kind.id, w') || FetchFailed(w, x, e.kind.id, w')
    ensures AllGiven(x.engine, w'.core, credited)
  {
    assert w.core.inFlight == w0.core.inFlight;
    hide Ledger, Opened, Proceeds, Missed, FetchFailed, Waiting, AllGiven, Unstarted;
    UnmarkedIsNone(w0, w, x, e, w', credited, book);
    ProceedsGiven(x.engine, w0.core, w.core, w'.core, e.kind.id, w.core.inFlight[e.kind.id].req.promptTokens, None,
        credited, credited);
  }

  lemma NotYetGiven<T>(w0: World<T>, m: Engine, e: Ev, w: World<T>, credited: set<u64>)
    requires AllGiven(m, w0.core, credited) && Opened(w, w0, e) && !e.kind.Completes() && e.kind.id in w0.core.inFlight
    ensures w.core.inFlight == w0.core.inFlight
            && RestOf(w.core.inFlight[e.kind.id]) == w.core.inFlight[e.kind.id].req.newPromptTokens
  {
    hide Arriving, Fetching;
    assert e.kind.id in Waiting(w0.core);
  }

  /** A credited request has been given the rest of its prompt. */
  lemma CreditGiven(m: Engine, c0: Core, c: Core, c': Core, id: u64, credited: set<u64>)
    requires AllGiven(m, c0, credited) && c.inFlight == c0.inFlight && id in c.inFlight && Unstarted(c0.inFlight[id])
    requires RestOf(c.inFlight[id]) == c.inFlight[id].req.newPromptTokens
    requires Proceeds(m, c, c', id, RestOf(c.inFlight[id]), None) && Waiting(c') == Waiting(c0) - {id}
    ensures AllGiven(m, c', credited + {id})
  {
    hide Proceeds, Waiting, AllGiven, Unstarted, RestOf;
    ProceedsGiven(m, c0, c, c', id, RestOf(c.inFlight[id]), None, credited, credited + {id});
  }

  /** A hit on arrival, or the end of a fetch. */
  ghost predicate CreditMove<T>(w: World<T>, x: Setup<T>, e: Ev, w': World<T>) {
    || (e.kind.RequestArrival? && exists kv :: HitNow(w, x, e.kind.id, kv, w'))
    || (e.kind.FetchDone? && FetchEnded(w, x, e.kind.id, w'))
  }

  /** The move of a credited request, told without the counters. */
  lemma CreditMoves<T>(w0: World<T>, w: World<T>, x: Setup<T>, e: Ev, w': World<T>, credited: set<u64>,
                       book: map<u64, Request>)
    requires Ledger(w0, credited, book) && Opened(w, w0, e) && !e.kind.Completes() && e.kind.id in w.core.inFlight
    requires CreditMove(w, x, e, w')
    ensures Proceeds(x.engine, w.core, w'.core, e.kind.id, RestOf(w.core.inFlight[e.kind.id]), None)
    ensures Waiting(w'.core) == Waiting(w0.core) - {e.kind.id}
  {
    hide Ledger, Opened, Proceeds, HitNow, FetchEnded, Waiting, RestOf, Marked;
    MarkedOf(w0, credited, book);
    if e.kind.FetchDone? {
      FetchEndFacts(w, x, e.kind.id, w');
    } else {
      var kv :| HitNow(w, x, e.kind.id, kv, w');
      HitFacts(w, x, e.kind.id, kv, w');
      ArrivalUnmarked(w0, w, e, credited, book);
    }
    ProceedsMarked(w0, w, x.engine, e, w', RestOf(w.core.inFlight[e.kind.id]));
  }

  lemma HitGiven<T>(w0: World<T>, w: World<T>, x: Setup<T>, e: Ev, w': World<T>, credited: set<u64>, book: map<u64,
                    Request>)
    requires Ledger(w0, credited, book) && Opened(w, w0, e) && !e.kind.Completes() && e.kind.id in w0.core.inFlight
    requires AllGiven(x.engine, w0.core, credited) && Unstarted(w0.core.inFlight[e.kind.id])
    requires CreditMove(w, x, e, w')
    ensures AllGiven(x.engine, w'.core, credited + {e.kind.id})
  {
    hide Ledger, Opened, Proceeds, CreditMove, Waiting, AllGiven, Unstarted, RestOf;
    NotYetGiven(w0, x.engine, e, w, credited);
    CreditMoves(w0, w, x, e, w', credited, book);
    CreditGiven(x.engine, w0.core, w.core, w'.core, e.kind.id, credited);
  }

  lemma CompletionGiven<T>(w0: World<T>, w: World<T>, x: Setup<T>, e: Ev, a: Core, b: Core, credited: set<u64>)
    requires AllGiven(x.engine, w0.core, credited) && Opened(w, w0, e) && e.kind.Completes()
    requires Calm(x.engine, a, b) && a.sim.pending == w.core.sim.pending
    requires a.inFlight.Keys <= w0.core.inFlight.Keys
    requires forall k | k in a.inFlight :: a.inFlight[k] == w0.core.inFlight[k]
    ensures AllGiven(x.engine, b, credited)
  {
    SameKinds(w0, w, e);
    assert Waiting(b) == Waiting(w0.core);
    hide Arriving, Fetching, Opened, Calm, AllGiven, Waiting;
    CalmGiven(x.engine, w0.core, a, b, credited);
  }

  // ---- turns ----

  lemma OpenedSame<T>(w0: World<T>, w: World<T>, e: Ev)
    requires Opened(w, w0, e)
    ensures w.core.inFlight == w0.core.inFlight && w.counters == w0.counters
  {
    hide Arriving, Fetching;
  }

  lemma ArrivalGiven<T>(w0: World<T>, w: World<T>, x: Setup<T>, e: Ev, credited: set<u64>, book: map<u64, Request>)
    requires Ledger(w0, credited, book) && Opened(w, w0, e) && e.kind.RequestArrival? && CanServe(w.core, e)
    requires AllGiven(x.engine, w0.core, credited) && e.kind.id in w0.core.inFlight
             && Unstarted(w0.core.inFlight[e.kind.id])
    ensures var w' := OnArrival(w, x, e.kind.id);
            AllGiven(x.engine, w'.core, credited + CreditedBy(w0, e, w'))
  {
    hide Ledger, Books, Opened, HitNow, FetchStarted, Missed, FetchFailed, OnArrival, AllGiven, Unstarted, CreditedBy,
      Counters.Hits, Distinct, HasGpu;
    OpenedSame(w0, w, e);
    var w' := OnArrival(w, x, e.kind.id);
    ArrivalMoves(w, x, e.kind.id);
    CreditedNow(w0, e, w', credited);
    if Missed(w, x, e.kind.id, w') || FetchFailed(w, x, e.kind.id, w') {
      MissEntered(w0, w, x, e, w', credited, book);
      MissGiven(w0, w, x, e, w', credited, book);
    } else if kv :| HitNow(w, x, e.kind.id, kv, w') {
      HitEntered(w0, w, x, e, kv, w', credited, book);
      HitGiven(w0, w, x, e, w', credited, book);
    } else {
      var kv :| FetchStarted(w, x, e.kind.id, kv, w');
      FetchStartEntered(w0, w, x, e, kv, w', credited, book);
      FetchStartGiven(w0, w, x, e, kv, w', credited);
    }
  }

  lemma FetchDoneGiven<T>(w0: World<T>, w: World<T>, x: Setup<T>, e: Ev, credited: set<u64>, book: map<u64, Request>)
    requires Ledger(w0, credited, book) && Opened(w, w0, e) && e.kind.FetchDone? && CanServe(w.core, e)
    requires AllGiven(x.engine, w0.core, credited) && e.kind.id in w0.core.inFlight
             && Unstarted(w0.core.inFlight[e.kind.id])
    ensures var w' := OnFetchDone(w, x, e.kind.id);
            AllGiven(x.engine, w'.core, credited + CreditedBy(w0, e, w')) && w0.counters.Hits() < w'.counters.Hits()
  {
    hide Ledger, Books, Opened, FetchEnded, OnFetchDone, AllGiven, Unstarted, CreditedBy, Counters.Hits, Distinct,
      HasGpu;
    OpenedSame(w0, w, e);
    var w' := OnFetchDone(w, x, e.kind.id);
    FetchDoneMoves(w, x, e.kind.id);
    CreditedNow(w0, e, w', credited);
    FetchEndEntered(w0, w, x, e, w', credited, book);
    HitGiven(w0, w, x, e, w', credited, book);
  }

  lemma PrefillDoneGiven<T>(w0: World<T>, w: World<T>, x: Setup<T>, e: Ev, credited: set<u64>)
    requires Opened(w, w0, e) && e.kind.PrefillDone? && CanServe(w.core, e) && AllGiven(x.engine, w0.core, credited)
    ensures var w' := OnPrefillDone(w, x, e.kind.id, e.kind.gpu);
            AllGiven(x.engine, w'.core, credited) && w'.counters.Hits() == w0.counters.Hits()
  {
    var id, g := e.kind.id, e.kind.gpu;
    assert w.core.inFlight == w0.core.inFlight && w.counters == w0.counters;
    hide AllGiven, StoreKv, HasGpu, SetBusy, ED.OnPrefillDone, DispatchDecode, AssignPrefill, AssignDecode, Distinct,
      Opened;
    StoreKvBooks(w.(core := Release(w.core, g)), x, id);
    CL.PrefillDoneCore(w, x, id, g);
    PrefillDoneCalm(w.core, x.engine, id, g);
    CompletionGiven(w0, w, x, e, w.core, OnPrefillDone(w, x, id, g).core, credited);
  }

  lemma DecodeDoneGiven<T>(w0: World<T>, w: World<T>, x: Setup<T>, e: Ev, credited: set<u64>)
    requires Opened(w, w0, e) && e.kind.DecodeDone? && CanServe(w.core, e) && AllGiven(x.engine, w0.core, credited)
    ensures var w' := OnDecodeDone(w, x, e.kind.id, e.kind.gpu);
            AllGiven(x.engine, w'.core, credited) && w'.counters.Hits() == w0.counters.Hits()
  {
    var id, g := e.kind.id, e.kind.gpu;
    assert w.core.inFlight == w0.core.inFlight && w.counters == w0.counters;
    hide AllGiven, HasGpu, ED.OnDecodeDone, Distinct, Opened;
    DecodeDoneCalm(w.core, x.engine, id, g);
    CompletionGiven(w0, w, x, e, Finish(w.core, id), OnDecodeDone(w, x, id, g).core, credited);
  }

  lemma ServeGiven<T>(w0: World<T>, w: World<T>, x: Setup<T>, e: Ev, credited: set<u64>, book: map<u64, Request>)
    requires Ledger(w0, credited, book) && Opened(w, w0, e) && CanServe(w.core, e)
    requires AllGiven(x.engine, w0.core, credited) && e.kind.id in w0.core.inFlight
    requires !e.kind.Completes() ==> Unstarted(w0.core.inFlight[e.kind.id])
    ensures var w' := Serve(w, x, e);
            && AllGiven(x.engine, w'.core, credited + CreditedBy(w0, e, w'))
            && (e.kind.FetchDone? ==> w0.counters.Hits() < w'.counters.Hits())
            && (e.kind.Completes() ==> w0.counters.Hits() == w'.counters.Hits())
  {
    hide Ledger, Opened, AllGiven, Unstarted, CreditedBy, OnArrival, OnPrefillDone, OnFetchDone, OnDecodeDone;
    CreditedNow(w0, e, Serve(w, x, e), credited);
    match e.kind {
      case RequestArrival(id) => ArrivalGiven(w0, w, x, e, credited, book);
      case PrefillDone(id, g) => PrefillDoneGiven(w0, w, x, e, credited);
      case DecodeDone(id, g) => DecodeDoneGiven(w0, w, x, e, credited);
      case FetchDone(id) => FetchDoneGiven(w0, w, x, e, credited, book);
    }
  }

  lemma ServeTouches<T>(w: World<T>, x: Setup<T>, e: Ev) returns (p: set<u64>, d: set<u64>)
    requires CanServe(w.core, e) && e.kind.id in w.core.inFlight
    requires e.kind.FetchDone? ==> w.counters.Hits() < Serve(w, x, e).counters.Hits()
    requires e.kind.Completes() ==> w.counters.Hits() == Serve(w, x, e).counters.Hits()
    ensures var w' := Serve(w, x, e);
            Touches(w.core, w'.core, p, d) && Allowed(w.core, e, w.counters.Hits() < w'.counters.Hits(), p, d)
  {
    hide Touches, OnArrival, OnPrefillDone, OnFetchDone, OnDecodeDone, Distinct, HasGpu;
    match e.kind {
      case RequestArrival(id) => p, d := ArrivalTouches(w, x, e);
      case PrefillDone(id, g) =>
        CL.PrefillDoneCore(w, x, id, g);
        PrefillDoneTouches(w.core, x.engine, id, g);
        p, d := {}, {id};
      case DecodeDone(id, g) =>
        assert OnDecodeDone(w, x, id, g).core == ED.OnDecodeDone(w.core, x.engine, id, g) by { DecodeDoneCore(w, x, id, g); }
        DecodeDoneTouches(w.core, x.engine, id, g);
        p, d := {}, {};
      case FetchDone(id) =>
        FetchDoneTouches(w, x, id);
        var skip := w.core.inFlight[id].req.newPromptTokens == 0;
        p, d := if skip then {} else {id}, if skip then {id} else {};
    }
  }

  lemma DecodeDoneCore<T>(w: World<T>, x: Setup<T>, id: u64, g: GpuRef)
    requires Distinct(w.core.cluster) && HasGpu(w.core.cluster, g)
    ensures OnDecodeDone(w, x, id, g).core == ED.OnDecodeDone(w.core, x.engine, id, g)
  {}

  // ---- results ----

  lemma RanKept(m: Engine, c: Core, results: seq<RequestResult>, credited: set<u64>, after: set<u64>, book: map<u64,
                Request>)
    requires AllRan(m, results, credited, book) && results == c.results && Accounted(c, book)
    requires forall k | k !in c.inFlight :: k in after <==> k in credited
    ensures AllRan(m, results, after, book)
  {}

  lemma FinishedRan(m: Engine, f: InFlight, e: Ev, r: Request, hit: bool, skips: bool)
    requires Given(f, false, hit) && Timed(m, f) && f.req == r && Decoding(f, e.time)
    requires skips <==> hit && r.newPromptTokens == 0
    requires skips <==> f.prefillStart.None?
    ensures Ran(m, f.IntoResult(), r, hit)
  {}

  lemma FinishRan(m: Engine, c: Core, e: Ev, credited: set<u64>, book: map<u64, Request>)
    requires Prefills(m, c, credited, book) && Accounted(c, book) && e.kind.DecodeDone? && e.kind.id in c.inFlight
    requires Decoding(c.inFlight[e.kind.id], e.time) && e.kind.id !in Waiting(c)
             && c.inFlight[e.kind.id].req.id == e.kind.id
    ensures AllRan(m, Finish(c, e.kind.id).results, credited, book)
  {
    var f, id := c.inFlight[e.kind.id], e.kind.id;
    assert Given(f, false, id in credited) && Timed(m, f) && f.decodeStart.Some?;
    assert Skips(credited, book, id) <==> f.prefillStart.None?;
    hide Waiting, Skipping, AllGiven, Given, Timed;
    FinishedRan(m, f, e, book[id], id in credited, Skips(credited, book, id));
    forall o | o in Finish(c, id).results ensures o.id in book && Ran(m, o, book[o.id], o.id in credited) {
      if o !in c.results { assert o == f.IntoResult(); }
    }
  }

  // ---- runs ----

  /** What the loop invariant says about the request of the next event. */
  ghost predicate Next(c: Core, e: Ev) {
    var id := e.kind.id;
    && id in c.inFlight && c.inFlight[id].req.id == id && NoDangling(c)
    && (!e.kind.Completes() ==> Unstarted(c.inFlight[id]))
    && id !in c.prefillQueue && id !in c.decodeQueue
    && (e.kind.PrefillDone? ==> c.inFlight[id].prefillStart.Some?)
    && (e.kind.DecodeDone? ==> Decoding(c.inFlight[id], e.time))
  }

  lemma NextOf(c: Core, e: Ev)
    requires CL.Steady(c) && e in c.sim.pending && Earliest(e, c.sim.pending)
    ensures Next(c, e)
  {
    hide Grounded, Live, ED.Manned, Earliest;
    assert e.kind.id in EventIds(c.sim.pending);
    assert StageOf(c.inFlight[e.kind.id], e, c.Now());
    forall id | id in c.prefillQueue ensures id in c.inFlight && id != e.kind.id {
      assert id in Members(c.prefillQueue);
    }
    forall id | id in c.decodeQueue ensures id in c.inFlight && id != e.kind.id {
      assert id in Members(c.decodeQueue);
    }
  }

  lemma NotCredited<T>(w0: World<T>, w: World<T>, e: Ev, credited: set<u64>, book: map<u64, Request>)
    requires Ledger(w0, credited, book) && Opened(w, w0, e) && !e.kind.Completes() && e.kind.id in w0.core.inFlight
    ensures e.kind.id !in credited
  {
    hide Ledger, Opened;
    OpenedSame(w0, w, e);
    ArrivalUnmarked(w0, w, e, credited, book);
  }

  lemma PopTouches(c: Core, e: Ev, c': Core, p: set<u64>, d: set<u64>)
    requires Touches(Pop(c, e), c', p, d)
    ensures Touches(c, c', p, d)
  {}

  lemma ServeSkipping<T>(w0: World<T>, w: World<T>, x: Setup<T>, e: Ev, credited: set<u64>, book: map<u64, Request>)
    requires Ledger(w0, credited, book) && Opened(w, w0, e) && CanServe(w.core, e) && Next(w0.core, e)
    requires Skipping(w0.core, credited, book)
    requires e.kind.FetchDone? ==> w0.counters.Hits() < Serve(w, x, e).counters.Hits()
    requires e.kind.Completes() ==> w0.counters.Hits() == Serve(w, x, e).counters.Hits()
    ensures Skipping(Serve(w, x, e).core, credited + CreditedBy(w0, e, Serve(w, x, e)), book)
  {
    hide Ledger, Opened, Skipping, Touches, Serve, NoDangling, OfBook;
    OpenedSame(w0, w, e);
    MarkedOf(w0, credited, book);
    var p, d := ServeTouches(w, x, e);
    var w' := Serve(w, x, e);
    var hit := w0.counters.Hits() < w'.counters.Hits();
    if !e.kind.Completes() { NotCredited(w0, w, e, credited, book); }
    assert w == PopWorld(w0, e) by { OpenedPop(w0, w, e); }
    PopTouches(w0.core, e, w'.core, p, d);
    SkippingKept(w0.core, w'.core, e, hit, p, d, credited, book);
    assert credited + {} == credited;
  }

  lemma OpenedPop<T>(w0: World<T>, w: World<T>, e: Ev)
    requires Opened(w, w0, e)
    ensures w == PopWorld(w0, e)
  {
    hide Arriving, Fetching;
  }

  lemma ServeRan<T>(w0: World<T>, w: World<T>, x: Setup<T>, e: Ev, credited: set<u64>, book: map<u64, Request>)
    requires Ledger(w0, credited, book) && Opened(w, w0, e) && CanServe(w.core, e) && Next(w0.core, e)
    requires Prefills(x.engine, w0.core, credited, book) && Accounted(w0.core, book)
    requires e.kind.Completes() ==> w0.counters.Hits() == Serve(w, x, e).counters.Hits()
    requires !e.kind.DecodeDone? ==> Serve(w, x, e).core.results == w0.core.results
    ensures AllRan(x.engine, Serve(w, x, e).core.results, credited + CreditedBy(w0, e, Serve(w, x, e)), book)
  {
    hide Ledger, Opened, Serve, CreditedBy, Prefills, Accounted, AllRan, Counters.Hits, OnDecodeDone, Distinct,
      HasGpu, Next;
    var w' := Serve(w, x, e);
    if e.kind.DecodeDone? {
      DecodeDoneRan(w0, w, x, e, credited, book);
      CreditedNow(w0, e, w', credited);
      ServesDecode(w, x, e);
    } else {
      OnlyThisOne(w0, e, w', credited);
      RanOf(x.engine, w0.core, credited, book);
      RanKept(x.engine, w0.core, w'.core.results, credited, credited + CreditedBy(w0, e, w'), book);
    }
  }

  lemma ServesDecode<T>(w: World<T>, x: Setup<T>, e: Ev)
    requires CanServe(w.core, e) && e.kind.DecodeDone?
    ensures Serve(w, x, e) == OnDecodeDone(w, x, e.kind.id, e.kind.gpu)
  {
    hide OnDecodeDone, OnArrival, OnPrefillDone, OnFetchDone;
  }

  lemma OnlyThisOne<T>(w0: World<T>, e: Ev, w': World<T>, credited: set<u64>)
    requires Next(w0.core, e)
    ensures forall k | k !in w0.core.inFlight :: k in credited + CreditedBy(w0, e, w') <==> k in credited
  {}

  lemma RanOf(m: Engine, c: Core, credited: set<u64>, book: map<u64, Request>)
    requires Prefills(m, c, credited, book)
    ensures AllRan(m, c.results, credited, book)
  {}

  lemma DecodeDoneRan<T>(w0: World<T>, w: World<T>, x: Setup<T>, e: Ev, credited: set<u64>, book: map<u64, Request>)
    requires Opened(w, w0, e) && e.kind.DecodeDone? && CanServe(w.core, e) && Next(w0.core, e)
    requires Prefills(x.engine, w0.core, credited, book) && Accounted(w0.core, book)
    ensures AllRan(x.engine, OnDecodeDone(w, x, e.kind.id, e.kind.gpu).core.results, credited, book)
  {
    var id, g := e.kind.id, e.kind.gpu;
    assert e.kind.id !in Waiting(w0.core);
    hide Arriving, Fetching, Prefills, Waiting, HasGpu, ED.OnDecodeDone, OnDecodeDone, Distinct, Accounted, Decoding;
    FinishRan(x.engine, w0.core, e, credited, book);
    OpenedPop(w0, w, e);
    DecodeDoneCore(w, x, id, g);
    DecodeDoneCalm(w.core, x.engine, id, g);
    FinishIgnoresSim(w0.core, w.core, id);
  }

  lemma FinishIgnoresSim(a: Core, b: Core, id: u64)
    requires b == a.(sim := b.sim)
    ensures Finish(b, id).results == Finish(a, id).results
  {}

  /** The ledger and the prefills together. */
  ghost predicate InBooks<T>(w: World<T>, m: Engine, credited: set<u64>, book: map<u64, Request>) {
    InLedger(w, credited, book) && Prefills(m, w.core, credited, book)
  }

  lemma SameResults<T(!new)>(w: World<T>, x: Setup<T>, e: Ev, w': World<T>)
    requires CL.Steady(w.core) && Turn(w, x, e, w') && !e.kind.DecodeDone?
    ensures w'.core.results == w.core.results
  {
    hide CL.Steady, ED.Ready, CL.Done, Serve, CL.Timely;
    CL.PoppedReady(w.core, e);
    CL.ServeDone(PopWorld(w, e), x, e);
  }

  lemma TurnPrefills<T(!new)>(x: Setup<T>, w: World<T>, e: Ev, w': World<T>, credited: set<u64>, book: map<u64,
                              Request>)
    requires InBooks(w, x.engine, credited, book) && Turns(x)(w, e, w')
    ensures InBooks(w', x.engine, credited + CreditedBy(w, e, w'), book)
  {
    hide InLedger, Prefills;
    TurnLedger(x, w, e, w', credited, book);
    LedgerParts(w, credited, book);
    hide Ledger, Opened, CL.Steady, Accounted, Serve, CreditedBy, Next, Skipping, AllGiven, AllRan;
    assert Turn(w, x, e, w');
    TurnOpens(w, x, e, w');
    NextOf(w.core, e);
    PrefillParts(x.engine, w.core, credited, book);
    NextUnstarted(w.core, e);
    var p := PopWorld(w, e);
    ServeGiven(w, p, x, e, credited, book);
    ServeSkipping(w, p, x, e, credited, book);
    if !e.kind.DecodeDone? { SameResults(w, x, e, w'); }
    ServeRan(w, p, x, e, credited, book);
    PrefillWhole(x.engine, w'.core, credited + CreditedBy(w, e, w'), book);
  }

  lemma LedgerParts<T>(w: World<T>, credited: set<u64>, book: map<u64, Request>)
    requires InLedger(w, credited, book)
    ensures CL.Steady(w.core) && Accounted(w.core, book) && Ledger(w, credited, book)
  {}

  lemma NextUnstarted(c: Core, e: Ev)
    requires Next(c, e)
    ensures e.kind.id in c.inFlight && (!e.kind.Completes() ==> Unstarted(c.inFlight[e.kind.id]))
  {}

  lemma PrefillParts(m: Engine, c: Core, credited: set<u64>, book: map<u64, Request>)
    requires Prefills(m, c, credited, book)
    ensures Skipping(c, credited, book) && AllGiven(m, c, credited) && AllRan(m, c.results, credited, book)
  {}

  lemma PrefillWhole(m: Engine, c: Core, credited: set<u64>, book: map<u64, Request>)
    requires Skipping(c, credited, book) && AllGiven(m, c, credited) && AllRan(m, c.results, credited, book)
    ensures Prefills(m, c, credited, book)
  {}

  lemma {:induction false} RunPrefills<T(!new)>(x: Setup<T>, worlds: seq<World<T>>, events: seq<Ev>, n: nat,
                                                book: map<u64, Request>)
    requires IsTrace(Turns(x), worlds, events) && InBooks(worlds[0], x.engine, {}, book) && n <= |events|
    ensures InBooks(worlds[n], x.engine, Credited(worlds, events, n), book)
  {
    hide Turns, InBooks, IsTrace;
    if n > 0 {
      TraceStep(Turns(x), worlds, events, n - 1);
      RunPrefills(x, worlds, events, n - 1, book);
      TurnPrefills(x, worlds[n-1], events[n-1], worlds[n], Credited(worlds, events, n - 1), book);
    }
  }

  lemma BeginPrefills(m: Engine, t: Topology, rs: seq<Request>)
    ensures Prefills(m, Loaded(t, rs), {}, Book(rs))
  {
    LoadedQuiet(t, rs);
    LoadedInFlight(t, rs);
    LoadedArriving(t, rs);
    hide Loaded, Book, Arriving, Fetching;
  }

  /** How long prefills run: each result's prefill took the time of exactly the tokens it had to compute: the new ones
      if its hit was credited, none at all if there were no new ones, and the whole prompt otherwise. */
  lemma PrefillDurations<T(!new)>(t: Topology, rs: seq<Request>, x: Setup<T>, cache: Cache.State, transfer: T,
                                  worlds: seq<World<T>>, events: seq<Ev>, n: nat)
    requires ED.Servable(t, rs) && UniqueIds(rs) && AllPrompts(Book(rs)) <= MAX64
    requires IsTrace(Turns(x), worlds, events) && worlds[0] == Begin(t, rs, cache, transfer) && n <= |events|
    ensures forall o | o in worlds[n].core.results ::
              o.id in Book(rs) && Ran(x.engine, o, Book(rs)[o.id], o.id in Credited(worlds, events, n))
  {
    hide Turns, ED.Servable, AllPrompts, Book, InLedger, Credited, UniqueIds, Skipping, AllGiven, Ran, Loaded;
    BeginLedger(t, rs, cache, transfer);
    BeginPrefills(x.engine, t, rs);
    RunPrefills(x, worlds, events, n, Book(rs));
  }
}
