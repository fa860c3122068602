/** The books of the cache-aware runner: every arrival is a hit, a miss or a pending fetch, and every prompt token is
    either recomputed or covered by a credited hit. */
module CacheLedger {
  import opened Numbers
  import opened Simulation
  import opened Cluster
  import opened Requests
  import opened Tiers
  import opened Machine
  import opened Lifecycle
  import ED = EventDriven
  import opened Traces
  import opened CacheRunner
  import CL = CacheLifecycle
  import opened CacheMoves
  import Cache

  // ---- sums over sets of requests ----

  ghost function SumBy(ids: set<u64>, weight: u64 -> nat): nat {
    if ids == {} then 0
    else
      var id :| id in ids;
      weight(id) + SumBy(ids - {id}, weight)
  }

  lemma {:induction false} SumOf(ids: set<u64>, weight: u64 -> nat, id: u64)
    requires id in ids
    ensures SumBy(ids, weight) == weight(id) + SumBy(ids - {id}, weight)
    decreases ids
  {
    var k :| k in ids && SumBy(ids, weight) == weight(k) + SumBy(ids - {k}, weight);
    if k != id {
      SumOf(ids - {k}, weight, id);
      SumOf(ids - {id}, weight, k);
      assert ids - {k} - {id} == ids - {id} - {k};
    }
  }

  lemma SumWith(ids: set<u64>, weight: u64 -> nat, id: u64)
    requires id !in ids
    ensures SumBy(ids + {id}, weight) == SumBy(ids, weight) + weight(id)
  {
    SumOf(ids + {id}, weight, id);
    assert ids + {id} - {id} == ids;
  }

  function PromptOf(book: map<u64, Request>): u64 -> nat {
    id => if id in book then book[id].promptTokens else 0
  }

  function ReusedOf(book: map<u64, Request>): u64 -> nat {
    id => if id in book then book[id].ReusedTokens() else 0
  }

  ghost function AllPrompts(book: map<u64, Request>): nat {
    SumBy(book.Keys, PromptOf(book))
  }

  // ---- the trace's view ----

  /** The request whose hit is credited by this turn. */
  function CreditedBy<T>(w: World<T>, e: Ev, w': World<T>): set<u64> {
    if w.counters.Hits() < w'.counters.Hits() then {e.kind.id} else {}
  }

  /** The requests whose hits were credited by the first `n` events. */
  function Credited<T>(worlds: seq<World<T>>, events: seq<Ev>, n: nat): set<u64>
    requires n <= |events| < |worlds|
  {
    if n == 0 then {} else Credited(worlds, events, n - 1) + CreditedBy(worlds[n-1], events[n-1], worlds[n])
  }

  // ---- the ledger ----

  function Waiting(c: Core): set<u64> {
    Arriving(c.sim.pending) + Fetching(c.sim.pending)
  }

  /** Numbers: hits are the credited requests, hits, misses, pending fetches and arrivals to come make up the trace,
      and pending fetches are the fetch events. */
  ghost predicate Balanced<T>(w: World<T>, credited: set<u64>, book: map<u64, Request>) {
    Balance(w.counters, Arriving(w.core.sim.pending), Fetching(w.core.sim.pending), credited, |book.Keys|)
  }

  /** The same on the counters, the requests still to arrive, those being fetched and those credited. */
  ghost predicate Balance(k: Counters, a: set<u64>, f: set<u64>, credited: set<u64>, total: nat) {
    && k.Hits() == |credited|
    && k.Hits() + k.misses + k.pendingFetches + |a| == total
    && k.pendingFetches == |f|
    && k.fetchErrors <= k.misses
    && (forall id | id in credited :: id !in a && id !in f) && (forall id | id in a :: id !in f)
  }

  /** Marks: exactly the requests with a fetch event carry the tier they are fetched from. */
  ghost predicate Marked(c: Core) {
    forall id | id in c.inFlight ::
      && (c.inFlight[id].fetchTier.Some? <==> id in Fetching(c.sim.pending))
      && (c.inFlight[id].fetchTier.Some? ==>
            c.inFlight[id].fetchTier.value in {CpuTier, RemoteMemoryTier, RemoteSsdTier} && c.inFlight[id].req.ReusedTokens() > 0)
  }

  /** Tokens: recomputed, covered by credited hits, and still undecided ones make up all prompts. */
  ghost predicate TokensKept<T>(w: World<T>, credited: set<u64>, book: map<u64, Request>) {
    Covered(w.counters.recomputedTokens, credited, Waiting(w.core), book)
  }

  ghost predicate Covered(recomputed: nat, credited: set<u64>, waiting: set<u64>, book: map<u64, Request>) {
    recomputed + SumBy(credited, ReusedOf(book)) + SumBy(waiting, PromptOf(book)) == AllPrompts(book)
  }

  /** Requests in flight are those of the book. */
  ghost predicate OfBook(c: Core, book: map<u64, Request>) {
    forall id | id in c.inFlight :: id in book && c.inFlight[id].req == book[id]
  }

  // ---- each move keeps the numbers ----

  /** Before the handler of an event for `id`: the event is out, its request still counts as waiting. */
  ghost predicate Opened<T>(w: World<T>, w0: World<T>, e: Ev) {
    && w == PopWorld(w0, e)
    && Arriving(w.core.sim.pending) == Arriving(w0.core.sim.pending) - {e.kind.id}
    && Fetching(w.core.sim.pending) == Fetching(w0.core.sim.pending) - {e.kind.id}
    && (e.kind.RequestArrival? <==> e.kind.id in Arriving(w0.core.sim.pending))
    && (e.kind.FetchDone? <==> e.kind.id in Fetching(w0.core.sim.pending))
  }

  lemma ProceedsKinds(m: Engine, a: Core, b: Core, id: u64, tokens: u32, tier: Option<TierKind>)
    requires Proceeds(m, a, b, id, tokens, tier)
    ensures Arriving(b.sim.pending) == Arriving(a.sim.pending) && Fetching(b.sim.pending) == Fetching(a.sim.pending)
    ensures b.inFlight.Keys == a.inFlight.Keys && b.results == a.results
    ensures forall k | k in b.inFlight :: b.inFlight[k].fetchTier == if k == id then tier else a.inFlight[k].fetchTier
  {}

  lemma SetLess(s: set<u64>, id: u64)
    requires id in s
    ensures |s - {id}| == |s| - 1
  {}

  lemma CountMissed(k: Counters, k': Counters, a: set<u64>, f: set<u64>, credited: set<u64>, total: nat, id: u64)
    requires Balance(k, a, f, credited, total) && id in a
    requires k'.Hits() == k.Hits() && k'.misses == k.misses + 1 && k'.pendingFetches == k.pendingFetches
    requires k'.fetchErrors <= k.fetchErrors + 1
    ensures Balance(k', a - {id}, f - {id}, credited, total)
  {
    SetLess(a, id);
    assert f - {id} == f;
  }

  lemma CountHit(k: Counters, k': Counters, a: set<u64>, f: set<u64>, credited: set<u64>, total: nat, id: u64)
    requires Balance(k, a, f, credited, total) && id in a
    requires k'.Hits() == k.Hits() + 1 && k'.misses == k.misses && k'.pendingFetches == k.pendingFetches
    requires k'.fetchErrors == k.fetchErrors
    ensures Balance(k', a - {id}, f - {id}, credited + {id}, total)
  {
    SetLess(a, id);
    assert f - {id} == f && id !in credited;
  }

  lemma CountFetch(k: Counters, k': Counters, a: set<u64>, f: set<u64>, credited: set<u64>, total: nat, id: u64)
    requires Balance(k, a, f, credited, total) && id in a
    requires k'.Hits() == k.Hits() && k'.misses == k.misses && k'.pendingFetches == k.pendingFetches + 1
    requires k'.fetchErrors == k.fetchErrors
    ensures Balance(k', a - {id}, f - {id} + {id}, credited, total)
  {
    SetLess(a, id);
    assert f - {id} == f && id !in f;
  }

  lemma CountFetched(k: Counters, k': Counters, a: set<u64>, f: set<u64>, credited: set<u64>, total: nat, id: u64)
    requires Balance(k, a, f, credited, total) && id in f
    requires k'.Hits() == k.Hits() + 1 && k'.misses == k.misses && k'.fetchErrors == k.fetchErrors
    requires k.pendingFetches > 0 ==> k'.pendingFetches == k.pendingFetches - 1
    ensures Balance(k', a - {id}, f - {id}, credited + {id}, total)
  {
    SetLess(f, id);
    assert a - {id} == a && id !in credited;
  }

  lemma MissBalanced<T>(w0: World<T>, w: World<T>, x: Setup<T>, e: Ev, w': World<T>, credited: set<u64>,
                        book: map<u64, Request>)
    requires Opened(w, w0, e) && e.kind.RequestArrival? && Balanced(w0, credited, book)
    requires Missed(w, x, e.kind.id, w') || FetchFailed(w, x, e.kind.id, w')
    ensures Balanced(w', credited, book) && w'.counters.Hits() == w0.counters.Hits()
  {
    hide Proceeds, Balance;
    var f := w.core.inFlight[e.kind.id];
    if Missed(w, x, e.kind.id, w') {
      ProceedsKinds(x.engine, w.core, w'.core, e.kind.id, f.req.promptTokens, f.fetchTier);
    } else {
      ProceedsKinds(x.engine, w.core, w'.core, e.kind.id, f.req.promptTokens, None);
    }
    hide Arriving, Fetching;
    CountMissed(w.counters, w'.counters, Arriving(w0.core.sim.pending), Fetching(w0.core.sim.pending), credited,
        |book.Keys|, e.kind.id);
  }

  lemma HitBalanced<T>(w0: World<T>, w: World<T>, x: Setup<T>, e: Ev, kv: Cache.KvObject, w': World<T>,
                       credited: set<u64>,
                       book: map<u64, Request>)
    requires Opened(w, w0, e) && e.kind.RequestArrival? && Balanced(w0, credited, book)
    requires HitNow(w, x, e.kind.id, kv, w')
    ensures Balanced(w', credited + {e.kind.id}, book) && w'.counters.Hits() == w0.counters.Hits() + 1
  {
    hide Proceeds, Balance;
    var f := w.core.inFlight[e.kind.id];
    ProceedsKinds(x.engine, w.core, w'.core, e.kind.id, RestOf(f), f.fetchTier);
    hide Arriving, Fetching;
    CountHit(w.counters, w'.counters, Arriving(w0.core.sim.pending), Fetching(w0.core.sim.pending), credited,
        |book.Keys|, e.kind.id);
  }

  lemma FetchStartBalanced<T>(w0: World<T>, w: World<T>, x: Setup<T>, e: Ev, kv: Cache.KvObject, w': World<T>,
                              credited: set<u64>, book: map<u64, Request>)
    requires Opened(w, w0, e) && e.kind.RequestArrival? && Balanced(w0, credited, book)
    requires FetchStarted(w, x, e.kind.id, kv, w')
    ensures Balanced(w', credited, book) && w'.counters.Hits() == w0.counters.Hits()
  {
    hide Balance, Arriving, Fetching;
    AwaitKinds(w, x, e.kind.id, kv, w');
    CountFetch(w.counters, w'.counters, Arriving(w0.core.sim.pending), Fetching(w0.core.sim.pending), credited,
        |book.Keys|, e.kind.id);
  }

  lemma AwaitKinds<T>(w: World<T>, x: Setup<T>, id: u64, kv: Cache.KvObject, w': World<T>)
    requires FetchStarted(w, x, id, kv, w')
    ensures Arriving(w'.core.sim.pending) == Arriving(w.core.sim.pending)
    ensures Fetching(w'.core.sim.pending) == Fetching(w.core.sim.pending) + {id}
    ensures w'.core.inFlight == Tag(w.core, id, w.core.inFlight[id].prefillTokens, Some(FetchPath(kv.location).value.1)).inFlight
  {
    var tagged := Tag(w.core, id, w.core.inFlight[id].prefillTokens, Some(FetchPath(kv.location).value.1));
    var finish: u64 :| w'.core == AwaitFetch(tagged, id, finish);
    AddEvent(w.core.sim.pending, Event(finish, w.core.sim.nextSeq, FetchDone(id)));
  }

  lemma FetchEndBalanced<T>(w0: World<T>, w: World<T>, x: Setup<T>, e: Ev, w': World<T>, credited: set<u64>,
                            book: map<u64, Request>)
    requires Opened(w, w0, e) && e.kind.FetchDone? && Balanced(w0, credited, book)
    requires FetchEnded(w, x, e.kind.id, w') && Marked(w0.core)
    ensures Balanced(w', credited + {e.kind.id}, book) && w'.counters.Hits() == w0.counters.Hits() + 1
  {
    hide Proceeds, Balance;
    var f := w.core.inFlight[e.kind.id];
    ProceedsKinds(x.engine, w.core, w'.core, e.kind.id, RestOf(f), None);
    assert f.fetchTier.Some? && f.fetchTier.value in {CpuTier, RemoteMemoryTier, RemoteSsdTier};
    hide Arriving, Fetching, Marked;
    CountFetched(w.counters, w'.counters, Arriving(w0.core.sim.pending), Fetching(w0.core.sim.pending), credited,
        |book.Keys|, e.kind.id);
  }

  // ---- each move keeps the tokens ----

  lemma TokensMissed(recomputed: nat, credited: set<u64>, waiting: set<u64>, book: map<u64, Request>, id: u64)
    requires Covered(recomputed, credited, waiting, book) && id in waiting && id in book
    ensures Covered(recomputed + book[id].promptTokens, credited, waiting - {id}, book)
    ensures recomputed + book[id].promptTokens <= AllPrompts(book)
  {
    SumOf(waiting, PromptOf(book), id);
  }

  lemma TokensHit(recomputed: nat, credited: set<u64>, waiting: set<u64>, book: map<u64, Request>, id: u64)
    requires Covered(recomputed, credited, waiting, book) && id in waiting && id in book && id !in credited
    requires book[id].ReusedTokens() > 0
    ensures Covered(recomputed + book[id].newPromptTokens, credited + {id}, waiting - {id}, book)
  {
    SumOf(waiting, PromptOf(book), id);
    SumWith(credited, ReusedOf(book), id);
  }

  // ---- each move keeps the marks ----

  lemma MarkedAfter(c0: Core, c': Core, id: u64, tier: Option<TierKind>)
    requires Marked(c0) && c'.inFlight.Keys <= c0.inFlight.Keys
    requires forall k | k in c'.inFlight :: c'.inFlight[k].req == c0.inFlight[k].req
    requires forall k | k in c'.inFlight :: c'.inFlight[k].fetchTier == if k == id then tier else
    c0.inFlight[k].fetchTier
    requires Fetching(c'.sim.pending) == Fetching(c0.sim.pending) - {id} + if tier.Some? then {id} else {}
    requires tier.Some? && id in c0.inFlight ==>
               tier.value in {CpuTier, RemoteMemoryTier, RemoteSsdTier} && c0.inFlight[id].req.ReusedTokens() > 0
    ensures Marked(c')
  {
    hide Fetching;
  }

  lemma ProceedsReq(m: Engine, a: Core, b: Core, id: u64, tokens: u32, tier: Option<TierKind>)
    requires Proceeds(m, a, b, id, tokens, tier)
    ensures b.inFlight.Keys == a.inFlight.Keys && forall k | k in b.inFlight :: b.inFlight[k].req == a.inFlight[k].req
  {
    hide Arriving, Fetching;
  }

  // ---- each move, all books ----

  /** All books together, over a trace whose prompts fit the counter. */
  ghost predicate Ledger<T>(w: World<T>, credited: set<u64>, book: map<u64, Request>) {
    && Balanced(w, credited, book) && Marked(w.core) && TokensKept(w, credited, book)
    && OfBook(w.core, book) && AllPrompts(book) <= MAX64
  }

  /** The books after a turn, but for the requests in flight. */
  ghost predicate Books<T>(w: World<T>, credited: set<u64>, book: map<u64, Request>) {
    Balanced(w, credited, book) && Marked(w.core) && TokensKept(w, credited, book)
  }

  lemma WaitingAfter<T>(w0: World<T>, w': World<T>, id: u64)
    requires Arriving(w'.core.sim.pending) == Arriving(w0.core.sim.pending) - {id}
    requires Fetching(w'.core.sim.pending) == Fetching(w0.core.sim.pending) - {id}
    ensures Waiting(w'.core) == Waiting(w0.core) - {id}
  {
    hide Arriving, Fetching;
  }

  /** A request that proceeds is not waiting any more and carries no mark. */
  lemma ProceedsMarked<T>(w0: World<T>, w: World<T>, m: Engine, e: Ev, w': World<T>, tokens: u32)
    requires Opened(w, w0, e) && Marked(w0.core) && Proceeds(m, w.core, w'.core, e.kind.id, tokens, None)
    ensures Marked(w'.core) && Waiting(w'.core) == Waiting(w0.core) - {e.kind.id}
  {
    hide Proceeds, Arriving, Fetching, Marked;
    ProceedsKinds(m, w.core, w'.core, e.kind.id, tokens, None);
    ProceedsReq(m, w.core, w'.core, e.kind.id, tokens, None);
    WaitingAfter(w0, w', e.kind.id);
    MarkedAfter(w0.core, w'.core, e.kind.id, None);
  }

  lemma ArrivalUnmarked<T>(w0: World<T>, w: World<T>, e: Ev, credited: set<u64>, book: map<u64, Request>)
    requires Ledger(w0, credited, book) && Opened(w, w0, e) && e.kind.id in w.core.inFlight
    requires !e.kind.Completes()
    ensures e.kind.RequestArrival? ==> w.core.inFlight[e.kind.id].fetchTier == None
    ensures e.kind.FetchDone? ==> w.core.inFlight[e.kind.id].req.ReusedTokens() > 0
    ensures e.kind.id in Waiting(w0.core) && e.kind.id in book && w.core.inFlight[e.kind.id].req == book[e.kind.id]
    ensures e.kind.id !in credited
  {
    hide Arriving, Fetching, AllPrompts, Covered;
  }

  lemma CountUpExact(count: nat, more: nat)
    requires count + more <= MAX64
    ensures CountUp(count, more) == count + more
  {}

  /** How many tokens a full prefill adds, as long as the counter has room. */
  lemma FullPrefillTokens<T>(w: World<T>, x: Setup<T>, id: u64, w': World<T>)
    requires Missed(w, x, id, w') || FetchFailed(w, x, id, w')
    requires w.counters.recomputedTokens + w.core.inFlight[id].req.promptTokens <= MAX64
    ensures w'.counters.recomputedTokens == w.counters.recomputedTokens + w.core.inFlight[id].req.promptTokens
  {
    hide Proceeds;
    CountUpExact(w.counters.recomputedTokens, w.core.inFlight[id].req.promptTokens);
  }

  lemma FullPrefillInFlight<T>(w: World<T>, x: Setup<T>, id: u64, w': World<T>)
    requires Missed(w, x, id, w') || FetchFailed(w, x, id, w')
    ensures id in w.core.inFlight
  {}

  lemma FullPrefillProceeds<T>(w: World<T>, x: Setup<T>, id: u64, w': World<T>)
    requires Missed(w, x, id, w') || FetchFailed(w, x, id, w')
    requires w.core.inFlight[id].fetchTier == None
    ensures Proceeds(x.engine, w.core, w'.core, id, w.core.inFlight[id].req.promptTokens, None)
  {
    hide Proceeds;
  }

  lemma MissEntered<T>(w0: World<T>, w: World<T>, x: Setup<T>, e: Ev, w': World<T>, credited: set<u64>,
                       book: map<u64, Request>)
    requires Ledger(w0, credited, book) && Opened(w, w0, e) && e.kind.RequestArrival?
    requires Missed(w, x, e.kind.id, w') || FetchFailed(w, x, e.kind.id, w')
    ensures Books(w', credited, book) && w'.counters.Hits() == w0.counters.Hits()
  {
    hide Balance, Balanced, Proceeds, Arriving, Fetching, Covered, AllPrompts, Marked, OfBook, Waiting, Missed,
      FetchFailed;
    var id := e.kind.id;
    FullPrefillInFlight(w, x, id, w');
    ArrivalUnmarked(w0, w, e, credited, book);
    MissBalanced(w0, w, x, e, w', credited, book);
    FullPrefillProceeds(w, x, id, w');
    ProceedsMarked(w0, w, x.engine, e, w', w.core.inFlight[id].req.promptTokens);
    TokensMissed(w0.counters.recomputedTokens, credited, Waiting(w0.core), book, id);
    FullPrefillTokens(w, x, id, w');
  }

  lemma HitFacts<T>(w: World<T>, x: Setup<T>, id: u64, kv: Cache.KvObject, w': World<T>)
    requires HitNow(w, x, id, kv, w')
    ensures id in w.core.inFlight
    ensures var f := w.core.inFlight[id];
            && f.req.ReusedTokens() > 0
            && w'.counters.recomputedTokens == w.counters.recomputedTokens + f.req.newPromptTokens
            && Proceeds(x.engine, w.core, w'.core, id, RestOf(f), f.fetchTier)
  {
    hide Proceeds;
  }

  lemma HitEntered<T>(w0: World<T>, w: World<T>, x: Setup<T>, e: Ev, kv: Cache.KvObject, w': World<T>,
                      credited: set<u64>,
                      book: map<u64, Request>)
    requires Ledger(w0, credited, book) && Opened(w, w0, e) && e.kind.RequestArrival?
    requires HitNow(w, x, e.kind.id, kv, w')
    ensures Books(w', credited + {e.kind.id}, book) && w'.counters.Hits() == w0.counters.Hits() + 1
  {
    hide Balance, Balanced, Proceeds, Arriving, Fetching, Covered, AllPrompts, Marked, OfBook, Waiting, HitNow;
    var id := e.kind.id;
    HitFacts(w, x, id, kv, w');
    ArrivalUnmarked(w0, w, e, credited, book);
    HitBalanced(w0, w, x, e, kv, w', credited, book);
    ProceedsMarked(w0, w, x.engine, e, w', RestOf(w.core.inFlight[id]));
    TokensHit(w0.counters.recomputedTokens, credited, Waiting(w0.core), book, id);
  }

  lemma FetchEndFacts<T>(w: World<T>, x: Setup<T>, id: u64, w': World<T>)
    requires FetchEnded(w, x, id, w')
    ensures id in w.core.inFlight
    ensures var f := w.core.inFlight[id];
            && w'.counters.recomputedTokens == w.counters.recomputedTokens + f.req.newPromptTokens
            && Proceeds(x.engine, w.core, w'.core, id, RestOf(f), None)
  {
    hide Proceeds;
  }

  lemma FetchEndEntered<T>(w0: World<T>, w: World<T>, x: Setup<T>, e: Ev, w': World<T>, credited: set<u64>,
                           book: map<u64, Request>)
    requires Ledger(w0, credited, book) && Opened(w, w0, e) && e.kind.FetchDone?
    requires FetchEnded(w, x, e.kind.id, w')
    ensures Books(w', credited + {e.kind.id}, book) && w'.counters.Hits() == w0.counters.Hits() + 1
  {
    hide Balance, Balanced, Proceeds, Arriving, Fetching, Covered, AllPrompts, Marked, OfBook, Waiting, FetchEnded;
    var id := e.kind.id;
    FetchEndFacts(w, x, id, w');
    ArrivalUnmarked(w0, w, e, credited, book);
    FetchEndBalanced(w0, w, x, e, w', credited, book);
    ProceedsMarked(w0, w, x.engine, e, w', RestOf(w.core.inFlight[id]));
    TokensHit(w0.counters.recomputedTokens, credited, Waiting(w0.core), book, id);
  }

  lemma FetchStartWaiting<T>(w0: World<T>, w: World<T>, x: Setup<T>, e: Ev, kv: Cache.KvObject, w': World<T>)
    requires Opened(w, w0, e) && e.kind.RequestArrival? && FetchStarted(w, x, e.kind.id, kv, w')
    ensures Waiting(w'.core) == Waiting(w0.core)
  {
    AwaitKinds(w, x, e.kind.id, kv, w');
    hide Arriving, Fetching, FetchStarted;
  }

  lemma FetchStartMarked<T>(w0: World<T>, w: World<T>, x: Setup<T>, e: Ev, kv: Cache.KvObject, w': World<T>)
    requires Opened(w, w0, e) && e.kind.RequestArrival? && FetchStarted(w, x, e.kind.id, kv, w') && Marked(w0.core)
    ensures Marked(w'.core)
  {
    AwaitKinds(w, x, e.kind.id, kv, w');
    hide Arriving, Fetching, Marked;
    MarkedAfter(w0.core, w'.core, e.kind.id, Some(FetchPath(kv.location).value.1));
  }

  lemma FetchStartEntered<T>(w0: World<T>, w: World<T>, x: Setup<T>, e: Ev, kv: Cache.KvObject, w': World<T>,
                             credited: set<u64>,
                             book: map<u64, Request>)
    requires Ledger(w0, credited, book) && Opened(w, w0, e) && e.kind.RequestArrival?
    requires FetchStarted(w, x, e.kind.id, kv, w')
    ensures Books(w', credited, book) && w'.counters.Hits() == w0.counters.Hits()
  {
    assert w'.counters.recomputedTokens == w0.counters.recomputedTokens;
    hide Balance, Balanced, Arriving, Fetching, Covered, AllPrompts, Marked, OfBook, Waiting, FetchStarted;
    FetchStartBalanced(w0, w, x, e, kv, w', credited, book);
    FetchStartMarked(w0, w, x, e, kv, w');
    FetchStartWaiting(w0, w, x, e, kv, w');
  }

  // ---- completions leave the books alone ----

  ghost predicate SameBooks(k: Counters, k': Counters) {
    && k'.hitsGpu == k.hitsGpu && k'.hitsCpu == k.hitsCpu && k'.hitsRemote == k.hitsRemote && k'.misses == k.misses
    && k'.fetchErrors == k.fetchErrors && k'.pendingFetches == k.pendingFetches
    && k'.recomputedTokens == k.recomputedTokens
  }

  lemma CalmMarked(m: Engine, c0: Core, a: Core, b: Core)
    requires Marked(c0) && Calm(m, a, b) && a.inFlight.Keys <= c0.inFlight.Keys
    requires forall k | k in a.inFlight :: a.inFlight[k] == c0.inFlight[k]
    requires Fetching(a.sim.pending) == Fetching(c0.sim.pending)
    ensures Marked(b)
  {
    hide Arriving, Fetching;
  }

  lemma SameKinds<T>(w0: World<T>, w: World<T>, e: Ev)
    requires Opened(w, w0, e) && e.kind.Completes()
    ensures Arriving(w.core.sim.pending) == Arriving(w0.core.sim.pending)
    ensures Fetching(w.core.sim.pending) == Fetching(w0.core.sim.pending)
  {
    hide Arriving, Fetching;
  }

  lemma CompletionEntered<T>(w0: World<T>, w: World<T>, x: Setup<T>, e: Ev, w': World<T>, credited: set<u64>,
                             book: map<u64, Request>)
    requires Ledger(w0, credited, book) && Opened(w, w0, e) && e.kind.Completes()
    requires SameBooks(w0.counters, w'.counters) && Marked(w'.core)
    requires Arriving(w'.core.sim.pending) == Arriving(w.core.sim.pending)
    requires Fetching(w'.core.sim.pending) == Fetching(w.core.sim.pending)
    ensures Books(w', credited, book) && w'.counters.Hits() == w0.counters.Hits()
  {
    hide Arriving, Fetching, Covered, AllPrompts, Marked, OfBook, Balance, Opened;
    SameKinds(w0, w, e);
    SameBalance(w0.counters, w'.counters, Arriving(w0.core.sim.pending), Fetching(w0.core.sim.pending), credited,
        |book.Keys|);
  }

  lemma SameBalance(k: Counters, k': Counters, a: set<u64>, f: set<u64>, credited: set<u64>, total: nat)
    requires Balance(k, a, f, credited, total) && SameBooks(k, k')
    ensures Balance(k', a, f, credited, total)
  {}

  lemma StoreKvBooks<T>(w: World<T>, x: Setup<T>, id: u64)
    ensures SameBooks(w.counters, StoreKv(w, x, id).counters) && StoreKv(w, x, id).core == w.core
  {}

  lemma OpenedFetching<T>(w0: World<T>, w: World<T>, e: Ev)
    requires Opened(w, w0, e) && e.kind.Completes()
    ensures Fetching(w.core.sim.pending) == Fetching(w0.core.sim.pending)
  {
    hide Arriving, Fetching;
  }

  lemma PrefillDoneEntered<T>(w0: World<T>, w: World<T>, x: Setup<T>, e: Ev, credited: set<u64>, book: map<u64,
                              Request>)
    requires Ledger(w0, credited, book) && Opened(w, w0, e) && e.kind.PrefillDone? && CanServe(w.core, e)
    ensures var w' := OnPrefillDone(w, x, e.kind.id, e.kind.gpu);
            Books(w', credited, book) && w'.counters.Hits() == w0.counters.Hits()
  {
    var id, g := e.kind.id, e.kind.gpu;
    assert Marked(w0.core) && w.core.inFlight == w0.core.inFlight && w.counters == w0.counters;
    hide Arriving, Fetching, Ledger, Marked, StoreKv, HasGpu, SetBusy, ED.OnPrefillDone, DispatchDecode,
      AssignPrefill, AssignDecode, Distinct;
    StoreKvBooks(w.(core := Release(w.core, g)), x, id);
    CL.PrefillDoneCore(w, x, id, g);
    PrefillDoneCalm(w.core, x.engine, id, g);
    OpenedFetching(w0, w, e);
    CalmMarked(x.engine, w0.core, w.core, OnPrefillDone(w, x, id, g).core);
    CompletionEntered(w0, w, x, e, OnPrefillDone(w, x, id, g), credited, book);
  }

  lemma DecodeDoneEntered<T>(w0: World<T>, w: World<T>, x: Setup<T>, e: Ev, credited: set<u64>, book: map<u64, Request>)
    requires Ledger(w0, credited, book) && Opened(w, w0, e) && e.kind.DecodeDone? && CanServe(w.core, e)
    ensures var w' := OnDecodeDone(w, x, e.kind.id, e.kind.gpu);
            Books(w', credited, book) && w'.counters.Hits() == w0.counters.Hits()
  {
    var id, g := e.kind.id, e.kind.gpu;
    assert Marked(w0.core) && w.core.inFlight == w0.core.inFlight && w.counters == w0.counters;
    hide Arriving, Fetching, Ledger, Marked, HasGpu, SetBusy, ED.OnDecodeDone, Distinct;
    DecodeDoneCalm(w.core, x.engine, id, g);
    OpenedFetching(w0, w, e);
    CalmMarked(x.engine, w0.core, Finish(w.core, id), OnDecodeDone(w, x, id, g).core);
    CompletionEntered(w0, w, x, e, OnDecodeDone(w, x, id, g), credited, book);
  }

  // ---- turns and runs ----

  lemma TurnOpens<T(!new)>(w0: World<T>, x: Setup<T>, e: Ev, w': World<T>)
    requires CL.Steady(w0.core) && Turn(w0, x, e, w')
    ensures Opened(PopWorld(w0, e), w0, e) && CanServe(Pop(w0.core, e), e) && w' == Serve(PopWorld(w0, e), x, e)
    ensures e.kind.id in w0.core.inFlight
  {
    assert e.kind.id in EventIds(w0.core.sim.pending);
    hide Staged, Grounded, Live, ED.Manned, Earliest, Serve, Arriving, Fetching;
    RemoveEvent(w0.core, e);
  }

  lemma ArrivalEntered<T>(w0: World<T>, w: World<T>, x: Setup<T>, e: Ev, credited: set<u64>, book: map<u64, Request>)
    requires Ledger(w0, credited, book) && Opened(w, w0, e) && e.kind.RequestArrival? && CanServe(w.core, e)
    requires e.kind.id in w.core.inFlight
    ensures var w' := OnArrival(w, x, e.kind.id);
            || (Books(w', credited, book) && w'.counters.Hits() == w0.counters.Hits())
            || (Books(w', credited + {e.kind.id}, book) && w'.counters.Hits() == w0.counters.Hits() + 1)
  {
    hide Ledger, Books, Opened, HitNow, FetchStarted, Missed, FetchFailed, OnArrival;
    var w' := OnArrival(w, x, e.kind.id);
    ArrivalMoves(w, x, e.kind.id);
    if Missed(w, x, e.kind.id, w') || FetchFailed(w, x, e.kind.id, w') {
      MissEntered(w0, w, x, e, w', credited, book);
    } else if kv :| HitNow(w, x, e.kind.id, kv, w') {
      HitEntered(w0, w, x, e, kv, w', credited, book);
    } else {
      var kv :| FetchStarted(w, x, e.kind.id, kv, w');
      FetchStartEntered(w0, w, x, e, kv, w', credited, book);
    }
  }

  lemma ServeEntered<T>(w0: World<T>, w: World<T>, x: Setup<T>, e: Ev, credited: set<u64>, book: map<u64, Request>)
    requires Ledger(w0, credited, book) && Opened(w, w0, e) && CanServe(w.core, e) && e.kind.id in w.core.inFlight
    ensures var w' := Serve(w, x, e);
            || (Books(w', credited, book) && w'.counters.Hits() == w0.counters.Hits())
            || (Books(w', credited + {e.kind.id}, book) && w'.counters.Hits() == w0.counters.Hits() + 1)
  {
    hide Ledger, Books, Opened, OnArrival, OnPrefillDone, OnFetchDone, OnDecodeDone, FetchEnded;
    match e.kind {
      case RequestArrival(id) => ArrivalEntered(w0, w, x, e, credited, book);
      case PrefillDone(id, g) => PrefillDoneEntered(w0, w, x, e, credited, book);
      case DecodeDone(id, g) => DecodeDoneEntered(w0, w, x, e, credited, book);
      case FetchDone(id) =>
        FetchDoneMoves(w, x, id);
        FetchEndEntered(w0, w, x, e, OnFetchDone(w, x, id), credited, book);
    }
  }

  lemma CreditedNow<T>(w: World<T>, e: Ev, w': World<T>, credited: set<u64>)
    ensures w'.counters.Hits() == w.counters.Hits() ==> credited + CreditedBy(w, e, w') == credited
    ensures w'.counters.Hits() == w.counters.Hits() + 1 ==> credited + CreditedBy(w, e, w') == credited + {e.kind.id}
  {}

  lemma BooksLedger<T>(w: World<T>, credited: set<u64>, book: map<u64, Request>)
    requires Books(w, credited, book) && Accounted(w.core, book) && AllPrompts(book) <= MAX64
    ensures Ledger(w, credited, book)
  {}

  /** The loop invariant with the books. */
  ghost predicate InLedger<T>(w: World<T>, credited: set<u64>, book: map<u64, Request>) {
    CL.Steady(w.core) && Accounted(w.core, book) && Ledger(w, credited, book)
  }

  lemma TurnLedger<T(!new)>(x: Setup<T>, w: World<T>, e: Ev, w': World<T>, credited: set<u64>, book: map<u64, Request>)
    requires InLedger(w, credited, book) && Turns(x)(w, e, w')
    ensures InLedger(w', credited + CreditedBy(w, e, w'), book)
  {
    assert AllPrompts(book) <= MAX64;
    hide Ledger, Books, Opened, CL.Steady, Accounted, Serve, CreditedBy, AllPrompts;
    CL.TurnKeeps(w, x, e, w');
    CL.TurnAccounted(w, x, e, w', book);
    TurnOpens(w, x, e, w');
    ServeEntered(w, PopWorld(w, e), x, e, credited, book);
    CreditedNow(w, e, w', credited);
    BooksLedger(w', credited + CreditedBy(w, e, w'), book);
  }

  lemma {:induction false} RunLedger<T(!new)>(x: Setup<T>, worlds: seq<World<T>>, events: seq<Ev>, n: nat,
                                              book: map<u64, Request>)
    requires IsTrace(Turns(x), worlds, events) && InLedger(worlds[0], {}, book) && n <= |events|
    ensures InLedger(worlds[n], Credited(worlds, events, n), book)
  {
    hide Turns, InLedger, IsTrace;
    if n > 0 {
      TraceStep(Turns(x), worlds, events, n - 1);
      RunLedger(x, worlds, events, n - 1, book);
      TurnLedger(x, worlds[n-1], events[n-1], worlds[n], Credited(worlds, events, n - 1), book);
    }
  }

  lemma {:induction false} LoadedArriving(t: Topology, rs: seq<Request>)
    ensures Arriving(Loaded(t, rs).sim.pending) == Book(rs).Keys && Fetching(Loaded(t, rs).sim.pending) == {}
  {
    if rs != [] {
      var n := |rs| - 1;
      LoadedArriving(t, rs[..n]);
      var c := Loaded(t, rs[..n]);
      AddEvent(c.sim.pending, Event(rs[n].arrival, c.sim.nextSeq, RequestArrival(rs[n].id)));
    }
  }

  lemma LoadedMarked(t: Topology, rs: seq<Request>)
    ensures Marked(Loaded(t, rs))
  {
    LoadedArriving(t, rs);
    LoadedInFlight(t, rs);
    hide Fetching, Arriving, Loaded, Book;
  }

  lemma SumNothing(weight: u64 -> nat)
    ensures SumBy({}, weight) == 0
  {}

  lemma NothingCounted(a: set<u64>)
    ensures Balance(NoCounts(), a, {}, {}, |a|)
  {
    CountsAreZero();
    hide Balance, NoCounts;
    NoBalance(NoCounts(), a, {});
  }

  lemma CountsAreZero()
    ensures var k := NoCounts(); k.Hits() == 0 && k.misses == 0 && k.pendingFetches == 0 && k.fetchErrors == 0
  {}

  lemma NoBalance(k: Counters, a: set<u64>, none: set<u64>)
    requires k.Hits() == 0 && k.misses == 0 && k.pendingFetches == 0 && k.fetchErrors == 0 && |none| == 0
    ensures Balance(k, a, none, none, |a|)
  {}

  lemma NothingCovered(book: map<u64, Request>)
    ensures Covered(0, {}, book.Keys, book)
  {
    hide SumBy, PromptOf, ReusedOf;
    SumNothing(ReusedOf(book));
  }

  lemma AtBeginning<T>(w: World<T>, book: map<u64, Request>)
    requires Arriving(w.core.sim.pending) == book.Keys && Fetching(w.core.sim.pending) == {} && w.counters == NoCounts()
    requires Marked(w.core)
    ensures Books(w, {}, book)
  {
    hide Arriving, Fetching, Marked, Balance, Covered;
    NothingCounted(book.Keys);
    NothingCovered(book);
    assert Waiting(w.core) == book.Keys;
  }

  lemma BeginLedger<T>(t: Topology, rs: seq<Request>, cache: Cache.State, transfer: T)
    requires ED.Servable(t, rs) && UniqueIds(rs) && AllPrompts(Book(rs)) <= MAX64
    ensures InLedger(Begin(t, rs, cache, transfer), {}, Book(rs))
  {
    hide CL.Steady, Accounted, ED.Servable, AllPrompts, Loaded, Book, Arriving, Fetching, Marked, Books, Ledger,
      UniqueIds;
    var w := Begin(t, rs, cache, transfer);
    CL.LoadedSteady(t, rs);
    LoadedArriving(t, rs);
    LoadedMarked(t, rs);
    AtBeginning(w, Book(rs));
    BooksLedger(w, {}, Book(rs));
  }

  /** What the counters say in a state in which the hits of `credited` have been credited. */
  ghost predicate CountsAddUp<T>(w: World<T>, credited: set<u64>, rs: seq<Request>) {
    var k, pending := w.counters, w.core.sim.pending;
    && k.Hits() == |credited|
    && k.Hits() + k.misses + k.pendingFetches == |rs| - |Arriving(pending)|
    && k.pendingFetches == |Fetching(pending)|
    && k.fetchErrors <= k.misses
  }

  /** Hits, misses and tokens at the end of a run. */
  ghost predicate FinalCounts<T>(w: World<T>, credited: set<u64>, rs: seq<Request>) {
    && w.counters.pendingFetches == 0 && w.counters.Hits() + w.counters.misses == |rs|
    && w.counters.recomputedTokens + SumBy(credited, ReusedOf(Book(rs))) == AllPrompts(Book(rs))
  }

  lemma LedgerCounts<T>(w: World<T>, credited: set<u64>, rs: seq<Request>)
    requires UniqueIds(rs) && InLedger(w, credited, Book(rs))
    ensures CountsAddUp(w, credited, rs)
  {
    BookSize(rs);
    assert |Book(rs).Keys| == |Book(rs)|;
    hide UniqueIds, AllPrompts, Book, CL.Steady, Accounted, Marked, OfBook, Arriving, Fetching, SumBy, TokensKept;
  }

  lemma LedgerEnd<T>(w: World<T>, credited: set<u64>, rs: seq<Request>)
    requires CountsAddUp(w, credited, rs) && TokensKept(w, credited, Book(rs)) && w.core.sim.pending == {}
    ensures FinalCounts(w, credited, rs)
  {
    hide Book, AllPrompts, PromptOf, ReusedOf;
    assert Arriving(w.core.sim.pending) == {} && Fetching(w.core.sim.pending) == {};
    assert Waiting(w.core) == {};
    SumNothing(PromptOf(Book(rs)));
  }

  /** The ledger: after every event, hits, misses and pending fetches add up to the arrivals handled so far; the
      pending fetches are the fetch events, and exactly the requests waiting for one carry a tier; no request is
      credited twice; errors are misses. With nothing pending any more, no fetch is, and every token of the trace has
      been recomputed or was covered by a credited hit. */
  lemma HitLedger<T(!new)>(t: Topology, rs: seq<Request>, x: Setup<T>, cache: Cache.State, transfer: T,
                           worlds: seq<World<T>>, events: seq<Ev>, n: nat)
    requires ED.Servable(t, rs) && UniqueIds(rs) && AllPrompts(Book(rs)) <= MAX64
    requires IsTrace(Turns(x), worlds, events) && worlds[0] == Begin(t, rs, cache, transfer) && n <= |events|
    ensures CountsAddUp(worlds[n], Credited(worlds, events, n), rs) && Marked(worlds[n].core)
    ensures worlds[n].core.sim.pending == {} ==> FinalCounts(worlds[n], Credited(worlds, events, n), rs)
  {
    hide Turns, ED.Servable, AllPrompts, Begin, Book, InLedger, Credited, UniqueIds, CountsAddUp, FinalCounts,
      TokensKept, Marked;
    BeginLedger(t, rs, cache, transfer);
    RunLedger(x, worlds, events, n, Book(rs));
    LedgerCounts(worlds[n], Credited(worlds, events, n), rs);
    LedgerTokens(worlds[n], Credited(worlds, events, n), Book(rs));
    LedgerMarks(worlds[n], Credited(worlds, events, n), Book(rs));
    if worlds[n].core.sim.pending == {} {
      LedgerEnd(worlds[n], Credited(worlds, events, n), rs);
    }
  }

  lemma LedgerMarks<T>(w: World<T>, credited: set<u64>, book: map<u64, Request>)
    requires InLedger(w, credited, book)
    ensures Marked(w.core)
  {
    hide TokensKept, CL.Steady, Accounted, Balanced, Marked;
  }

  lemma LedgerTokens<T>(w: World<T>, credited: set<u64>, book: map<u64, Request>)
    requires InLedger(w, credited, book)
    ensures TokensKept(w, credited, book)
  {
    hide TokensKept, CL.Steady, Accounted, Balanced, Marked;
  }
}
