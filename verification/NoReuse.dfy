/** The closed-form baseline: every request is prefilled and decoded on the worker that is free first
    (src/serving/runner.rs), and the absence of scheduling anomalies in it. */
module NoReuse {
  import opened Numbers
  import opened Requests

  /** Release times of the prefill and the decode workers. */
  datatype Workers = Workers(prefill: seq<u64>, decode: seq<u64>)
  {
    ghost predicate Valid() { prefill != [] && decode != [] }
  }

  function Fresh(n: nat): (r: seq<u64>) {
    seq(n, _ => 0)
  }

  /** `earliest_worker`: first position of the least release time. */
  function EarliestWorker(ws: seq<u64>): (i: nat)
    ensures ws != [] ==> i < |ws|
    ensures forall j | 0 <= j < |ws| :: ws[i] <= ws[j]
    ensures forall j | 0 <= j < i && j < |ws| :: ws[i] < ws[j]
  {
    if |ws| <= 1 then 0
    else
      var last := |ws| - 1;
      var best := EarliestWorker(ws[..last]);
      if ws[last] < ws[best] then last else best
  }

  function Claim(ws: seq<u64>, until: u64): seq<u64>
    requires ws != []
  {
    ws[EarliestWorker(ws) := until]
  }

  function FreeAt(ws: seq<u64>): u64
    requires ws != []
  {
    ws[EarliestWorker(ws)]
  }

  /** Timestamps of one request given the release times it meets. */
  function ServeOne(m: Engine, w: Workers, r: Request): RequestResult
    requires w.Valid()
  {
    var prefillStart := Later(r.arrival, FreeAt(w.prefill));
    var prefillDone := SatAdd(prefillStart, m.prefillTime(r.promptTokens));
    var decodeStart := Later(prefillDone, FreeAt(w.decode));
    var step := m.StepFor(r.promptTokens);
    RequestResult(r.id, r.session, r.turn, r.arrival,
      prefillStart, prefillDone, decodeStart, SatAdd(decodeStart, step),
      SatAdd(decodeStart, SatMul(step, r.outputTokens)), r.promptTokens, r.outputTokens)
  }

  function Occupy(w: Workers, o: RequestResult): (w': Workers)
    requires w.Valid()
    ensures w'.Valid() && |w'.prefill| == |w.prefill| && |w'.decode| == |w.decode|
  {
    Workers(Claim(w.prefill, o.prefillDone), Claim(w.decode, o.finish))
  }

  /** Workers met by request `i` of the served order `rs`. */
  function Met(m: Engine, w: Workers, rs: seq<Request>, i: nat): (w': Workers)
    requires w.Valid() && i <= |rs|
    ensures w'.Valid() && |w'.prefill| == |w.prefill| && |w'.decode| == |w.decode|
  {
    if i == 0 then w
    else
      var before := Met(m, w, rs, i - 1);
      Occupy(before, ServeOne(m, before, rs[i-1]))
  }

  lemma MetStep(m: Engine, w: Workers, rs: seq<Request>, i: nat)
    requires w.Valid() && i < |rs|
    ensures Met(m, w, rs, i + 1) == Occupy(Met(m, w, rs, i), Outcome(m, w, rs, i))
  {}

  function Outcome(m: Engine, w: Workers, rs: seq<Request>, i: nat): RequestResult
    requires w.Valid() && i < |rs|
  {
    ServeOne(m, Met(m, w, rs, i), rs[i])
  }

  /** Results of the first `n` requests of a trace that is already in serving order. */
  function Served(m: Engine, w: Workers, rs: seq<Request>, n: nat): (r: seq<RequestResult>)
    requires w.Valid() && n <= |rs|
    ensures |r| == n
  {
    if n == 0 then [] else Served(m, w, rs, n - 1) + [Outcome(m, w, rs, n - 1)]
  }

  function ServeAll(m: Engine, w: Workers, rs: seq<Request>): (r: seq<RequestResult>)
    requires w.Valid()
    ensures |r| == |rs|
  {
    Served(m, w, rs, |rs|)
  }

  lemma {:induction false} ServedAt(m: Engine, w: Workers, rs: seq<Request>, n: nat, i: nat)
    requires w.Valid() && i < n <= |rs|
    ensures Served(m, w, rs, n)[i] == Outcome(m, w, rs, i)
  {
    hide Outcome;
    if i < n - 1 { ServedAt(m, w, rs, n - 1, i); }
  }

  /** `NoReuseRunner`; the release times survive from one `Run` to the next. */
  class NoReuseRunner {
    const engine: Engine
    const prefillBusy: array<u64>
    const decodeBusy: array<u64>

    ghost predicate Valid()
      reads this
    {
      prefillBusy != decodeBusy && prefillBusy.Length > 0 && decodeBusy.Length > 0
    }

    ghost function State(): (w: Workers)
      reads this, prefillBusy, decodeBusy
      requires Valid()
      ensures w.Valid()
    {
      Workers(prefillBusy[..], decodeBusy[..])
    }

    /** Worker counts of zero are raised to one. */
    constructor (engine: Engine, prefillWorkers: nat, decodeWorkers: nat)
      ensures Valid() && fresh(prefillBusy) && fresh(decodeBusy) && this.engine == engine
      ensures State() == Workers(Fresh(Max(prefillWorkers, 1)), Fresh(Max(decodeWorkers, 1)))
    {
      this.engine := engine;
      prefillBusy := new u64[Max(prefillWorkers, 1)](_ => 0);
      decodeBusy := new u64[Max(decodeWorkers, 1)](_ => 0);
    }

    method RunOne(r: Request) returns (o: RequestResult)
      requires Valid()
      modifies prefillBusy, decodeBusy
      ensures o == ServeOne(engine, old(State()), r)
      ensures State() == Occupy(old(State()), o)
    {
      var p := EarliestWorker(prefillBusy[..]);
      var prefillStart := Later(r.arrival, prefillBusy[p]);
      var prefillDone := SatAdd(prefillStart, engine.prefillTime(r.promptTokens));
      prefillBusy[p] := prefillDone;

      var d := EarliestWorker(decodeBusy[..]);
      var decodeStart := Later(prefillDone, decodeBusy[d]);
      var step := engine.decodeStep(engine.batch, r.promptTokens);
      var firstToken := SatAdd(decodeStart, step);
      var finish := SatAdd(decodeStart, SatMul(step, r.outputTokens));
      decodeBusy[d] := finish;

      o := RequestResult(r.id, r.session, r.turn, r.arrival, prefillStart, prefillDone, decodeStart,
        firstToken, finish, r.promptTokens, r.outputTokens);
    }

    method RunInOrder(sorted: seq<Request>) returns (results: seq<RequestResult>)
      requires Valid()
      modifies prefillBusy, decodeBusy
      ensures results == ServeAll(engine, old(State()), sorted)
      ensures State() == Met(engine, old(State()), sorted, |sorted|)
    {
      ghost var start := State();
      results := [];
      var i := 0;
      while i < |sorted|
        invariant i <= |sorted|
        invariant State() == Met(engine, start, sorted, i)
        invariant results == Served(engine, start, sorted, i)
      {
        ghost var met := State();
        var o := RunOne(sorted[i]);
        MetStep(engine, start, sorted, i);
        assert met == Met(engine, start, sorted, i);
        results := results + [o];
        i := i + 1;
      }
    }

    /** Serves a trace in order of (arrival, id). */
    method Run(requests: seq<Request>) returns (results: seq<RequestResult>)
      requires Valid()
      modifies prefillBusy, decodeBusy
      ensures results == ServeAll(engine, old(State()), SortBy(requests, RequestKey))
      ensures State() == Met(engine, old(State()), SortBy(requests, RequestKey), |requests|)
    {
      results := RunInOrder(SortBy(requests, RequestKey));
    }
  }

  // ---- counting released workers ----

  /** How many workers are released by `limit`. */
  function FreeBy(ws: seq<u64>, limit: nat): nat {
    if ws == [] then 0 else FreeBy(ws[1..], limit) + if ws[0] <= limit then 1 else 0
  }

  function One(x: u64, limit: nat): nat {
    if x <= limit then 1 else 0
  }

  lemma {:induction false} FreeByUpdate(ws: seq<u64>, i: nat, x: u64, limit: nat)
    requires i < |ws|
    ensures FreeBy(ws[i := x], limit) == FreeBy(ws, limit) - One(ws[i], limit) + One(x, limit)
    ensures FreeBy(ws, limit) >= One(ws[i], limit)
  {
    var r := ws[i := x];
    if i == 0 {
      assert r[1..] == ws[1..];
    } else {
      assert r[1..] == ws[1..][i-1 := x];
      FreeByUpdate(ws[1..], i - 1, x, limit);
    }
  }

  lemma {:induction false} FreeByZero(ws: seq<u64>, limit: nat)
    requires forall i | 0 <= i < |ws| :: limit < ws[i]
    ensures FreeBy(ws, limit) == 0
  {
    if ws != [] { FreeByZero(ws[1..], limit); }
  }

  /** The least release time is where the count leaves zero. */
  lemma FreeAtIsFirst(ws: seq<u64>, limit: nat)
    requires ws != []
    ensures FreeBy(ws, limit) == 0 <==> limit < FreeAt(ws)
  {
    var i := EarliestWorker(ws);
    if limit < ws[i] {
      FreeByZero(ws, limit);
    } else {
      FreeByUpdate(ws, i, 0, limit);
    }
  }

  lemma ClaimCount(ws: seq<u64>, until: u64, limit: nat)
    requires ws != []
    ensures FreeBy(Claim(ws, until), limit) == FreeBy(ws, limit) - One(FreeAt(ws), limit) + One(until, limit)
  {
    FreeByUpdate(ws, EarliestWorker(ws), until, limit);
  }

  /** `v` has, at every moment, released at least as many workers as `u`. */
  ghost predicate Dominates(v: seq<u64>, u: seq<u64>) {
    forall limit: nat :: FreeBy(v, limit) >= FreeBy(u, limit)
  }

  lemma DominatesFreeAt(v: seq<u64>, u: seq<u64>)
    requires v != [] && u != [] && Dominates(v, u)
    ensures FreeAt(v) <= FreeAt(u)
  {
    FreeAtIsFirst(u, FreeAt(u));
    FreeAtIsFirst(v, FreeAt(u));
  }

  /** Replacing the first release by a later one on both sides keeps the better side better. */
  lemma DominatesClaim(v: seq<u64>, u: seq<u64>, y: u64, x: u64)
    requires v != [] && u != [] && Dominates(v, u)
    requires y <= x && FreeAt(u) <= x && FreeAt(v) <= y
    ensures Dominates(Claim(v, y), Claim(u, x))
  {
    forall limit: nat ensures FreeBy(Claim(v, y), limit) >= FreeBy(Claim(u, x), limit) {
      ClaimCount(v, y, limit);
      ClaimCount(u, x, limit);
      FreeAtIsFirst(v, limit);
      FreeAtIsFirst(u, limit);
      assert FreeBy(v, limit) >= FreeBy(u, limit);
    }
  }

  lemma {:induction false} FreshCount(n: nat, limit: nat)
    ensures FreeBy(Fresh(n), limit) == n
  {
    if n > 0 {
      assert Fresh(n)[1..] == Fresh(n - 1);
      FreshCount(n - 1, limit);
    }
  }

  lemma MoreWorkersDominate(n: nat, k: nat)
    requires n <= k
    ensures Dominates(Fresh(k), Fresh(n))
  {
    forall limit: nat ensures FreeBy(Fresh(k), limit) >= FreeBy(Fresh(n), limit) {
      FreshCount(k, limit);
      FreshCount(n, limit);
    }
  }

  // ---- no scheduling anomaly ----

  /** Request by request, the second load arrives no later and is no more work than the first. */
  ghost predicate Lighter(m: Engine, rs: seq<Request>, m': Engine, rs': seq<Request>) {
    && |rs'| == |rs|
    && forall i | 0 <= i < |rs| ::
         && rs'[i].arrival <= rs[i].arrival
         && m'.prefillTime(rs'[i].promptTokens) <= m.prefillTime(rs[i].promptTokens)
         && m'.StepFor(rs'[i].promptTokens) <= m.StepFor(rs[i].promptTokens)
         && rs'[i].outputTokens <= rs[i].outputTokens
  }

  ghost predicate NoLater(a: RequestResult, b: RequestResult) {
    && a.prefillStart <= b.prefillStart && a.prefillDone <= b.prefillDone
    && a.decodeStart <= b.decodeStart && a.firstToken <= b.firstToken && a.finish <= b.finish
  }

  lemma ServeOneMonotone(m: Engine, w: Workers, r: Request, m': Engine, w': Workers, r': Request)
    requires w.Valid() && w'.Valid() && Dominates(w'.prefill, w.prefill) && Dominates(w'.decode, w.decode)
    requires Lighter(m, [r], m', [r'])
    ensures var o, o' := ServeOne(m, w, r), ServeOne(m', w', r');
            && NoLater(o', o)
            && Dominates(Occupy(w', o').prefill, Occupy(w, o).prefill)
            && Dominates(Occupy(w', o').decode, Occupy(w, o).decode)
  {
    var o, o' := ServeOne(m, w, r), ServeOne(m', w', r');
    assert [r][0] == r && [r'][0] == r';
    DominatesFreeAt(w'.prefill, w.prefill);
    DominatesFreeAt(w'.decode, w.decode);
    SatMulMonotone(m'.StepFor(r'.promptTokens), r'.outputTokens, m.StepFor(r.promptTokens), r.outputTokens);
    DominatesClaim(w'.prefill, w.prefill, o'.prefillDone, o.prefillDone);
    DominatesClaim(w'.decode, w.decode, o'.finish, o.finish);
  }

  lemma {:induction false} MetDominates(m: Engine, w: Workers, rs: seq<Request>, m': Engine, w': Workers,
                                        rs': seq<Request>, i: nat)
    requires w.Valid() && w'.Valid() && Dominates(w'.prefill, w.prefill) && Dominates(w'.decode, w.decode)
    requires Lighter(m, rs, m', rs') && i <= |rs|
    ensures Dominates(Met(m', w', rs', i).prefill, Met(m, w, rs, i).prefill)
    ensures Dominates(Met(m', w', rs', i).decode, Met(m, w, rs, i).decode)
  {
    hide ServeOne, Dominates, Occupy;
    if i > 0 {
      MetDominates(m, w, rs, m', w', rs', i - 1);
      ServeOneMonotone(m, Met(m, w, rs, i-1), rs[i-1], m', Met(m', w', rs', i-1), rs'[i-1]);
    }
  }

  /** No anomaly: earlier arrivals in the same order, shorter prefills and decodes, fewer output tokens and more
      workers of either kind, in any combination, never delay any timestamp of any request. */
  lemma NoAnomaly(m: Engine, p: nat, d: nat, rs: seq<Request>, m': Engine, p': nat, d': nat, rs': seq<Request>, i: nat)
    requires 1 <= p <= p' && 1 <= d <= d'
    requires Lighter(m, rs, m', rs') && i < |rs|
    ensures NoLater(ServeAll(m', Workers(Fresh(p'), Fresh(d')), rs')[i], ServeAll(m, Workers(Fresh(p), Fresh(d)), rs)[i])
  {
    var w, w' := Workers(Fresh(p), Fresh(d)), Workers(Fresh(p'), Fresh(d'));
    MoreWorkersDominate(p, p');
    MoreWorkersDominate(d, d');
    MetDominates(m, w, rs, m', w', rs', i);
    ServedAt(m, w, rs, |rs|, i);
    ServedAt(m', w', rs', |rs'|, i);
    ServeOneMonotone(m, Met(m, w, rs, i), rs[i], m', Met(m', w', rs', i), rs'[i]);
  }

  /** Every result of the baseline runs through its stages in order. */
  lemma BaselineInOrder(m: Engine, w: Workers, rs: seq<Request>, i: nat)
    requires w.Valid() && i < |rs|
    ensures ServeAll(m, w, rs)[i].InOrder() && ServeAll(m, w, rs)[i].Answers(rs[i])
  {
    ServedAt(m, w, rs, |rs|, i);
    if rs[i].outputTokens >= 1 {
      SatMulAtLeast(m.StepFor(rs[i].promptTokens), rs[i].outputTokens);
    }
  }
}
