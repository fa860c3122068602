/** The closed form of what the event-driven runner computes on GPUs that serve one role each: prefills as in the
    baseline, in order of arrival, and decodes in the order in which the prefills end. */
module TwoStage {
  import opened Numbers
  import opened Requests
  import opened Fcfs
  import NR = NoReuse

  /** The decode of a prefilled request on the worker that is free first. */
  function DecodeOn(m: Engine, ws: seq<u64>, o: RequestResult): RequestResult
    requires ws != []
  {
    var start := Later(o.prefillDone, NR.FreeAt(ws));
    var step := m.StepFor(o.promptTokens);
    o.(decodeStart := start, firstToken := SatAdd(start, step),
       finish := SatAdd(start, SatMul(step, o.outputTokens)))
  }

  /** Compute model, workers before the trace, the trace in order of arrival, and the line for decode: `line[k]` is the
      request whose prefill ends `k`-th, `place[i]` where request `i` stands in it. */
  datatype Plan = Plan(m: Engine, w: NR.Workers, rs: seq<Request>, line: seq<nat>, place: seq<nat>)
  {
    ghost predicate Fits() {
      && w.Valid() && |line| == |rs| && |place| == |rs|
      && (forall k | 0 <= k < |line| :: line[k] < |rs| && place[line[k]] == k)
      && (forall i | 0 <= i < |place| :: place[i] < |rs| && line[place[i]] == i)
    }

    /** The first stage of request `i`; its decode fields are the baseline's. */
    function Front(i: nat): RequestResult
      requires w.Valid() && i < |rs|
    {
      NR.Outcome(m, w, rs, i)
    }

    /** Prefill workers met by request `i`. */
    function Fore(i: nat): (r: seq<u64>)
      requires w.Valid() && i <= |rs|
      ensures r != [] && |r| == |w.prefill|
    {
      NR.Met(m, w, rs, i).prefill
    }

    /** Decode workers met by the `k`-th of the line. */
    function Pool(k: nat): (r: seq<u64>)
      requires Fits() && k <= |rs|
      ensures r != []
    {
      if k == 0 then w.decode
      else NR.Claim(Pool(k - 1), DecodeOn(m, Pool(k - 1), Front(line[k-1])).finish)
    }

    /** The timestamps of the `k`-th of the line. */
    function Back(k: nat): RequestResult
      requires Fits() && k < |rs|
    {
      DecodeOn(m, Pool(k), Front(line[k]))
    }

    /** The timestamps of request `i`. */
    function At(i: nat): RequestResult
      requires Fits() && i < |rs|
    {
      Back(place[i])
    }

    /** The results of the whole trace, in order of arrival. */
    function Results(): (r: seq<RequestResult>)
      requires Fits()
      ensures |r| == |rs| && forall i | 0 <= i < |rs| :: r[i] == At(i)
    {
      seq(|rs|, i requires 0 <= i < |rs| => At(i))
    }

    /** The prefill of request `i` ends before that of `j`; with equal ends, the one that started first. */
    ghost predicate EndsFirst(i: nat, j: nat)
      requires w.Valid() && i < |rs| && j < |rs|
    {
      || Front(i).prefillDone < Front(j).prefillDone
      || (Front(i).prefillDone == Front(j).prefillDone && i < j)
    }

    ghost predicate Valid() {
      Fits() && Trace(rs) && forall k, l | 0 <= k < l < |rs| :: EndsFirst(line[k], line[l])
    }

    /** No end of a prefill coincides with an arrival or with the end of any other task, and no two decodes end at once.
        A decode may end at the moment of an arrival. */
    ghost predicate NoTies()
      requires Fits()
    {
      && (forall i, j | 0 <= i < |rs| && 0 <= j < |rs| :: rs[i].arrival != Front(j).prefillDone)
      && (forall i, k | 0 <= i < |rs| && 0 <= k < |rs| :: Front(i).prefillDone != Back(k).finish)
      && (forall i, j | 0 <= i < j < |rs| :: Front(i).prefillDone != Front(j).prefillDone)
      && (forall k, l | 0 <= k < l < |rs| :: Back(k).finish != Back(l).finish)
    }

    ghost predicate Clean() { Valid() && NoTies() }

    /** No request arrives at the moment a decode ends. */
    ghost predicate ArrivalsApart()
      requires Fits()
    {
      forall i, k | 0 <= i < |rs| && 0 <= k < |rs| :: rs[i].arrival != Back(k).finish
    }

    /** The requests in the order in which their prefills end. */
    function ByEnd(): (r: seq<Request>)
      requires Fits()
      ensures |r| == |rs| && forall k | 0 <= k < |rs| :: r[k] == rs[line[k]]
    {
      seq(|rs|, k requires 0 <= k < |rs| => rs[line[k]])
    }

    /** The first `q` of the line are among the first `p` requests. */
    ghost predicate Covers(p: nat, q: nat)
      requires Fits() && q <= |rs|
    {
      forall k | 0 <= k < q :: line[k] < p
    }

    /** Every decode starts at the same moment whether decodes are served in the order of the line or, as in the
        baseline, in order of arrival. */
    ghost predicate SameStarts()
      requires Fits()
    {
      forall i | 0 <= i < |rs| :: At(i).decodeStart == Front(i).decodeStart
    }

    /** Prefills end in order of arrival. */
    ghost predicate InStep()
      requires w.Valid()
    {
      forall i, j | 0 <= i < j < |rs| :: Front(i).prefillDone <= Front(j).prefillDone
    }
  }

  lemma ForeNext(x: Plan, i: nat)
    requires x.w.Valid() && i < |x.rs|
    ensures x.Fore(i + 1) == NR.Claim(x.Fore(i), x.Front(i).prefillDone)
    ensures x.Front(i).prefillStart == Later(x.rs[i].arrival, NR.FreeAt(x.Fore(i)))
    ensures x.Front(i).prefillDone == SatAdd(x.Front(i).prefillStart, x.m.prefillTime(x.rs[i].promptTokens))
    ensures x.Front(i).Answers(x.rs[i])
  {
    NR.MetStep(x.m, x.w, x.rs, i);
  }

  lemma PoolNext(x: Plan, k: nat)
    requires x.Fits() && k < |x.rs|
    ensures x.Pool(k + 1) == NR.Claim(x.Pool(k), x.Back(k).finish)
    ensures var o, r := x.Back(k), x.rs[x.line[k]];
            && o.decodeStart == Later(x.Front(x.line[k]).prefillDone, NR.FreeAt(x.Pool(k)))
            && o.firstToken == SatAdd(o.decodeStart, x.m.StepFor(r.promptTokens))
            && o.finish == SatAdd(o.decodeStart, SatMul(x.m.StepFor(r.promptTokens), r.outputTokens))
            && o.prefillStart == x.Front(x.line[k]).prefillStart && o.prefillDone == x.Front(x.line[k]).prefillDone
            && o.Answers(r)
  {
    hide NR.Claim, NR.FreeAt;
    ForeNext(x, x.line[k]);
    hide NR.Outcome, NR.Met;
  }

  /** Both closed forms agree on a request as soon as they start its decode at the same moment. */
  lemma SameStartSameResult(x: Plan, i: nat)
    requires x.Fits() && i < |x.rs|
    ensures x.At(i) == x.Front(i) <==> x.At(i).decodeStart == x.Front(i).decodeStart
  {
    var f := x.Front(i);
    assert x.line[x.place[i]] == i;
    assert f.firstToken == SatAdd(f.decodeStart, x.m.StepFor(f.promptTokens))
        && f.finish == SatAdd(f.decodeStart, SatMul(x.m.StepFor(f.promptTokens), f.outputTokens));
    hide NR.Outcome, NR.Met, NR.FreeAt;
  }

  lemma FrontIsBaseline(x: Plan, i: nat)
    requires x.w.Valid() && i < |x.rs|
    ensures NR.ServeAll(x.m, x.w, x.rs)[i] == x.Front(i)
  {
    NR.ServedAt(x.m, x.w, x.rs, |x.rs|, i);
  }

  /** The two closed forms give the same results if and only if they start every decode at the same moment. */
  lemma SameResultsIffSameStarts(x: Plan)
    requires x.Fits()
    ensures x.Results() == NR.ServeAll(x.m, x.w, x.rs) <==> x.SameStarts()
  {
    hide Plan.At, Plan.Front, NR.ServeAll;
    forall i | 0 <= i < |x.rs|
      ensures x.Results()[i] == NR.ServeAll(x.m, x.w, x.rs)[i] <==> x.At(i).decodeStart == x.Front(i).decodeStart
    {
      SameStartSameResult(x, i);
      FrontIsBaseline(x, i);
    }
    if x.SameStarts() {
      assert forall i | 0 <= i < |x.rs| :: x.Results()[i] == NR.ServeAll(x.m, x.w, x.rs)[i];
    }
  }

  // ---- computing the line ----

  function Indices(n: nat): (r: seq<nat>)
    ensures |r| == n && forall i | 0 <= i < n :: r[i] == i
  {
    seq<nat>(n, i => i)
  }

  /** End of prefill, then position. */
  function EndKey(m: Engine, w: NR.Workers, rs: seq<Request>): nat -> Key {
    (i: nat) => if w.prefill != [] && w.decode != [] && i < |rs| then (NR.Outcome(m, w, rs, i).prefillDone, Cap(i)) else (0, 0)
  }

  function LineOf(m: Engine, w: NR.Workers, rs: seq<Request>): seq<nat> {
    SortBy(Indices(|rs|), EndKey(m, w, rs))
  }

  /** First position of `i`; the length when there is none. */
  function IndexOf(line: seq<nat>, i: nat): (k: nat)
    ensures k <= |line| && (k < |line| ==> line[k] == i) && (i in line ==> k < |line|)
  {
    if line == [] then 0 else if line[0] == i then 0 else 1 + IndexOf(line[1..], i)
  }

  function PlacesOf(line: seq<nat>): (r: seq<nat>)
    ensures |r| == |line| && forall i | 0 <= i < |r| :: r[i] == IndexOf(line, i)
  {
    seq(|line|, i requires 0 <= i < |line| => IndexOf(line, i))
  }

  /** The plan of a trace, computed from the workers and the trace alone. */
  function PlanOf(m: Engine, w: NR.Workers, rs: seq<Request>): Plan {
    var line := LineOf(m, w, rs);
    Plan(m, w, rs, line, PlacesOf(line))
  }

  predicate DistinctElements<T(==)>(a: seq<T>) {
    forall i, j | 0 <= i < j < |a| :: a[i] != a[j]
  }

  lemma {:induction false} AtMostOnce<T>(a: seq<T>, x: T)
    requires DistinctElements(a)
    ensures multiset(a)[x] <= 1
  {
    if a != [] {
      var n := |a| - 1;
      assert a == a[..n] + [a[n]];
      AtMostOnce(a[..n], x);
      if x == a[n] {
        assert x !in a[..n];
      }
    }
  }

  lemma TwiceIsTwo<T>(a: seq<T>, k: nat, l: nat)
    requires k < l < |a| && a[k] == a[l]
    ensures multiset(a)[a[k]] >= 2
  {
    assert a == a[..l] + [a[l]] + a[l+1..];
    assert a[..l][k] in a[..l];
  }

  /** A rearrangement of the indices is a permutation. */
  lemma LineIsPermutation(n: nat, line: seq<nat>)
    requires multiset(line) == multiset(Indices(n)) && |line| == n
    ensures DistinctElements(line) && forall i | 0 <= i < n :: line[i] < n && i in line
  {
    forall k, l | 0 <= k < l < n ensures line[k] != line[l] {
      AtMostOnce(Indices(n), line[k]);
      if line[k] == line[l] { TwiceIsTwo(line, k, l); }
    }
    forall i | 0 <= i < n ensures line[i] < n && i in line {
      assert line[i] in multiset(line) && line[i] in Indices(n);
      assert Indices(n)[i] in multiset(Indices(n)) && i in multiset(line);
    }
  }

  lemma PlacesInvert(line: seq<nat>)
    requires DistinctElements(line) && forall i | 0 <= i < |line| :: line[i] < |line| && i in line
    ensures forall i | 0 <= i < |line| :: PlacesOf(line)[i] < |line| && line[PlacesOf(line)[i]] == i
    ensures forall k | 0 <= k < |line| :: PlacesOf(line)[line[k]] == k
  {
    forall k | 0 <= k < |line| ensures IndexOf(line, line[k]) == k {
      assert line[k] in line;
    }
  }

  lemma PlanOfFits(m: Engine, w: NR.Workers, rs: seq<Request>)
    requires w.Valid()
    ensures PlanOf(m, w, rs).Fits()
  {
    hide SortBy, Indices, PlacesOf, EndKey;
    LineIsPermutation(|rs|, LineOf(m, w, rs));
    PlacesInvert(LineOf(m, w, rs));
  }

  lemma PlanOfValid(m: Engine, w: NR.Workers, rs: seq<Request>)
    requires w.Valid() && Trace(rs)
    ensures PlanOf(m, w, rs).Valid()
  {
    var x := PlanOf(m, w, rs);
    PlanOfFits(m, w, rs);
    SortSorts(Indices(|rs|), EndKey(m, w, rs));
    hide NR.Outcome, SortBy, Indices;
    forall k, l | 0 <= k < l < |rs| ensures x.EndsFirst(x.line[k], x.line[l]) {
      assert KeyLeq(EndKey(m, w, rs)(x.line[k]), EndKey(m, w, rs)(x.line[l]));
      assert x.line[k] != x.line[l] by { assert x.place[x.line[k]] == k && x.place[x.line[l]] == l; }
    }
  }

  // ---- prefills that end in order ----

  lemma LineGrows(x: Plan, k: nat, l: nat)
    requires x.Valid() && x.InStep() && k < l < |x.rs|
    ensures x.line[k] < x.line[l]
  {
    hide Plan.Front, Trace;
    assert x.EndsFirst(x.line[k], x.line[l]);
    assert x.line[k] != x.line[l] by { assert x.place[x.line[k]] == k && x.place[x.line[l]] == l; }
  }

  lemma {:induction false} LineAtLeast(x: Plan, k: nat)
    requires x.Valid() && x.InStep() && k < |x.rs|
    ensures k <= x.line[k]
  {
    hide Plan.InStep, Plan.Front, Trace;
    if k > 0 {
      LineAtLeast(x, k - 1);
      LineGrows(x, k - 1, k);
    }
  }

  lemma {:induction false} LineAtMost(x: Plan, k: nat)
    requires x.Valid() && x.InStep() && k < |x.rs|
    ensures x.line[k] <= k
    decreases |x.rs| - k
  {
    hide Plan.InStep, Plan.Front, Trace;
    if k + 1 < |x.rs| {
      LineAtMost(x, k + 1);
      LineGrows(x, k, k + 1);
    }
  }

  lemma MetFirst(x: Plan)
    requires x.Valid()
    ensures NR.Met(x.m, x.w, x.rs, 0) == x.w && x.Pool(0) == x.w.decode
  {}

  lemma MetDecodeNext(x: Plan, k: nat)
    requires x.w.Valid() && k < |x.rs|
    ensures NR.Met(x.m, x.w, x.rs, k + 1).decode == NR.Claim(NR.Met(x.m, x.w, x.rs, k).decode, x.Front(k).finish)
  {
    NR.MetStep(x.m, x.w, x.rs, k);
  }

  lemma {:induction false} PoolInStep(x: Plan, k: nat)
    requires x.Valid() && x.InStep() && k <= |x.rs|
    ensures x.Pool(k) == NR.Met(x.m, x.w, x.rs, k).decode
    decreases k, 0
  {
    hide Plan.Front, Plan.Back, Plan.InStep, Plan.EndsFirst, Trace, NR.Met, NR.Claim;
    hide Plan.Pool;
    MetFirst(x);
    if k > 0 {
      PoolInStep(x, k - 1);
      BackInStep(x, k - 1);
      MetDecodeNext(x, k - 1);
      PoolNext(x, k - 1);
    }
  }

  lemma {:induction false} BackInStep(x: Plan, k: nat)
    requires x.Valid() && x.InStep() && k < |x.rs|
    ensures x.line[k] == k && x.Back(k) == x.Front(k)
    decreases k, 1
  {
    PoolInStep(x, k);
    LineAtLeast(x, k);
    LineAtMost(x, k);
  }

  /** When prefills end in order of arrival, the two closed forms are the same. */
  lemma InStepSameStarts(x: Plan)
    requires x.Valid() && x.InStep()
    ensures x.SameStarts() && forall k | 0 <= k < |x.rs| :: x.Back(k) == x.Front(k)
  {
    hide Plan.Front, Plan.Back, Plan.InStep, Trace;
    forall k | 0 <= k < |x.rs| ensures x.Back(k) == x.Front(k) && x.line[k] == k {
      BackInStep(x, k);
    }
    forall i | 0 <= i < |x.rs| ensures x.At(i) == x.Front(i) {
      assert x.place[x.line[i]] == i && x.line[i] == i;
    }
  }
}
