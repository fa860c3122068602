/** Requests, per-request results and the order in which a trace is served (src/trace/request.rs,
    src/serving/runner.rs). */
module Requests {
  import opened Numbers

  datatype Request = Request(
    id: u64, session: u64, turn: u32, arrival: u64,
    promptTokens: u32, newPromptTokens: u32, outputTokens: u32)
  {
    /** `reused_prefix_tokens`: how long a stored prefix this turn could reuse. */
    function ReusedTokens(): u32 {
      SatSub(promptTokens, newPromptTokens)
    }
  }

  datatype RequestResult = RequestResult(
    id: u64, session: u64, turn: u32, arrival: u64,
    prefillStart: u64, prefillDone: u64, decodeStart: u64, firstToken: u64, finish: u64,
    promptTokens: u32, outputTokens: u32)
  {
    function Ttft(): u64 { SatSub(firstToken, arrival) }

    function Jct(): u64 { SatSub(finish, arrival) }

    function MeanTbt(): u64 {
      if outputTokens <= 1 then 0 else SatSub(finish, firstToken) / (outputTokens - 1)
    }

    /** The lifecycle in order; the first token can only be later than the finish when nothing is decoded. */
    predicate InOrder() {
      && arrival <= prefillStart <= prefillDone <= decodeStart <= firstToken
      && decodeStart <= finish
      && (outputTokens >= 1 ==> firstToken <= finish)
    }

    predicate Answers(r: Request) {
      && id == r.id && session == r.session && turn == r.turn && arrival == r.arrival
      && promptTokens == r.promptTokens && outputTokens == r.outputTokens
    }
  }

  /** What the metrics promise of an ordered result: the job takes at least as long as its first token, and the mean
      token gap fits the decode phase. */
  lemma MetricsOfOrdered(r: RequestResult)
    requires r.InOrder() && r.outputTokens >= 1
    ensures r.Ttft() <= r.Jct()
    ensures r.Ttft() + (r.outputTokens - 1) * r.MeanTbt() <= r.Jct()
  {
    if r.outputTokens > 1 {
      var span, gaps := r.finish - r.firstToken, r.outputTokens - 1;
      assert span / gaps * gaps <= span;
    }
  }

  /** The three metrics of an ordered result, with nothing left to rounding but the mean gap: it is the whole part of
      the decode phase divided by the gaps. */
  lemma MetricsExactly(r: RequestResult)
    requires r.InOrder()
    ensures r.arrival + r.Ttft() == r.firstToken && r.arrival + r.Jct() == r.finish
    ensures r.outputTokens <= 1 ==> r.MeanTbt() == 0
    ensures r.outputTokens > 1 ==>
              var span, gaps := r.finish - r.firstToken, r.outputTokens - 1;
              r.MeanTbt() * gaps <= span < (r.MeanTbt() + 1) * gaps
  {
    if r.outputTokens > 1 {
      var span, gaps := r.finish - r.firstToken, r.outputTokens - 1;
      assert span == span / gaps * gaps + span % gaps;
    }
  }

  /** The compute model seen by a runner, with the configured decode batch size. */
  datatype Engine = Engine(prefillTime: u32 -> u64, decodeStep: (u32, u32) -> u64, batch: u32)
  {
    function StepFor(promptTokens: u32): u64 {
      decodeStep(batch, promptTokens)
    }
  }

  // ---- sorting by (arrival, id) ----

  type Key = (u64, u64)

  predicate KeyLeq(a: Key, b: Key) {
    a.0 < b.0 || (a.0 == b.0 && a.1 <= b.1)
  }

  function RequestKey(r: Request): Key { (r.arrival, r.id) }

  function ResultKey(r: RequestResult): Key { (r.arrival, r.id) }

  function InsertBy<T>(x: T, xs: seq<T>, key: T -> Key): (r: seq<T>)
    ensures multiset(r) == multiset(xs) + multiset{x}
  {
    if xs == [] || KeyLeq(key(x), key(xs[0])) then [x] + xs
    else
      assert xs == [xs[0]] + xs[1..];
      [xs[0]] + InsertBy(x, xs[1..], key)
  }

  /** `sort_by_key`: stable, ascending. */
  function SortBy<T>(xs: seq<T>, key: T -> Key): (r: seq<T>)
    ensures multiset(r) == multiset(xs)
    ensures |r| == |xs|
  {
    if xs == [] then []
    else
      assert xs == [xs[0]] + xs[1..];
      var r := InsertBy(xs[0], SortBy(xs[1..], key), key);
      assert |multiset(r)| == |r| && |multiset(xs)| == |xs|;
      r
  }

  ghost predicate SortedBy<T>(xs: seq<T>, key: T -> Key) {
    forall i, j | 0 <= i < j < |xs| :: KeyLeq(key(xs[i]), key(xs[j]))
  }

  lemma {:induction false} InsertSorted<T>(x: T, xs: seq<T>, key: T -> Key)
    requires SortedBy(xs, key)
    ensures SortedBy(InsertBy(x, xs, key), key)
  {
    if xs != [] && !KeyLeq(key(x), key(xs[0])) {
      var tail := InsertBy(x, xs[1..], key);
      InsertSorted(x, xs[1..], key);
      forall i | 0 <= i < |tail| ensures KeyLeq(key(xs[0]), key(tail[i])) {
        assert tail[i] in multiset(tail);
        if tail[i] != x { assert tail[i] in multiset(xs[1..]); }
      }
    }
  }

  lemma {:induction false} SortSorts<T>(xs: seq<T>, key: T -> Key)
    ensures SortedBy(SortBy(xs, key), key)
  {
    if xs != [] {
      SortSorts(xs[1..], key);
      InsertSorted(xs[0], SortBy(xs[1..], key), key);
    }
  }

  /** The head of a sorted sequence is determined by its elements. */
  lemma SameHead<T>(a: seq<T>, b: seq<T>, key: T -> Key)
    requires a != [] && b != [] && a[0] in b && b[0] in a
    requires SortedBy(a, key) && SortedBy(b, key)
    requires DistinctKeys(a, key)
    ensures a[0] == b[0]
  {
    var i :| 0 <= i < |b| && b[i] == a[0];
    var j :| 0 <= j < |a| && a[j] == b[0];
    assert i > 0 ==> KeyLeq(key(b[0]), key(b[i]));
    assert j > 0 ==> KeyLeq(key(a[0]), key(a[j]));
  }

  ghost predicate DistinctKeys<T>(a: seq<T>, key: T -> Key) {
    forall i, j | 0 <= i < j < |a| :: key(a[i]) != key(a[j])
  }

  lemma HeadAndTail<T>(a: seq<T>)
    requires a != []
    ensures multiset(a[1..]) == multiset(a) - multiset{a[0]}
  {
    assert a == [a[0]] + a[1..];
  }

  lemma TailSorted<T>(a: seq<T>, key: T -> Key)
    requires a != [] && SortedBy(a, key)
    ensures SortedBy(a[1..], key) && (DistinctKeys(a, key) ==> DistinctKeys(a[1..], key))
  {}

  lemma SameElementsNonEmpty<T>(a: seq<T>, b: seq<T>)
    requires multiset(a) == multiset(b)
    ensures |a| == |b|
    ensures a != [] ==> a[0] in b && b[0] in a
  {
    assert |a| == |multiset(a)| && |b| == |multiset(b)|;
    if a != [] {
      assert a[0] in multiset(b) && b[0] in multiset(a);
    }
  }

  /** With distinct keys there is only one sorted arrangement. */
  lemma {:induction false} SortedIsUnique<T>(a: seq<T>, b: seq<T>, key: T -> Key)
    requires multiset(a) == multiset(b) && SortedBy(a, key) && SortedBy(b, key)
    requires DistinctKeys(a, key)
    ensures a == b
  {
    hide SortedBy, DistinctKeys;
    SameElementsNonEmpty(a, b);
    if a != [] {
      SameHead(a, b, key);
      HeadAndTail(a);
      HeadAndTail(b);
      TailSorted(a, key);
      TailSorted(b, key);
      SortedIsUnique(a[1..], b[1..], key);
      assert a == [a[0]] + a[1..] && b == [b[0]] + b[1..];
    }
  }
}
