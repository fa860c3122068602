/** Fetch a stored prefix or recompute it: the break-even decision (src/decision.rs, src/model/). */
module Decision {
  import opened Numbers
  import opened Transfer

  /** `LinearComputeModel`, prefill part. */
  datatype LinearPrefill = LinearPrefill(base: u64, perToken: u64)
  {
    function Time(tokens: u32): u64 { SatAdd(base, SatMul(perToken, tokens)) }
  }

  /** `ModelProfile`, as far as it determines the size of a KV object. */
  datatype Profile = Profile(bytesPerToken: u64)
  {
    function KvBytes(tokens: u32): u64 { SatMul(bytesPerToken, tokens) }
  }

  datatype KvDecision = RecomputePrefill | Fetch(estimate: TransferEstimate)

  datatype Verdict = Verdict(
    promptTokens: u32, reusedTokens: u32, kvBytes: u64, recompute: u64, fetch: TransferEstimate, decision: KvDecision)
  {
    function SavedNs(): int { recompute - fetch.Duration() }
  }

  /** `FetchVsRecompute::evaluate`. */
  function Evaluate(profile: Profile, compute: LinearPrefill, m: Links, p: Path, promptTokens: u32, reused: u32)
    : Option<Verdict>
  {
    var tokens := if reused < promptTokens then reused else promptTokens;
    var bytes, recompute := profile.KvBytes(tokens), compute.Time(tokens);
    match Analytical(m, 0, p, bytes)
    case None => None
    case Some(e) =>
      Some(Verdict(promptTokens, tokens, bytes, recompute, e,
        if e.Duration() < recompute then KvDecision.Fetch(e) else RecomputePrefill))
  }

  /** The decision is to fetch exactly when that saves time, and there is a decision whenever the path has bandwidth.
      */
  lemma FetchIffSaves(profile: Profile, compute: LinearPrefill, m: Links, p: Path, promptTokens: u32, reused: u32)
    ensures var v := Evaluate(profile, compute, m, p, promptTokens, reused);
            && (v.Some? <==> m.Of(p).bps > 0)
            && (v.Some? ==> (v.value.decision.Fetch? <==> v.value.SavedNs() > 0))
  {}

  /** The verdict is about the prefix reused as far as the prompt reaches: its size, its recompute time and its transfer
      from an idle start are priced, and the prompt matters in no other way. */
  lemma VerdictOfReused(profile: Profile, compute: LinearPrefill, m: Links, p: Path, promptTokens: u32, reused: u32)
    requires m.Of(p).bps > 0
    ensures var v := Evaluate(profile, compute, m, p, promptTokens, reused).value;
            var most := if promptTokens < reused then promptTokens else reused;
            && v.promptTokens == promptTokens && v.reusedTokens == most
            && v.kvBytes == Cap(profile.bytesPerToken * most)
            && v.recompute == Cap(compute.base + compute.perToken * most)
            && Analytical(m, 0, p, v.kvBytes) == Some(v.fetch)
    ensures reused <= promptTokens ==>
              Evaluate(profile, compute, m, p, promptTokens, reused).value
              == Evaluate(profile, compute, m, p, reused, reused).value.(promptTokens := promptTokens)
    ensures promptTokens < reused ==>
              Evaluate(profile, compute, m, p, promptTokens, reused)
              == Evaluate(profile, compute, m, p, promptTokens, promptTokens)
  {
    hide EstimateFrom;
    RecomputeTimeIs(compute, if promptTokens < reused then promptTokens else reused);
  }

  // ---- break-even ----

  /** Fetching `tokens` of a prefix beats recomputing them. */
  predicate Fetches(profile: Profile, compute: LinearPrefill, m: Links, p: Path, tokens: u32)
    requires m.Of(p).bps > 0
  {
    Evaluate(profile, compute, m, p, tokens, tokens).value.decision.Fetch?
  }

  /** No intermediate result reaches the end of the 64-bit range. */
  predicate Unsaturated(profile: Profile, compute: LinearPrefill, l: Link, tokens: u32)
    requires l.bps > 0
  {
    && profile.bytesPerToken * tokens <= MAX64
    && compute.base + compute.perToken * tokens <= MAX64
    && l.base + profile.bytesPerToken * tokens * 8_000_000_000 / l.bps <= MAX64
  }

  /** Nanosecond-bits by which fetching one more token costs more than recomputing it; negative when it costs less. */
  function Slope(profile: Profile, compute: LinearPrefill, l: Link): int {
    8_000_000_000 * profile.bytesPerToken - compute.perToken * l.bps
  }

  lemma FloorShift(x: int, k: int, d: int)
    requires d > 0
    ensures (x - k * d) / d == x / d - k
  {
    var q, r := x / d, x % d;
    assert x == q * d + r;
    assert x - k * d == (q - k) * d + r;
    FloorIs(x - k * d, q - k, r, d);
  }

  lemma Multiples(e: int, d: int)
    requires d > 0
    ensures e >= 1 ==> e * d >= d
    ensures e <= -1 ==> e * d <= -d
  {
    if e >= 1 { assert (e - 1) * d >= 0; }
    if e <= -1 { assert (-1 - e) * d >= 0; }
  }

  lemma Difference(q: int, r: int, d: int)
    ensures (q - r) * d == q * d - r * d
  {}

  lemma FloorIs(x: int, q: int, r: int, d: int)
    requires d > 0 && x == q * d + r && 0 <= r < d
    ensures x / d == q
  {
    assert x == x / d * d + x % d;
    Difference(x / d, q, d);
    Multiples(x / d - q, d);
  }

  lemma FloorMonotone(x: int, y: int, d: int)
    requires d > 0 && x <= y
    ensures x / d <= y / d
  {
    assert x == x / d * d + x % d && y == y / d * d + y % d;
    Difference(x / d, y / d, d);
    Multiples(x / d - y / d, d);
  }

  lemma SlopeTimes(a: int, p: int, d: int, t: int)
    ensures (a - p * d) * t == a * t - p * t * d
  {}

  /** What fetching costs over recomputing is a constant plus one floor: (slope * tokens) / bandwidth. */
  lemma CostDifference(profile: Profile, compute: LinearPrefill, m: Links, p: Path, tokens: u32)
    requires m.Of(p).bps > 0 && Unsaturated(profile, compute, m.Of(p), tokens)
    ensures var l := m.Of(p);
            var v := Evaluate(profile, compute, m, p, tokens, tokens).value;
            v.fetch.Duration() - v.recompute == l.base - compute.base + Slope(profile, compute, l) * tokens / l.bps
  {
    var l := m.Of(p);
    var v := Evaluate(profile, compute, m, p, tokens, tokens).value;
    var a := 8_000_000_000 * profile.bytesPerToken;
    Durations(profile, compute, m, p, tokens);
    assert profile.bytesPerToken * tokens * 8_000_000_000 == a * tokens by {
      Regroup(profile.bytesPerToken, tokens);
    }
    SlopeTimes(a, compute.perToken, l.bps, tokens);
    FloorShift(a * tokens, compute.perToken * tokens, l.bps);
  }

  lemma Regroup(k: int, t: int)
    ensures k * t * 8_000_000_000 == 8_000_000_000 * k * t
  {}

  lemma Durations(profile: Profile, compute: LinearPrefill, m: Links, p: Path, tokens: u32)
    requires m.Of(p).bps > 0 && Unsaturated(profile, compute, m.Of(p), tokens)
    ensures var v := Evaluate(profile, compute, m, p, tokens, tokens).value;
            && v.recompute == compute.base + compute.perToken * tokens
            && v.fetch.Duration() == m.Of(p).base + profile.bytesPerToken * tokens * 8_000_000_000 / m.Of(p).bps
  {}

  lemma Scaled(m: int, s: nat, t: nat)
    requires s <= t
    ensures m >= 0 ==> m * s <= m * t
    ensures m <= 0 ==> m * s >= m * t
  {
    if m >= 0 { assert m * (t - s) >= 0; } else { assert (-m) * (t - s) >= 0; }
  }

  // ---- the decision at every length, capped or not ----

  /** The KV size is capped. */
  predicate BytesCapped(profile: Profile, tokens: u32) {
    profile.bytesPerToken * tokens > MAX64
  }

  function FetchTime(profile: Profile, m: Links, p: Path, tokens: u32): u64
    requires m.Of(p).bps > 0
  {
    EstimateFrom(m.Of(p), p, 0, profile.KvBytes(tokens)).Duration()
  }

  /** The transfer never ends as far as the clock can tell. */
  predicate TimeCapped(profile: Profile, m: Links, p: Path, tokens: u32)
    requires m.Of(p).bps > 0
  {
    FetchTime(profile, m, p, tokens) == MAX64
  }

  /** What fetching costs over recomputing in unbounded arithmetic. */
  function ExactCost(profile: Profile, compute: LinearPrefill, l: Link, tokens: u32): int
    requires l.bps > 0
  {
    l.base + profile.bytesPerToken * tokens * 8_000_000_000 / l.bps - (compute.base + compute.perToken * tokens)
  }

  lemma ExactCostFormula(profile: Profile, compute: LinearPrefill, l: Link, tokens: u32)
    requires l.bps > 0
    ensures ExactCost(profile, compute, l, tokens) == l.base - compute.base + Slope(profile, compute, l) * tokens / l.bps
  {
    var a := 8_000_000_000 * profile.bytesPerToken;
    assert profile.bytesPerToken * tokens * 8_000_000_000 == a * tokens by {
      Regroup(profile.bytesPerToken, tokens);
    }
    SlopeTimes(a, compute.perToken, l.bps, tokens);
    FloorShift(a * tokens, compute.perToken * tokens, l.bps);
  }

  /** The exact cost moves in the direction of the slope. */
  lemma ExactCostMonotone(profile: Profile, compute: LinearPrefill, l: Link, s: u32, t: u32)
    requires l.bps > 0 && s <= t
    ensures Slope(profile, compute, l) <= 0 ==> ExactCost(profile, compute, l, t) <= ExactCost(profile, compute, l, s)
    ensures Slope(profile, compute, l) >= 0 ==> ExactCost(profile, compute, l, s) <= ExactCost(profile, compute, l, t)
  {
    var g := Slope(profile, compute, l);
    hide Slope, ExactCost;
    ExactCostFormula(profile, compute, l, s);
    ExactCostFormula(profile, compute, l, t);
    Scaled(g, s, t);
    if g <= 0 { FloorMonotone(g * t, g * s, l.bps); }
    if g >= 0 { FloorMonotone(g * s, g * t, l.bps); }
  }

  lemma CapAgain(a: u64, x: nat)
    ensures SatAdd(a, Cap(x)) == Cap(a + x)
  {}

  lemma FetchTimeIs(profile: Profile, m: Links, p: Path, tokens: u32)
    requires m.Of(p).bps > 0
    ensures FetchTime(profile, m, p, tokens)
            == Cap(m.Of(p).base + profile.KvBytes(tokens) * 8_000_000_000 / m.Of(p).bps)
  {
    CapAgain(m.Of(p).base, profile.KvBytes(tokens) * 8_000_000_000 / m.Of(p).bps);
  }

  lemma RecomputeTimeIs(compute: LinearPrefill, tokens: u32)
    ensures compute.Time(tokens) == Cap(compute.base + compute.perToken * tokens)
  {
    CapAgain(compute.base, compute.perToken * tokens);
  }

  lemma FetchesIs(profile: Profile, compute: LinearPrefill, m: Links, p: Path, tokens: u32)
    requires m.Of(p).bps > 0
    ensures Fetches(profile, compute, m, p, tokens) <==> FetchTime(profile, m, p, tokens) < compute.Time(tokens)
  {}

  lemma FloorNotAbove(x: nat, y: nat, d: nat)
    requires d > 0 && x <= y
    ensures x * 8_000_000_000 / d <= y * 8_000_000_000 / d
  {
    FloorMonotone(x * 8_000_000_000, y * 8_000_000_000, d);
  }

  /** A transfer that ends is chosen whenever it is cheaper exactly; capping the recompute time never hides that. */
  lemma CheaperIsFetched(profile: Profile, compute: LinearPrefill, m: Links, p: Path, tokens: u32)
    requires m.Of(p).bps > 0 && !TimeCapped(profile, m, p, tokens)
    requires ExactCost(profile, compute, m.Of(p), tokens) < 0
    ensures Fetches(profile, compute, m, p, tokens)
  {
    FetchesIs(profile, compute, m, p, tokens);
    FetchTimeIs(profile, m, p, tokens);
    RecomputeTimeIs(compute, tokens);
    FloorNotAbove(profile.KvBytes(tokens), profile.bytesPerToken * tokens, m.Of(p).bps);
    hide Fetches, FetchTime, LinearPrefill.Time;
  }

  /** As long as the size is not capped, only a cheaper transfer is chosen. */
  lemma FetchedIsCheaper(profile: Profile, compute: LinearPrefill, m: Links, p: Path, tokens: u32)
    requires m.Of(p).bps > 0 && !BytesCapped(profile, tokens) && Fetches(profile, compute, m, p, tokens)
    ensures ExactCost(profile, compute, m.Of(p), tokens) < 0
  {
    FetchesIs(profile, compute, m, p, tokens);
    FetchTimeIs(profile, m, p, tokens);
    RecomputeTimeIs(compute, tokens);
    hide Fetches, FetchTime, LinearPrefill.Time;
    assert profile.KvBytes(tokens) == profile.bytesPerToken * tokens;
  }

  lemma NeverFetchedForEver(profile: Profile, compute: LinearPrefill, m: Links, p: Path, tokens: u32)
    requires m.Of(p).bps > 0 && TimeCapped(profile, m, p, tokens)
    ensures !Fetches(profile, compute, m, p, tokens)
  {
    FetchesIs(profile, compute, m, p, tokens);
    hide Fetches, FetchTime;
  }

  /** Longer prefixes never take less time, and once the size is capped the transfer always takes the same time. */
  lemma TimesGrow(profile: Profile, compute: LinearPrefill, m: Links, p: Path, s: u32, t: u32)
    requires m.Of(p).bps > 0 && s <= t
    ensures FetchTime(profile, m, p, s) <= FetchTime(profile, m, p, t) && compute.Time(s) <= compute.Time(t)
    ensures BytesCapped(profile, s) ==> FetchTime(profile, m, p, s) == FetchTime(profile, m, p, t)
  {
    Scaled(profile.bytesPerToken, s, t);
    Scaled(compute.perToken, s, t);
    FloorNotAbove(profile.KvBytes(s), profile.KvBytes(t), m.Of(p).bps);
    FetchTimeIs(profile, m, p, s);
    FetchTimeIs(profile, m, p, t);
    RecomputeTimeIs(compute, s);
    RecomputeTimeIs(compute, t);
    hide FetchTime, LinearPrefill.Time;
  }

  /** When a token is no dearer to fetch than to recompute, fetching stays right for every longer prefix whose transfer
      ends. */
  lemma FetchingStays(profile: Profile, compute: LinearPrefill, m: Links, p: Path, s: u32, t: u32)
    requires m.Of(p).bps > 0 && s <= t && Slope(profile, compute, m.Of(p)) <= 0
    requires Fetches(profile, compute, m, p, s) && !TimeCapped(profile, m, p, t)
    ensures Fetches(profile, compute, m, p, t)
  {
    hide Fetches, FetchTime, Slope, ExactCost, LinearPrefill.Time, BytesCapped;
    if BytesCapped(profile, s) {
      TimesGrow(profile, compute, m, p, s, t);
      FetchesIs(profile, compute, m, p, s);
      FetchesIs(profile, compute, m, p, t);
    } else {
      FetchedIsCheaper(profile, compute, m, p, s);
      ExactCostMonotone(profile, compute, m.Of(p), s, t);
      CheaperIsFetched(profile, compute, m, p, t);
    }
  }

  /** When a token is no cheaper to fetch, fetching is right for every shorter prefix too, as long as the size is not
      capped. */
  lemma FetchingHeld(profile: Profile, compute: LinearPrefill, m: Links, p: Path, s: u32, t: u32)
    requires m.Of(p).bps > 0 && s <= t && Slope(profile, compute, m.Of(p)) >= 0
    requires Fetches(profile, compute, m, p, t) && !BytesCapped(profile, t)
    ensures Fetches(profile, compute, m, p, s)
  {
    hide Fetches, FetchTime, Slope, ExactCost, LinearPrefill.Time, BytesCapped;
    TimesGrow(profile, compute, m, p, s, t);
    if TimeCapped(profile, m, p, t) { NeverFetchedForEver(profile, compute, m, p, t); }
    FetchedIsCheaper(profile, compute, m, p, t);
    ExactCostMonotone(profile, compute, m.Of(p), s, t);
    CheaperIsFetched(profile, compute, m, p, s);
  }

  /** Once the size is capped, only recomputing gets dearer. */
  lemma CappedFetchingStays(profile: Profile, compute: LinearPrefill, m: Links, p: Path, s: u32, t: u32)
    requires m.Of(p).bps > 0 && s <= t && BytesCapped(profile, s) && Fetches(profile, compute, m, p, s)
    ensures Fetches(profile, compute, m, p, t)
  {
    hide Fetches, FetchTime, LinearPrefill.Time, BytesCapped;
    TimesGrow(profile, compute, m, p, s, t);
    FetchesIs(profile, compute, m, p, s);
    FetchesIs(profile, compute, m, p, t);
  }

  // ---- one threshold ----

  /** Of the prefixes up to `most`, exactly those from length `k` on are fetched. */
  ghost predicate FetchesFrom(profile: Profile, compute: LinearPrefill, m: Links, p: Path, most: u32, k: nat)
    requires m.Of(p).bps > 0
  {
    forall t: u32 | t <= most :: Fetches(profile, compute, m, p, t) <==> k <= t
  }

  /** Exactly those below length `k`. */
  ghost predicate FetchesBelow(profile: Profile, compute: LinearPrefill, m: Links, p: Path, most: u32, k: nat)
    requires m.Of(p).bps > 0
  {
    forall t: u32 | t <= most :: Fetches(profile, compute, m, p, t) <==> t < k
  }

  ghost predicate FromThreshold(profile: Profile, compute: LinearPrefill, m: Links, p: Path, most: u32)
    requires m.Of(p).bps > 0
  {
    exists k: nat :: FetchesFrom(profile, compute, m, p, most, k)
  }

  ghost predicate BelowThreshold(profile: Profile, compute: LinearPrefill, m: Links, p: Path, most: u32)
    requires m.Of(p).bps > 0
  {
    exists k: nat :: FetchesBelow(profile, compute, m, p, most, k)
  }

  /** No prefix up to `most` is fetched. */
  ghost predicate NeverFetches(profile: Profile, compute: LinearPrefill, m: Links, p: Path, most: u32)
    requires m.Of(p).bps > 0
  {
    forall t: u32 | t <= most :: !Fetches(profile, compute, m, p, t)
  }

  ghost predicate AlwaysFetches(profile: Profile, compute: LinearPrefill, m: Links, p: Path, most: u32)
    requires m.Of(p).bps > 0
  {
    forall t: u32 | t <= most :: Fetches(profile, compute, m, p, t)
  }

  lemma {:induction false} FirstFetched(profile: Profile, compute: LinearPrefill, m: Links, p: Path, most: u32)
      returns (k: nat)
    requires m.Of(p).bps > 0
    requires forall s: u32, t: u32 | s <= t <= most && Fetches(profile, compute, m, p, s) ::
               Fetches(profile, compute, m, p, t)
    ensures k <= most + 1 && FetchesFrom(profile, compute, m, p, most, k)
  {
    hide Fetches;
    var now := Fetches(profile, compute, m, p, most);
    if most == 0 {
      k := if now then 0 else 1;
    } else {
      k := FirstFetched(profile, compute, m, p, most - 1);
      assert Fetches(profile, compute, m, p, most - 1) ==> now;
      if k == most && !now { k := most + 1; }
    }
  }

  lemma {:induction false} FirstNotFetched(profile: Profile, compute: LinearPrefill, m: Links, p: Path, most: u32)
      returns (k: nat)
    requires m.Of(p).bps > 0
    requires forall s: u32, t: u32 | s <= t <= most && Fetches(profile, compute, m, p, t) ::
               Fetches(profile, compute, m, p, s)
    ensures k <= most + 1 && FetchesBelow(profile, compute, m, p, most, k)
  {
    hide Fetches;
    var now := Fetches(profile, compute, m, p, most);
    if most == 0 {
      k := if now then 1 else 0;
    } else {
      k := FirstNotFetched(profile, compute, m, p, most - 1);
      assert now ==> Fetches(profile, compute, m, p, most - 1);
      if k == most && now { k := most + 1; }
    }
  }

  /** When a token is no dearer to fetch than to recompute: the prefixes up to `most` that are fetched are those from one
      threshold on, if and only if the longest transfer ends or no prefix is fetched at all. A capped recompute time
      never matters. */
  lemma BreakEvenCheaper(profile: Profile, compute: LinearPrefill, m: Links, p: Path, most: u32)
    requires m.Of(p).bps > 0 && Slope(profile, compute, m.Of(p)) <= 0
    ensures FromThreshold(profile, compute, m, p, most)
            <==> !TimeCapped(profile, m, p, most) || NeverFetches(profile, compute, m, p, most)
  {
    hide Fetches, FetchTime, Slope;
    if TimeCapped(profile, m, p, most) {
      NeverFetchedForEver(profile, compute, m, p, most);
      if NeverFetches(profile, compute, m, p, most) {
        assert FetchesFrom(profile, compute, m, p, most, most + 1);
      }
    } else {
      forall s: u32, t: u32 | s <= t <= most && Fetches(profile, compute, m, p, s)
        ensures Fetches(profile, compute, m, p, t)
      {
        TimesGrow(profile, compute, m, p, t, most);
        FetchingStays(profile, compute, m, p, s, t);
      }
      var k := FirstFetched(profile, compute, m, p, most);
    }
  }

  /** When a token is no cheaper to fetch: the prefixes that are fetched are those below one threshold, if and only if
      the longest size is not capped, or the longest prefix is not fetched, or all are. */
  lemma BreakEvenDearer(profile: Profile, compute: LinearPrefill, m: Links, p: Path, most: u32)
    requires m.Of(p).bps > 0 && Slope(profile, compute, m.Of(p)) >= 0
    ensures BelowThreshold(profile, compute, m, p, most)
            <==> !BytesCapped(profile, most) || !Fetches(profile, compute, m, p, most)
                 || AlwaysFetches(profile, compute, m, p, most)
  {
    hide Fetches, Slope, BytesCapped;
    if AlwaysFetches(profile, compute, m, p, most) {
      assert FetchesBelow(profile, compute, m, p, most, most + 1);
    } else if !BytesCapped(profile, most) || !Fetches(profile, compute, m, p, most) {
      forall s: u32, t: u32 | s <= t <= most && Fetches(profile, compute, m, p, t)
        ensures Fetches(profile, compute, m, p, s)
      {
        if BytesCapped(profile, t) {
          CappedBeyond(profile, t, most);
          CappedFetchingStays(profile, compute, m, p, t, most);
          assert false;
        } else {
          FetchingHeld(profile, compute, m, p, s, t);
        }
      }
      var k := FirstNotFetched(profile, compute, m, p, most);
    }
  }

  lemma CappedBeyond(profile: Profile, s: u32, t: u32)
    requires s <= t && BytesCapped(profile, s)
    ensures BytesCapped(profile, t)
  {
    Scaled(profile.bytesPerToken, s, t);
  }

  /** Hence one threshold decides every prefix whose size fits and whose transfer ends, whatever the recompute time:
      fetch from it on when a token is cheaper to fetch, below it when it is dearer. */
  lemma BreakEven(profile: Profile, compute: LinearPrefill, m: Links, p: Path, most: u32)
    requires m.Of(p).bps > 0 && !BytesCapped(profile, most) && !TimeCapped(profile, m, p, most)
    ensures if Slope(profile, compute, m.Of(p)) <= 0 then FromThreshold(profile, compute, m, p, most)
            else BelowThreshold(profile, compute, m, p, most)
  {
    hide *;
    if Slope(profile, compute, m.Of(p)) <= 0 {
      BreakEvenCheaper(profile, compute, m, p, most);
    } else {
      BreakEvenDearer(profile, compute, m, p, most);
    }
  }

  /** A transfer that never ends does break it: recompute, fetch, and recompute again once the transfer is capped. */
  lemma SaturationBreaksThreshold()
    ensures var profile, compute := Profile(0x4000_0000_0000_0000), LinearPrefill(0, 0x8000_0000_0000_0000);
            var m := Links(Link(0, 0), Link(0, 0), Link(8_000_000_000, 1), Link(0, 0));
            && !Fetches(profile, compute, m, RemoteMemoryToGpu, 0)
            && Fetches(profile, compute, m, RemoteMemoryToGpu, 1)
            && !Fetches(profile, compute, m, RemoteMemoryToGpu, 4)
  {
  }

  /** So does a size that is capped: although a token is dearer to fetch, a long prefix is fetched and a short one is
      not. */
  lemma SizeCapBreaksThreshold()
    ensures var profile, compute := Profile(0x8000_0000_0000_0000), LinearPrefill(0, 0x1FFF_FFFF_FFFF_FFFF);
            var m := Links(Link(0, 0), Link(0, 0), Link(32_000_000_000, 0), Link(0, 0));
            && Slope(profile, compute, m.Of(RemoteMemoryToGpu)) > 0
            && !Fetches(profile, compute, m, RemoteMemoryToGpu, 1)
            && Fetches(profile, compute, m, RemoteMemoryToGpu, 3)
  {
  }
}
