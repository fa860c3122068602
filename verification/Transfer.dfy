/** Transfer times: the analytical model, the queue in front of the shared NIC, and the calibration table
    (src/transfer/). */
module Transfer {
  import opened Numbers

  datatype Path = LocalGpuToGpu | LocalCpuToGpu | RemoteMemoryToGpu | RemoteSsdToGpu
  {
    /** Remote transfers share the NIC. */
    predicate Remote() { RemoteMemoryToGpu? || RemoteSsdToGpu? }
  }

  datatype TransferEstimate = TransferEstimate(
    path: Path, bytes: u64, start: u64, finish: u64, baseLatency: u64, serialization: u64, bandwidth: u64)
  {
    function Duration(): u64 { SatSub(finish, start) }
  }

  datatype Link = Link(bps: u64, base: u64)

  datatype Links = Links(localGpu: Link, localCpu: Link, remoteMemory: Link, remoteSsd: Link)
  {
    function Of(p: Path): Link {
      match p
      case LocalGpuToGpu => localGpu
      case LocalCpuToGpu => localCpu
      case RemoteMemoryToGpu => remoteMemory
      case RemoteSsdToGpu => remoteSsd
    }
  }

  /** `serialization_ns`; the 128-bit product of the original is large enough for every input. */
  function Serialization(bytes: u64, bps: u64): u64
    requires bps > 0
  {
    Cap(bytes * 8_000_000_000 / bps)
  }

  function EstimateFrom(l: Link, p: Path, start: u64, bytes: u64): TransferEstimate
    requires l.bps > 0
  {
    var s := Serialization(bytes, l.bps);
    TransferEstimate(p, bytes, start, SatAdd(SatAdd(start, l.base), s), l.base, s, l.bps)
  }

  /** `AnalyticalTransferModel::estimate`: an error without bandwidth, otherwise a start right now. */
  function Analytical(m: Links, now: u64, p: Path, bytes: u64): Option<TransferEstimate> {
    if m.Of(p).bps == 0 then None else Some(EstimateFrom(m.Of(p), p, now, bytes))
  }

  /** `estimate_duration`, the same for the analytical and the queued model. */
  function EstimateDuration(m: Links, p: Path, bytes: u64): Option<u64> {
    var l := m.Of(p);
    if l.bps == 0 then None else Some(SatAdd(l.base, Serialization(bytes, l.bps)))
  }

  /** `QueuedTransferModel::estimate`, with the time from which the NIC is free afterwards. */
  function Queued(m: Links, busy: u64, now: u64, p: Path, bytes: u64): (Option<TransferEstimate>, u64) {
    hide Serialization;
    var l := m.Of(p);
    if l.bps == 0 then (None, busy)
    else
      var start := if p.Remote() then Later(now, busy) else now;
      (Some(EstimateFrom(l, p, start, bytes)),
       if p.Remote() then SatAdd(start, Serialization(bytes, l.bps)) else busy)
  }

  class QueuedTransferModel {
    const links: Links
    var nicBusyUntil: u64

    constructor (links: Links)
      ensures this.links == links && nicBusyUntil == 0
    {
      this.links := links;
      nicBusyUntil := 0;
    }

    method Estimate(now: u64, p: Path, bytes: u64) returns (e: Option<TransferEstimate>)
      modifies this
      ensures (e, nicBusyUntil) == Queued(links, old(nicBusyUntil), now, p, bytes)
    {
      var l := links.Of(p);
      if l.bps == 0 { return None; }
      var s := Serialization(bytes, l.bps);
      var start := now;
      if p.Remote() {
        start := Later(now, nicBusyUntil);
        nicBusyUntil := SatAdd(start, s);
      }
      e := Some(TransferEstimate(p, bytes, start, SatAdd(SatAdd(start, l.base), s), l.base, s, l.bps));
    }
  }

  // ---- one call ----

  lemma TwoSteps(a: u64, b: u64, c: u64)
    ensures SatAdd(SatAdd(a, b), c) == Cap(a + b + c)
  {}

  /** Queueing never makes a transfer finish earlier than the analytical model says; it finishes at the same moment
      exactly when the NIC is idle or not used, or when the clock is exhausted anyway. */
  lemma QueuedVersusAnalytical(m: Links, busy: u64, now: u64, p: Path, bytes: u64)
    ensures Queued(m, busy, now, p, bytes).0.Some? <==> Analytical(m, now, p, bytes).Some?
    ensures Queued(m, busy, now, p, bytes).0.None? ==> Queued(m, busy, now, p, bytes).1 == busy
    ensures Analytical(m, now, p, bytes).Some? ==>
              var q, a := Queued(m, busy, now, p, bytes).0.value, Analytical(m, now, p, bytes).value;
              && now <= a.finish <= q.finish
              && (q.finish == a.finish <==> !p.Remote() || busy <= now || a.finish == MAX64)
  {
    hide Serialization;
    if m.Of(p).bps > 0 {
      var l, s := m.Of(p), Serialization(bytes, m.Of(p).bps);
      TwoSteps(now, l.base, s);
      TwoSteps(Later(now, busy), l.base, s);
    }
  }

  /** The duration of an estimate is the stateless one exactly when its end fits the clock (or it starts at zero). */
  lemma DurationIsStateless(m: Links, busy: u64, now: u64, p: Path, bytes: u64)
    requires m.Of(p).bps > 0
    ensures var q := Queued(m, busy, now, p, bytes).0.value;
            && EstimateDuration(m, p, bytes).Some?
            && (q.Duration() == EstimateDuration(m, p, bytes).value <==>
                  q.start == 0 || q.start + q.baseLatency + q.serialization <= MAX64)
  {
    hide Serialization;
    var q := Queued(m, busy, now, p, bytes).0.value;
    TwoSteps(q.start, q.baseLatency, q.serialization);
  }

  // ---- which link, and who waits ----

  /** The estimate names the bandwidth and latency of the link its path runs over, and of no other; there is one exactly
      when that link has bandwidth. */
  lemma OwnLink(m: Links, busy: u64, now: u64, p: Path, bytes: u64)
    ensures var own := match p
              case LocalGpuToGpu => m.localGpu
              case LocalCpuToGpu => m.localCpu
              case RemoteMemoryToGpu => m.remoteMemory
              case RemoteSsdToGpu => m.remoteSsd;
            var q := Queued(m, busy, now, p, bytes).0;
            && (q.Some? <==> own.bps > 0)
            && (q.Some? ==> Link(q.value.bandwidth, q.value.baseLatency) == own && q.value.path == p
                            && q.value.bytes == bytes
                            && q.value.finish == Cap(q.value.start + own.base + q.value.serialization))
  {
    hide Serialization;
    var q := Queued(m, busy, now, p, bytes).0;
    if q.Some? { TwoSteps(q.value.start, q.value.baseLatency, q.value.serialization); }
  }

  /** A transfer occupies its link for its bits over the link's bandwidth, in whole nanoseconds. */
  lemma BitsOverBandwidth(bytes: u64, l: Link, p: Path, start: u64)
    requires l.bps > 0
    ensures var n := EstimateFrom(l, p, start, bytes).serialization;
            n < MAX64 ==> n * l.bps <= bytes * 8 * 1_000_000_000 < (n + 1) * l.bps
  {
    var work := bytes * 8_000_000_000;
    assert work == work / l.bps * l.bps + work % l.bps;
  }

  /** An estimate depends on nothing of the other links. */
  lemma OtherLinksDoNotMatter(m: Links, m': Links, busy: u64, now: u64, bytes: u64)
    ensures m'.localGpu == m.localGpu ==>
              Queued(m', busy, now, LocalGpuToGpu, bytes) == Queued(m, busy, now, LocalGpuToGpu, bytes)
    ensures m'.localCpu == m.localCpu ==>
              Queued(m', busy, now, LocalCpuToGpu, bytes) == Queued(m, busy, now, LocalCpuToGpu, bytes)
    ensures m'.remoteMemory == m.remoteMemory ==>
              Queued(m', busy, now, RemoteMemoryToGpu, bytes) == Queued(m, busy, now, RemoteMemoryToGpu, bytes)
    ensures m'.remoteSsd == m.remoteSsd ==>
              Queued(m', busy, now, RemoteSsdToGpu, bytes) == Queued(m, busy, now, RemoteSsdToGpu, bytes)
  {}

  /** Local transfers start at once and leave the NIC alone. Remote ones of both kinds wait for the NIC and hold it for
      as long as they serialise, so that a transfer of either kind waits for one of the other. */
  lemma OnlyRemoteWaits(m: Links, busy: u64, now: u64, bytes: u64, later: u64, more: u64)
    ensures forall p | p == LocalGpuToGpu || p == LocalCpuToGpu ::
              var (e, after) := Queued(m, busy, now, p, bytes); after == busy && (e.Some? ==> e.value.start == now)
    ensures forall p, q | (p == RemoteMemoryToGpu || p == RemoteSsdToGpu) && (q == RemoteMemoryToGpu || q == RemoteSsdToGpu)
                          && Queued(m, busy, now, p, bytes).0.Some? && m.Of(q).bps > 0 ::
              var (e, after) := Queued(m, busy, now, p, bytes);
              var f := Queued(m, after, later, q, more).0;
              && e.value.start == Max(now, busy) && after == Cap(e.value.start + e.value.serialization)
              && f.Some? && f.value.start == Max(later, after)
  {}

  // ---- sequences of calls ----

  datatype Call = Call(now: u64, path: Path, bytes: u64)

  /** The call reserves the NIC. */
  predicate UsesNic(m: Links, c: Call) {
    c.path.Remote() && m.Of(c.path).bps > 0
  }

  /** NIC time a call takes. */
  function NicWork(m: Links, c: Call): u64 {
    if UsesNic(m, c) then Serialization(c.bytes, m.Of(c.path).bps) else 0
  }

  /** When the NIC becomes free after the first `n` calls. */
  function BusyAfter(m: Links, b0: u64, calls: seq<Call>, n: nat): u64
    requires n <= |calls|
  {
    if n == 0 then b0
    else
      var c := calls[n-1];
      Queued(m, BusyAfter(m, b0, calls, n - 1), c.now, c.path, c.bytes).1
  }

  function EstimateAt(m: Links, b0: u64, calls: seq<Call>, i: nat): Option<TransferEstimate>
    requires i < |calls|
  {
    Queued(m, BusyAfter(m, b0, calls, i), calls[i].now, calls[i].path, calls[i].bytes).0
  }

  /** NIC work of calls `i` to `n`. */
  function Work(m: Links, calls: seq<Call>, i: nat, n: nat): nat
    requires i <= n <= |calls|
  {
    if i == n then 0 else Work(m, calls, i, n - 1) + NicWork(m, calls[n-1])
  }

  /** The largest of: the initial backlog with all work since, and for each of the first `k` calls on the NIC its
      arrival with all work from it on. */
  function Peak(m: Links, b0: u64, calls: seq<Call>, n: nat, k: nat): nat
    requires k <= n <= |calls|
  {
    if k == 0 then b0 + Work(m, calls, 0, n)
    else Max(Peak(m, b0, calls, n, k - 1),
             if UsesNic(m, calls[k-1]) then calls[k-1].now + Work(m, calls, k - 1, n) else 0)
  }

  lemma {:induction false} PeakGrows(m: Links, b0: u64, calls: seq<Call>, n: nat, k: nat)
    requires k <= n < |calls|
    ensures Peak(m, b0, calls, n + 1, k) == Peak(m, b0, calls, n, k) + NicWork(m, calls[n])
  {
    if k > 0 { PeakGrows(m, b0, calls, n, k - 1); }
  }

  /** Closed form of the NIC: the time it becomes free is the peak, up to the end of the clock. */
  lemma {:induction false} NicClosedForm(m: Links, b0: u64, calls: seq<Call>, n: nat)
    requires n <= |calls|
    ensures BusyAfter(m, b0, calls, n) == Cap(Peak(m, b0, calls, n, n))
  {
    hide Serialization;
    if n > 0 {
      var c := calls[n-1];
      NicClosedForm(m, b0, calls, n - 1);
      PeakGrows(m, b0, calls, n - 1, n - 1);
      assert Work(m, calls, n - 1, n) == NicWork(m, c);
    }
  }

  lemma {:induction false} BusyNeverShrinks(m: Links, b0: u64, calls: seq<Call>, i: nat, j: nat)
    requires i <= j <= |calls|
    ensures BusyAfter(m, b0, calls, i) <= BusyAfter(m, b0, calls, j)
  {
    if i < j { BusyNeverShrinks(m, b0, calls, i, j - 1); }
  }

  /** Serialisation windows on the NIC do not overlap and follow the order of the calls; an earlier window lies before
      a later one exactly when its own end fits the clock. */
  lemma WindowsDisjoint(m: Links, b0: u64, calls: seq<Call>, i: nat, j: nat)
    requires i < j < |calls| && UsesNic(m, calls[i]) && UsesNic(m, calls[j])
    ensures EstimateAt(m, b0, calls, i).Some? && EstimateAt(m, b0, calls, j).Some?
    ensures var a, b := EstimateAt(m, b0, calls, i).value, EstimateAt(m, b0, calls, j).value;
            && a.start <= b.start
            && (a.start + a.serialization <= b.start <==> a.start + a.serialization <= MAX64)
  {
    hide Serialization;
    BusyNeverShrinks(m, b0, calls, i + 1, j);
  }

  // ---- the calibration table ----

  /** `TableCalibratedTransferModel::estimate`: a calibrated latency, or the analytical model. */
  function Calibrated(table: map<(Path, u64), u64>, m: Links, now: u64, p: Path, bytes: u64): Option<TransferEstimate> {
    if (p, bytes) in table
    then Some(TransferEstimate(p, bytes, now, SatAdd(now, table[(p, bytes)]), table[(p, bytes)], 0, 0))
    else Analytical(m, now, p, bytes)
  }

  /** A calibrated transfer takes exactly the calibrated latency, up to the end of the clock; without an entry for this
      path and size the analytical model answers. */
  lemma CalibratedFirst(table: map<(Path, u64), u64>, m: Links, now: u64, p: Path, bytes: u64)
    ensures var e := Calibrated(table, m, now, p, bytes);
            if (p, bytes) in table then e.Some? && e.value.start == now && e.value.finish == Cap(now + table[(p, bytes)])
            else e == Analytical(m, now, p, bytes)
  {}

  /** None of the three models ends a transfer before it is asked for. */
  lemma FinishNotBeforeNow(table: map<(Path, u64), u64>, m: Links, busy: u64, now: u64, p: Path, bytes: u64)
    ensures Calibrated(table, m, now, p, bytes).Some? ==> now <= Calibrated(table, m, now, p, bytes).value.finish
    ensures Analytical(m, now, p, bytes).Some? ==> now <= Analytical(m, now, p, bytes).value.finish
    ensures Queued(m, busy, now, p, bytes).0.Some? ==> now <= Queued(m, busy, now, p, bytes).0.value.finish
  {
    QueuedVersusAnalytical(m, busy, now, p, bytes);
  }
}
