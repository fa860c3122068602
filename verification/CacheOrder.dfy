/** The order of events in the cache-aware runner, for transfer models that never end a transfer before it starts. */
module CacheOrder {
  import opened Numbers
  import opened Simulation
  import opened Cluster
  import opened Requests
  import opened Machine
  import opened Lifecycle
  import ED = EventDriven
  import opened Traces
  import opened CacheRunner
  import CL = CacheLifecycle
  import Cache
  import Transfer

  /** Nothing pending lies in the past. */
  ghost predicate Punctual(c: Core) {
    forall e | e in c.sim.pending :: c.Now() <= e.time
  }

  /** One number was handed out per event handled or pending, so numbers are unique. */
  ghost predicate Numbering(i: nat, c: Core, book: map<u64, Request>, total: int) {
    CL.SteadyWithin(i, c, book,
        total) && Sequenced(c.sim) && c.sim.nextSeq <= i + |c.sim.pending| && Punctual(c) && total < MAX64
  }

  lemma PunctualAgain(c: Core, e: Ev, c': Core)
    requires Punctual(c) && e in c.sim.pending && Earliest(e, c.sim.pending) && Extends(Pop(c, e).sim, c'.sim)
    ensures Punctual(c') && c'.Now() == e.time
  {
    forall f | f in c'.sim.pending ensures c'.Now() <= f.time {
      if f in c.sim.pending { assert !Before(f, e); }
    }
  }

  lemma FewPending(i: nat, c: Core, book: map<u64, Request>, total: int)
    requires CL.SteadyWithin(i, c, book, total)
    ensures i + |c.sim.pending| <= total
  {
    ED.WeightCoversPending(c.sim.pending, 4);
    hide CL.Steady;
  }

  lemma TurnNumbering<T(!new)>(x: Setup<T>, i: nat, w: World<T>, e: Ev, w': World<T>, book: map<u64, Request>,
                               total: int)
    requires Numbering(i, w.core, book, total) && Turns(x)(w, e, w') && CL.Timely(x)
    ensures Numbering(i + 1, w'.core, book, total) && Behind(e, w'.core.sim) && w'.core.Now() == e.time
    ensures Extends(Pop(w.core, e).sim, w'.core.sim) && e in w.core.sim.pending
  {
    hide CL.Steady, Sequenced, Serve, Extends, CL.Timely, Accounted, Remaining;
    CL.TurnKeeps(w, x, e, w');
    CL.TurnSteady(x, i, w, e, w', book, total);
    FewPending(i + 1, w'.core, book, total);
    NumbersStayUnique(w.core.sim, e, w'.core.sim, i);
    PunctualAgain(w.core, e, w'.core);
    PopOvertakes(w.core.sim, e, w'.core.sim);
  }

  /** Numbered, and `last` is behind everything pending. */
  ghost predicate NumberingBehind(last: Ev, i: nat, c: Core, book: map<u64, Request>, total: int) {
    Numbering(i, c, book, total) && Behind(last, c.sim)
  }

  lemma TurnBehind<T(!new)>(x: Setup<T>, i: nat, w: World<T>, e: Ev, w': World<T>, last: Ev, book: map<u64, Request>,
                            total: int)
    requires NumberingBehind(last, i, w.core, book, total) && Turns(x)(w, e, w') && CL.Timely(x)
    ensures NumberingBehind(last, i + 1, w'.core, book, total)
  {
    TurnNumbering(x, i, w, e, w', book, total);
    assert Sequenced(w.core.sim);
    hide Numbering, Sequenced, Turns, CL.Timely;
    BehindStays(last, w.core.sim, e, w'.core.sim);
  }

  lemma {:induction false} RunNumbering<T(!new)>(x: Setup<T>, worlds: seq<World<T>>, events: seq<Ev>, n: nat,
                                                 book: map<u64, Request>, total: int)
    requires IsTrace(Turns(x), worlds, events) && Numbering(0, worlds[0].core, book, total) && CL.Timely(x)
             && n <= |events|
    ensures Numbering(n, worlds[n].core, book, total)
  {
    hide *;
    if n > 0 {
      TraceStep(Turns(x), worlds, events, n - 1);
      RunNumbering(x, worlds, events, n - 1, book, total);
      TurnNumbering(x, n - 1, worlds[n-1], events[n-1], worlds[n], book, total);
    }
  }

  lemma {:induction false} RunBehind<T(!new)>(x: Setup<T>, worlds: seq<World<T>>, events: seq<Ev>, k: nat, j: nat,
                                              book: map<u64, Request>, total: int)
    requires IsTrace(Turns(x), worlds, events) && Numbering(0, worlds[0].core, book, total) && CL.Timely(x)
    requires k < j <= |events|
    ensures NumberingBehind(events[k], j, worlds[j].core, book, total) && worlds[k+1].core.Now() == events[k].time
  {
    hide Turns, Numbering, CL.Timely, Behind;
    if j == k + 1 {
      RunNumbering(x, worlds, events, k, book, total);
      TurnNumbering(x, k, worlds[k], events[k], worlds[k+1], book, total);
    } else {
      RunBehind(x, worlds, events, k, j - 1, book, total);
      TurnBehind(x, j - 1, worlds[j-1], events[j-1], worlds[j], events[k], book, total);
    }
  }

  lemma LoadedNumbering(t: Topology, rs: seq<Request>)
    requires ED.Servable(t, rs) && UniqueIds(rs) && 4 * |rs| < MAX64
    ensures Numbering(0, Loaded(t, rs), Book(rs), 4 * |rs|)
  {
    hide CL.SteadyWithin, ED.Servable, Sequenced, UniqueIds, Loaded, Book;
    CL.LoadedSteady(t, rs);
    ED.LoadedSequenced(t, rs);
    LoadedQuiet(t, rs);
  }

  lemma NextIsLater<T(!new)>(x: Setup<T>, w: World<T>, e: Ev, w': World<T>, last: Ev)
    requires Behind(last, w.core.sim) && Turns(x)(w, e, w')
    ensures Before(last, e)
  {
    hide Serve;
  }

  /** With a timely transfer model events come out in strict order of (time, sequence number), and the clock shows the
      time of the event just handled; the shipped models are timely, see below. */
  lemma EventOrder<T(!new)>(t: Topology, rs: seq<Request>, x: Setup<T>, worlds: seq<World<T>>, events: seq<Ev>,
                            i: nat, j: nat)
    requires ED.Servable(t, rs) && UniqueIds(rs) && 4 * |rs| < MAX64 && CL.Timely(x)
    requires IsTrace(Turns(x), worlds, events) && worlds[0].core == Loaded(t, rs) && i < j <= |events|
    ensures j < |events| ==> Before(events[i], events[j])
    ensures worlds[i+1].core.Now() == events[i].time
  {
    hide Turns, Numbering, ED.Servable, CL.Timely, UniqueIds, Behind, Loaded, Book;
    LoadedNumbering(t, rs);
    RunBehind(x, worlds, events, i, j, Book(rs), 4 * |rs|);
    if j < |events| {
      NextIsLater(x, worlds[j], events[j], worlds[j+1], events[i]);
    }
  }

  // ---- the shipped transfer models ----

  function FinishOf(e: Option<Transfer.TransferEstimate>): Option<u64> {
    match e case Some(v) => Some(v.finish) case None => None
  }

  /** Transfers are estimated by the queued model, whose state is the time the NIC becomes free. */
  ghost predicate UsesQueue(x: Setup<u64>, links: Transfer.Links) {
    forall busy: u64, now: u64, p, bytes: u64 ::
      var q := Transfer.Queued(links, busy, now, p, bytes); x.estimate(busy, now, p, bytes) == (q.1, FinishOf(q.0))
  }

  /** Transfers are estimated by the calibration table with its analytical fallback; there is no state. */
  ghost predicate UsesTable(x: Setup<()>, table: map<(Transfer.Path, u64), u64>, links: Transfer.Links) {
    forall now: u64, p, bytes: u64 ::
      x.estimate((), now, p, bytes) == ((), FinishOf(Transfer.Calibrated(table, links, now, p, bytes)))
  }

  lemma QueueIsTimely(x: Setup<u64>, links: Transfer.Links)
    requires UsesQueue(x, links)
    ensures CL.Timely(x)
  {
    hide Transfer.Queued;
    forall busy: u64, now: u64, p, bytes: u64 | x.estimate(busy, now, p, bytes).1.Some?
      ensures now <= x.estimate(busy, now, p, bytes).1.value
    {
      Transfer.FinishNotBeforeNow(map[], links, busy, now, p, bytes);
    }
  }

  lemma TableIsTimely(x: Setup<()>, table: map<(Transfer.Path, u64), u64>, links: Transfer.Links)
    requires UsesTable(x, table, links)
    ensures CL.Timely(x)
  {
    hide Transfer.Calibrated;
    forall t: (), now: u64, p, bytes: u64 | x.estimate(t, now, p, bytes).1.Some?
      ensures now <= x.estimate(t, now, p, bytes).1.value
    {
      assert t == ();
      Transfer.FinishNotBeforeNow(table, links, 0, now, p, bytes);
    }
  }
}
