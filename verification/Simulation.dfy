/** The discrete-event core: timestamped events, the pending queue and the clock (src/core/event.rs,
    src/core/simulator.rs). */
module Simulation {
  import opened Numbers

  datatype Event<T> = Event(time: u64, seqNo: u64, kind: T)

  /** `Ord for Event` reversed: the order in which the heap hands events out. */
  predicate Before<T>(a: Event<T>, b: Event<T>) {
    a.time < b.time || (a.time == b.time && a.seqNo < b.seqNo)
  }

  ghost predicate Earliest<T>(e: Event<T>, pending: set<Event<T>>) {
    e in pending && forall f | f in pending :: !Before(f, e)
  }

  lemma {:induction false} EarliestExists<T>(pending: set<Event<T>>)
    requires pending != {}
    ensures exists e :: e in pending && Earliest(e, pending)
    decreases |pending|
  {
    var x :| x in pending;
    if pending == {x} {
      assert Earliest(x, pending);
    } else {
      var rest := pending - {x};
      EarliestExists(rest);
      var y :| y in rest && Earliest(y, rest);
      if Before(x, y) {
        forall f | f in pending ensures !Before(f, x) {
          if f != x { assert f in rest; }
        }
        assert Earliest(x, pending);
      } else {
        forall f | f in pending ensures !Before(f, y) {
          if f != x { assert f in rest; }
        }
        assert Earliest(y, pending);
      }
    }
  }

  /** The value of a simulator: clock, pending events, next sequence number. */
  datatype Sim<T(==)> = Sim(now: u64, pending: set<Event<T>>, nextSeq: u64)

  function NewSim<T(==)>(): Sim<T> {
    Sim(0, {}, 0)
  }

  function Scheduled<T(==)>(s: Sim<T>, time: u64, kind: T): Sim<T> {
    Sim(s.now, s.pending + {Event(time, s.nextSeq, kind)}, SatAdd(s.nextSeq, 1))
  }

  /** Taking `e` out and moving the clock to it; the clock never runs backwards. */
  function Popped<T(==)>(s: Sim<T>, e: Event<T>): Sim<T> {
    Sim(Later(s.now, e.time), s.pending - {e}, s.nextSeq)
  }

  /** `b` is `a` after some further scheduling, none of it into the past; each new event takes one number. */
  ghost predicate Extends<T(!new)>(a: Sim<T>, b: Sim<T>) {
    && b.now == a.now
    && a.pending <= b.pending
    && a.nextSeq <= b.nextSeq && b.nextSeq + |a.pending| <= a.nextSeq + |b.pending|
    && (forall e | e in b.pending && e !in a.pending :: a.now <= e.time && a.nextSeq <= e.seqNo)
    && (Sequenced(a) && b.nextSeq < MAX64 ==> Sequenced(b))
  }

  /** Sequence numbers are below the counter and name one event each. */
  ghost predicate Sequenced<T(!new)>(s: Sim<T>) {
    && (forall e | e in s.pending :: e.seqNo < s.nextSeq)
    && (forall e, f | e in s.pending && f in s.pending && e.seqNo == f.seqNo :: e == f)
  }

  lemma ScheduledExtends<T(!new)>(s: Sim<T>, time: u64, kind: T)
    requires s.now <= time && Event(time, s.nextSeq, kind) !in s.pending
    ensures Extends(s, Scheduled(s, time, kind))
  {}

  lemma ExtendsTransitive<T(!new)>(a: Sim<T>, b: Sim<T>, c: Sim<T>)
    requires Extends(a, b) && Extends(b, c)
    ensures Extends(a, c)
  {
    forall e | e in c.pending && e !in a.pending
      ensures a.now <= e.time && a.nextSeq <= e.seqNo
    {
      if e in b.pending {}
    }
  }

  /** Each turn hands out one number per event it adds, so the counter stays within what has been handled (`i` events
      so far) or is pending, and numbers stay unique until it saturates. */
  lemma NumbersStayUnique<T(!new)>(s: Sim<T>, e: Event<T>, after: Sim<T>, i: nat)
    requires Sequenced(s) && s.nextSeq <= i + |s.pending| && e in s.pending
    requires Extends(Popped(s, e), after) && i + 1 + |after.pending| < MAX64
    ensures Sequenced(after) && after.nextSeq <= i + 1 + |after.pending|
  {
    assert |s.pending - {e}| == |s.pending| - 1;
    assert Sequenced(Popped(s, e));
  }

  /** `last` has been handled and everything pending comes after it. */
  ghost predicate Behind<T(!new)>(last: Event<T>, s: Sim<T>) {
    && (forall f | f in s.pending :: Before(last, f))
    && last.time <= s.now && last.seqNo < s.nextSeq
  }

  /** One turn of the loop: pop the earliest event, then run a handler that schedules nothing into the past. */
  lemma PopOvertakes<T(!new)>(s: Sim<T>, e: Event<T>, after: Sim<T>)
    requires Sequenced(s) && Earliest(e, s.pending) && e in s.pending && s.now <= e.time
    requires Extends(Popped(s, e), after)
    ensures Behind(e, after) && after.now == e.time
  {
    forall f | f in after.pending ensures Before(e, f) {
      if f in s.pending { assert f != e; }
    }
  }

  lemma BehindStays<T(!new)>(last: Event<T>, s: Sim<T>, e: Event<T>, after: Sim<T>)
    requires Sequenced(s) && Behind(last, s) && Extends(Popped(s, e), after)
    ensures Behind(last, after)
  {
    forall f | f in after.pending ensures Before(last, f) {
      if f !in s.pending {
        assert f !in Popped(s, e).pending;
      }
    }
  }

  /** `EventQueue`: the heap is a set; a pop hands out any event no other is ahead of. */
  class EventQueue<T(==, !new)> {
    var pending: set<Event<T>>
    var nextSeq: u64

    constructor ()
      ensures pending == {} && nextSeq == 0
    {
      pending := {};
      nextSeq := 0;
    }

    method Schedule(time: u64, kind: T)
      modifies this
      ensures pending == old(pending) + {Event(time, old(nextSeq), kind)}
      ensures nextSeq == SatAdd(old(nextSeq), 1)
    {
      var seqNo := nextSeq;
      nextSeq := SatAdd(nextSeq, 1);
      pending := pending + {Event(time, seqNo, kind)};
    }

    method Pop() returns (e: Option<Event<T>>)
      modifies this
      ensures e.None? <==> old(pending) == {}
      ensures e.None? ==> pending == {}
      ensures e.Some? ==> Earliest(e.value, old(pending)) && pending == old(pending) - {e.value}
      ensures nextSeq == old(nextSeq)
    {
      if pending == {} {
        return None;
      }
      EarliestExists(pending);
      var first :| first in pending && forall f | f in pending :: !Before(f, first);
      pending := pending - {first};
      return Some(first);
    }
  }

  /** `Simulator`: the queue plus the clock. */
  class Simulator<T(==, !new)> {
    var now: u64
    const queue: EventQueue<T>

    ghost function State(): Sim<T>
      reads this, queue
    {
      Sim(now, queue.pending, queue.nextSeq)
    }

    constructor ()
      ensures State() == NewSim() && fresh(queue)
    {
      now := 0;
      queue := new EventQueue<T>();
    }

    method Schedule(time: u64, kind: T)
      modifies queue
      ensures State() == Scheduled(old(State()), time, kind)
    {
      queue.Schedule(time, kind);
    }

    method Step() returns (e: Option<Event<T>>)
      modifies this, queue
      ensures e.None? <==> old(State()).pending == {}
      ensures e.None? ==> State() == old(State())
      ensures e.Some? ==> Earliest(e.value, old(State()).pending) && State() == Popped(old(State()), e.value)
    {
      e := queue.Pop();
      if e.Some? {
        now := Later(now, e.value.time);
      }
    }
  }
}
