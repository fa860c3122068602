/** Runs of a transition relation: the states visited and the events between them. */
module Traces {

  ghost predicate IsTrace<S(!new), E(!new)>(step: (S, E, S) -> bool, states: seq<S>, events: seq<E>) {
    && |states| == |events| + 1
    && forall i {:trigger events[i]} | 0 <= i < |events| :: step(states[i], events[i], states[i+1])
  }

  lemma TraceStep<S(!new), E(!new)>(step: (S, E, S) -> bool, states: seq<S>, events: seq<E>, i: nat)
    requires IsTrace(step, states, events) && i < |events|
    ensures |states| == |events| + 1 && step(states[i], events[i], states[i+1])
  {}

  lemma TraceGrows<S(!new), E(!new)>(step: (S, E, S) -> bool, states: seq<S>, events: seq<E>, e: E, s: S)
    requires IsTrace(step, states, events) && step(states[|events|], e, s)
    ensures IsTrace(step, states + [s], events + [e])
    ensures (states + [s])[0] == states[0] && (states + [s])[|events + [e]|] == s
  {}
}
