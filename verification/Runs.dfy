/** Runs of a state machine, each state joined to the next by a step; and who holds a lock in it. */
module Runs {

  datatype Holder = Nobody | By(t: nat)

  ghost predicate Linked<S, M>(step: (S, M, S) -> bool, states: seq<S>, moves: seq<M>) {
    && |states| == |moves| + 1
    && forall i {:trigger moves[i]} :: 0 <= i < |moves| ==> step(states[i], moves[i], states[i + 1])
  }

  /** A run goes on with any step from its last state. */
  lemma {:induction false} Extend<S, M>(step: (S, M, S) -> bool, states: seq<S>, moves: seq<M>, m: M, s': S)
    returns (states': seq<S>, moves': seq<M>)
    requires Linked(step, states, moves) && step(states[|states| - 1], m, s')
    ensures Linked(step, states', moves') && states'[0] == states[0] && states'[|states'| - 1] == s'
  {
    states', moves' := states + [s'], moves + [m];
    forall i | 0 <= i < |moves'|
      ensures step(states'[i], moves'[i], states'[i + 1])
    {
      if i < |moves| { assert moves'[i] == moves[i]; }
    }
  }
}
