/** Runs of a state machine given by two functions: which steps a state allows, and where they
    lead. A walk is a run together with the states it passes through. */
module Walks {

  /** The state after a run, whether possible or not. */
  function After<S, L>(next: (S, L) -> S, s: S, steps: seq<L>): S {
    if steps == [] then s else next(After(next, s, steps[..|steps| - 1]), steps[|steps| - 1])
  }

  /** Every step of the run is allowed where it is taken. */
  predicate Possible<S, L>(can: (S, L) -> bool, next: (S, L) -> S, s: S, steps: seq<L>) {
    steps != [] ==>
      var front := steps[..|steps| - 1];
      Possible(can, next, s, front) && can(After(next, s, front), steps[|steps| - 1])
  }

  datatype Walk<S, L> = Walk(steps: seq<L>, states: seq<S>)

  function Start<S, L>(w: Walk<S, L>): S
    requires w.states != []
  {
    w.states[0]
  }

  function End<S, L>(w: Walk<S, L>): S
    requires w.states != []
  {
    w.states[|w.states| - 1]
  }

  ghost predicate Valid<S, L>(can: (S, L) -> bool, next: (S, L) -> S, w: Walk<S, L>) {
    && |w.states| == |w.steps| + 1
    && (forall i {:trigger w.steps[i]} :: 0 <= i < |w.steps| ==>
          can(w.states[i], w.steps[i]) && w.states[i + 1] == next(w.states[i], w.steps[i]))
  }

  lemma {:induction false} LeadsTo<S, L>(can: (S, L) -> bool, next: (S, L) -> S, w: Walk<S, L>, n: nat)
    requires Valid(can, next, w) && n <= |w.steps|
    ensures Possible(can, next, Start(w), w.steps[..n]) && After(next, Start(w), w.steps[..n]) == w.states[n]
  {
    if n == 0 {
    } else {
      LeadsTo(can, next, w, n - 1);
      assert w.steps[..n][..n - 1] == w.steps[..n - 1];
      assert w.steps[..n][n - 1] == w.steps[n - 1];
    }
  }

  /** A walk is a possible run, and leads to its last state. */
  lemma Leads<S, L>(can: (S, L) -> bool, next: (S, L) -> S, w: Walk<S, L>)
    requires Valid(can, next, w)
    ensures Possible(can, next, Start(w), w.steps) && After(next, Start(w), w.steps) == End(w)
  {
    LeadsTo(can, next, w, |w.steps|);
    assert w.steps[..|w.steps|] == w.steps;
  }

  /** A walk goes on by any step that its last state allows. */
  lemma Onward<S, L>(can: (S, L) -> bool, next: (S, L) -> S, w: Walk<S, L>, step: L) returns (w': Walk<S, L>)
    requires Valid(can, next, w) && can(End(w), step)
    ensures Valid(can, next, w') && w'.steps == w.steps + [step]
    ensures Start(w') == Start(w) && End(w') == next(End(w), step)
  {
    w' := Walk(w.steps + [step], w.states + [next(End(w), step)]);
    assert forall i {:trigger w'.steps[i]} :: 0 <= i < |w.steps| ==>
      w'.steps[i] == w.steps[i] && w'.states[i] == w.states[i] && w'.states[i + 1] == w.states[i + 1];
  }
}
