/** Runs of a state machine given by its steps. */
module Runs {
  ghost predicate IsRunOf<S(!new), A(!new)>(step: (S, A, S) -> bool, run: seq<S>, actions: seq<A>) {
    |run| == |actions| + 1 && forall i | 0 <= i < |actions| :: step(run[i], actions[i], run[i + 1])
  }

  /** Two runs one after the other. */
  lemma Chained<S(!new), A(!new)>(step: (S, A, S) -> bool, a: seq<S>, actions: seq<A>, b: seq<S>, others: seq<A>)
      returns (run: seq<S>)
    requires IsRunOf(step, a, actions) && IsRunOf(step, b, others) && a[|actions|] == b[0]
    ensures IsRunOf(step, run, actions + others) && |run| == |actions + others| + 1
    ensures run[0] == a[0] && run[|actions + others|] == b[|others|]
    ensures forall i | 0 <= i <= |actions| :: run[i] == a[i]
    ensures forall i | 0 <= i <= |others| :: run[|actions| + i] == b[i]
  {
    run := a + b[1..];
    forall i | 0 <= i < |actions + others| ensures step(run[i], (actions + others)[i], run[i + 1]) {
      if i >= |actions| { assert run[i] == b[i - |actions|] && run[i + 1] == b[i + 1 - |actions|]; }
    }
  }
}
