/** Runs of a transition system given by a total step function and an enabledness condition: the
    states passed through, and the events in between. */
module Runs {

  ghost predicate IsRun<S, E>(enabled: (S, E) -> bool, step: (S, E) -> S, init: S, run: seq<S>, es: seq<E>) {
    && |run| == |es| + 1 && run[0] == init
    && forall i {:trigger es[i]} | 0 <= i < |es| :: enabled(run[i], es[i]) && run[i + 1] == step(run[i], es[i])
  }

  ghost predicate Inductive<S(!new), E(!new)>(enabled: (S, E) -> bool, step: (S, E) -> S, inv: S -> bool) {
    forall s, e :: inv(s) && enabled(s, e) ==> inv(step(s, e))
  }

  // What one step keeps, every state of a run has.
  lemma {:induction false} Invariance<S(!new), E(!new)>(
      enabled: (S, E) -> bool, step: (S, E) -> S, inv: S -> bool, init: S, run: seq<S>, es: seq<E>, n: nat)
    requires Inductive(enabled, step, inv) && inv(init)
    requires IsRun(enabled, step, init, run, es) && n <= |es|
    ensures inv(run[n])
  {
    if n > 0 {
      Invariance(enabled, step, inv, init, run, es, n - 1);
      assert enabled(run[n - 1], es[n - 1]);
    }
  }

  // A run of one enabled event.
  lemma Single<S, E>(enabled: (S, E) -> bool, step: (S, E) -> S, s: S, e: E)
    requires enabled(s, e)
    ensures IsRun(enabled, step, s, [s, step(s, e)], [e])
  {
  }

  // A run continues with any enabled event.
  lemma Continue<S, E>(enabled: (S, E) -> bool, step: (S, E) -> S, init: S, run: seq<S>, es: seq<E>, e: E)
    requires IsRun(enabled, step, init, run, es) && enabled(run[|es|], e)
    ensures IsRun(enabled, step, init, run + [step(run[|es|], e)], es + [e])
  {
  }

  // A prefix of a run is a run, and a run continues with any run from its last state.
  lemma Resume<S, E>(enabled: (S, E) -> bool, step: (S, E) -> S, init: S, run: seq<S>, es: seq<E>, n: nat,
                     run': seq<S>, es': seq<E>)
    requires IsRun(enabled, step, init, run, es) && n <= |es| && IsRun(enabled, step, run[n], run', es')
    ensures IsRun(enabled, step, init, run[..n] + run', es[..n] + es')
  {
  }

  // What follows the first event of a run is a run.
  lemma Tail<S, E>(enabled: (S, E) -> bool, step: (S, E) -> S, init: S, run: seq<S>, es: seq<E>)
    requires IsRun(enabled, step, init, run, es) && es != []
    ensures enabled(init, es[0]) && run[1] == step(init, es[0])
    ensures IsRun(enabled, step, run[1], run[1..], es[1..])
  {
    assert enabled(run[0], es[0]);
    forall i | 0 <= i < |es[1..]|
      ensures enabled(run[1..][i], es[1..][i]) && run[1..][i + 1] == step(run[1..][i], es[1..][i])
    {
      assert es[1..][i] == es[i + 1];
    }
  }
}
