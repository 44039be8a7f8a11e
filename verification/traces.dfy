/** Runs as the sequences of states they go through. */
module Traces {
  /** Event number `k` leads from state number `k` to the next. */
  predicate StepAt<S, E>(next: (S, E, S) -> bool, ss: seq<S>, es: seq<E>, k: nat) {
    k < |es| && |ss| == |es| + 1 && next(ss[k], es[k], ss[k + 1])
  }

  /** `ss` are the states a run of `es` goes through. */
  predicate IsTrace<S, E>(next: (S, E, S) -> bool, ss: seq<S>, es: seq<E>) {
    |ss| == |es| + 1 && forall k: nat :: k < |es| ==> StepAt(next, ss, es, k)
  }

  /** A trace that begins one event earlier. */
  lemma OneStepEarlier<S, E>(next: (S, E, S) -> bool, s: S, e: E, ss: seq<S>, es: seq<E>)
    requires IsTrace(next, ss, es) && next(s, e, ss[0])
    ensures IsTrace(next, [s] + ss, [e] + es)
  {
    forall k: nat | k < |[e] + es| ensures StepAt(next, [s] + ss, [e] + es, k) {
      if k > 0 {
        assert StepAt(next, ss, es, k - 1);
        assert ([s] + ss)[k] == ss[k - 1] && ([s] + ss)[k + 1] == ss[k] && ([e] + es)[k] == es[k - 1];
      }
    }
  }
}
