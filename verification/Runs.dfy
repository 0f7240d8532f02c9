/** Finite runs of a deterministic step function, and induction over them. */
module Runs {
  import opened Options

  ghost predicate CanRun<S, E>(step: (S, E) -> Option<S>, s: S, es: seq<E>)
    decreases |es|
  {
    es == [] || (step(s, es[0]).Some? && CanRun(step, step(s, es[0]).value, es[1..]))
  }

  ghost function After<S, E>(step: (S, E) -> Option<S>, s: S, es: seq<E>): S
    requires CanRun(step, s, es)
    decreases |es|
  {
    if es == [] then s else After(step, step(s, es[0]).value, es[1..])
  }

  /** What every step keeps holds after every run. */
  lemma {:induction false} Invariance<S(!new), E(!new)>(step: (S, E) -> Option<S>, inv: S -> bool, s: S, es: seq<E>)
    requires CanRun(step, s, es) && inv(s)
    requires forall s, e :: inv(s) && step(s, e).Some? ==> inv(step(s, e).value)
    ensures inv(After(step, s, es))
    decreases |es|
  {
    if es != [] {
      Invariance(step, inv, step(s, es[0]).value, es[1..]);
    }
  }

  lemma {:induction false} Concatenation<S, E>(step: (S, E) -> Option<S>, s: S, a: seq<E>, b: seq<E>)
    requires CanRun(step, s, a) && CanRun(step, After(step, s, a), b)
    ensures CanRun(step, s, a + b) && After(step, s, a + b) == After(step, After(step, s, a), b)
    decreases |a|
  {
    if a == [] {
      assert a + b == b;
    } else {
      Concatenation(step, step(s, a[0]).value, a[1..], b);
      assert (a + b)[0] == a[0] && (a + b)[1..] == a[1..] + b;
    }
  }

  /** A run of one step. */
  lemma OneStep<S, E>(step: (S, E) -> Option<S>, s: S, e: E)
    requires step(s, e).Some?
    ensures CanRun(step, s, [e]) && After(step, s, [e]) == step(s, e).value
  {
    assert [e][1..] == [];
  }

  /** The last step of a run. */
  lemma {:induction false} LastStep<S, E>(step: (S, E) -> Option<S>, s: S, es: seq<E>)
    requires CanRun(step, s, es) && es != []
    ensures CanRun(step, s, es[..|es| - 1])
    ensures var mid := After(step, s, es[..|es| - 1]);
      step(mid, es[|es| - 1]).Some? && After(step, s, es) == step(mid, es[|es| - 1]).value
    decreases |es|
  {
    if |es| > 1 {
      LastStep(step, step(s, es[0]).value, es[1..]);
      assert es[..|es| - 1][1..] == es[1..][..|es| - 2];
    } else {
      assert es[..0] == [] && es[1..] == [];
    }
  }

  /** A quantity every step lowers bounds the length of runs. */
  lemma {:induction false} MeasureBoundsRuns<S(!new), E(!new)>(step: (S, E) -> Option<S>, inv: S -> bool, measure: S -> nat, s: S, es: seq<E>)
    requires CanRun(step, s, es) && inv(s)
    requires forall s, e :: inv(s) && step(s, e).Some? ==> inv(step(s, e).value) && measure(step(s, e).value) < measure(s)
    ensures inv(After(step, s, es)) && |es| + measure(After(step, s, es)) <= measure(s)
    decreases |es|
  {
    if es != [] {
      MeasureBoundsRuns(step, inv, measure, step(s, es[0]).value, es[1..]);
    }
  }
}
