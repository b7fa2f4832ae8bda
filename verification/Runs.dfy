/** Runs of a step machine. */
module Runs {
  import opened Text

  /** The state after a run, if `step` allows each of its actions in turn. */
  function After<S, A>(step: (S, A) -> Option<S>, s: S, run: seq<A>): Option<S> {
    if run == [] then Some(s)
    else
      match After(step, s, run[..|run| - 1])
      case None => None
      case Some(u) => step(u, run[|run| - 1])
  }

  lemma AfterOne<S, A>(step: (S, A) -> Option<S>, s: S, a: A)
    ensures After(step, s, [a]) == step(s, a)
  {
    assert [a][..0] == [] && After(step, s, [a][..0]) == Some(s);
  }

  lemma AfterThen<S, A>(step: (S, A) -> Option<S>, s: S, run: seq<A>, a: A)
    requires After(step, s, run).Some?
    ensures After(step, s, run + [a]) == step(After(step, s, run).value, a)
  {
    assert (run + [a])[..|run|] == run;
  }

  lemma {:induction false} AfterConcat<S, A>(step: (S, A) -> Option<S>, s: S, a: seq<A>, b: seq<A>)
    requires After(step, s, a).Some?
    ensures After(step, s, a + b) == After(step, After(step, s, a).value, b)
  {
    if b == [] {
      assert a + b == a;
    } else {
      AfterConcat(step, s, a, b[..|b| - 1]);
      assert (a + b)[..|a + b| - 1] == a + b[..|b| - 1];
    }
  }

  /** What every step keeps, every run keeps. */
  lemma {:induction false} Keeps<S(!new), A(!new)>(step: (S, A) -> Option<S>, inv: S -> bool, s: S, run: seq<A>)
    requires inv(s) && After(step, s, run).Some?
    requires forall u, a :: inv(u) && step(u, a).Some? ==> inv(step(u, a).value)
    ensures inv(After(step, s, run).value)
  {
    if run == [] {
    } else {
      Keeps(step, inv, s, run[..|run| - 1]);
    }
  }

  /** A run whose states are spelled out. */
  lemma {:induction false} Through<S, A>(step: (S, A) -> Option<S>, states: seq<S>, run: seq<A>)
    requires |states| == |run| + 1
    requires forall k :: 0 <= k < |run| ==> step(states[k], run[k]) == Some(states[k + 1])
    ensures After(step, states[0], run) == Some(states[|run|])
  {
    if run == [] {
    } else {
      Through(step, states[..|run|], run[..|run| - 1]);
    }
  }
}
