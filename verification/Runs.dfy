/** Runs of a system of steps, and the induction over them. */
module Runs {

  /** The state after the first `n` steps. */
  function RunTo<S, T>(next: (S, T) -> S, s: S, steps: seq<T>, n: nat): S
    requires n <= |steps|
  {
    if n == 0 then s else next(RunTo(next, s, steps, n - 1), steps[n - 1])
  }

  /** What holds at first and is kept by every step holds after every run. */
  lemma {:induction false} RunKeeps<S(!new), T(!new)>(
      next: (S, T) -> S, inv: S -> bool, s: S, steps: seq<T>, n: nat)
    requires n <= |steps| && inv(s)
    requires forall x, t :: inv(x) ==> inv(next(x, t))
    ensures inv(RunTo(next, s, steps, n))
  {
    if n > 0 {
      RunKeeps(next, inv, s, steps, n - 1);
    }
  }

  lemma {:induction false} RunOfFront<S, T>(next: (S, T) -> S, s: S, a: seq<T>, b: seq<T>, n: nat)
    requires n <= |a|
    ensures RunTo(next, s, a + b, n) == RunTo(next, s, a, n)
  {
    if n > 0 {
      RunOfFront(next, s, a, b, n - 1);
    }
  }

  /** A run in two parts. */
  lemma {:induction false} RunGoesOn<S, T>(next: (S, T) -> S, s: S, a: seq<T>, b: seq<T>, n: nat, m: nat)
    requires n <= |b| && m == |a| + n
    ensures RunTo(next, s, a + b, m) == RunTo(next, RunTo(next, s, a, |a|), b, n)
  {
    if n == 0 {
      RunOfFront(next, s, a, b, |a|);
    } else {
      RunGoesOn(next, s, a, b, n - 1, m - 1);
    }
  }
}
