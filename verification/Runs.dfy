/** Runs of a step machine: a step function over acts, partial where an act is not
    enabled, applied along a sequence of acts. */
module Runs {

  datatype Option<T> = None | Some(value: T)

  function Run<S, A>(step: (S, A) -> Option<S>, s: S, acts: seq<A>): Option<S>
    decreases |acts|
  {
    if acts == [] then Some(s)
    else match step(s, acts[0])
         case None => None
         case Some(n) => Run(step, n, acts[1..])
  }

  lemma {:induction false} Compose<S, A>(step: (S, A) -> Option<S>, s: S, xs: seq<A>, ys: seq<A>)
    requires Run(step, s, xs).Some?
    ensures Run(step, s, xs + ys) == Run(step, Run(step, s, xs).value, ys)
    decreases |xs|
  {
    if xs == [] {
      assert xs + ys == ys;
    } else {
      Compose(step, step(s, xs[0]).value, xs[1..], ys);
      assert (xs + ys)[1..] == xs[1..] + ys;
    }
  }

  /** Somewhere in the run an act is taken of which `p` holds, in the state in which it
      is taken. */
  ghost predicate Happens<S, A>(step: (S, A) -> Option<S>, s: S, acts: seq<A>, p: (S, A) -> bool)
    decreases |acts|
  {
    && acts != [] && step(s, acts[0]).Some?
    && (p(s, acts[0]) || Happens(step, step(s, acts[0]).value, acts[1..], p))
  }

  /** ... and none of which `q` holds is taken after that. */
  ghost predicate Since<S, A>(step: (S, A) -> Option<S>, s: S, acts: seq<A>, p: (S, A) -> bool, q: (S, A) -> bool)
    decreases |acts|
  {
    && acts != [] && step(s, acts[0]).Some?
    && var n := step(s, acts[0]).value;
       (p(s, acts[0]) && !q(s, acts[0]) && !Happens(step, n, acts[1..], q)) || Since(step, n, acts[1..], p, q)
  }

  /** How many acts of the run are of the kind `own`. */
  ghost function Count<A>(acts: seq<A>, own: A -> bool): nat
  {
    if acts == [] then 0 else (if own(acts[0]) then 1 else 0) + Count(acts[1..], own)
  }

  /** Extend a run by one enabled act. */
  lemma Go<S, A>(step: (S, A) -> Option<S>, s: S, acts: seq<A>, n: S, a: A) returns (acts': seq<A>, n': S)
    requires Run(step, s, acts) == Some(n) && step(n, a).Some?
    ensures n' == step(n, a).value && Run(step, s, acts') == Some(n')
  {
    Compose(step, s, acts, [a]);
    assert [a][1..] == [];
    acts', n' := acts + [a], step(n, a).value;
  }

  /** A run is its last act after the run before it. */
  lemma {:induction false} SplitLast<S, A>(step: (S, A) -> Option<S>, s: S, acts: seq<A>)
    requires acts != [] && Run(step, s, acts).Some?
    ensures var before := acts[..|acts| - 1];
      Run(step, s, before).Some? && step(Run(step, s, before).value, acts[|acts| - 1]) == Run(step, s, acts)
    decreases |acts|
  {
    if |acts| > 1 {
      SplitLast(step, step(s, acts[0]).value, acts[1..]);
      assert acts[1..][..|acts| - 2] == acts[..|acts| - 1][1..];
    }
  }
}
