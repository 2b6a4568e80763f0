/** Runs of a system that is given by its steps: next(s, a, t) says that action a leads from s to t. */
module Runs {

  /** acts leads from s to t. */
  ghost predicate Run<S(!new), A>(next: (S, A, S) -> bool, s: S, acts: seq<A>, t: S)
    decreases |acts|
  {
    if acts == [] then s == t
    else
      var front, last := acts[..|acts| - 1], acts[|acts| - 1];
      exists m :: Run(next, s, front, m) && next(m, last, t)
  }

  lemma Nothing<S(!new), A>(next: (S, A, S) -> bool, s: S)
    ensures Run(next, s, [], s)
  {
  }

  lemma Then<S(!new), A>(next: (S, A, S) -> bool, s: S, acts: seq<A>, t: S, a: A, u: S)
    requires Run(next, s, acts, t) && next(t, a, u)
    ensures Run(next, s, acts + [a], u)
  {
    assert (acts + [a])[..|acts|] == acts;
  }

  lemma {:induction false} Concat<S(!new), A>(next: (S, A, S) -> bool, s: S, a: seq<A>, t: S, b: seq<A>, u: S)
    requires Run(next, s, a, t) && Run(next, t, b, u)
    ensures Run(next, s, a + b, u)
    decreases |b|
  {
    if b == [] {
      assert a + b == a;
    } else {
      var m :| Run(next, t, b[..|b| - 1], m) && next(m, b[|b| - 1], u);
      Concat(next, s, a, t, b[..|b| - 1], m);
      Then(next, s, a + b[..|b| - 1], m, b[|b| - 1], u);
      assert a + b[..|b| - 1] + [b[|b| - 1]] == a + b;
    }
  }

  /** What every step keeps, every run keeps. */
  lemma {:induction false} Invariant<S(!new), A(!new)>(
    next: (S, A, S) -> bool, kept: S -> bool, s: S, acts: seq<A>, t: S)
    requires forall x, a, y :: kept(x) && next(x, a, y) ==> kept(y)
    requires kept(s) && Run(next, s, acts, t)
    ensures kept(t)
    decreases |acts|
  {
    if acts != [] {
      var m :| Run(next, s, acts[..|acts| - 1], m) && next(m, acts[|acts| - 1], t);
      Invariant(next, kept, s, acts[..|acts| - 1], m);
    }
  }
}
