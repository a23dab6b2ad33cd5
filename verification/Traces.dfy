/**
 Runs of any machine whose steps are functions: one run after another is a run.
 */
module Traces {

  ghost predicate Runs<S, E>(ok: (S, E) -> bool, next: (S, E) -> S, s: S, es: seq<E>)
    decreases |es|
  {
    es == [] || (ok(s, es[0]) && Runs(ok, next, next(s, es[0]), es[1..]))
  }

  ghost function End<S, E>(next: (S, E) -> S, s: S, es: seq<E>): S
    decreases |es|
  {
    if es == [] then s else End(next, next(s, es[0]), es[1..])
  }

  lemma {:induction false} RunsJoin<S, E>(ok: (S, E) -> bool, next: (S, E) -> S, s: S, a: seq<E>, b: seq<E>)
    requires Runs(ok, next, s, a) && Runs(ok, next, End(next, s, a), b)
    ensures Runs(ok, next, s, a + b) && End(next, s, a + b) == End(next, End(next, s, a), b)
    decreases |a|
  {
    if a == [] {
      assert a + b == b;
    } else {
      RunsJoin(ok, next, next(s, a[0]), a[1..], b);
      assert (a + b)[1..] == a[1..] + b;
    }
  }
}
