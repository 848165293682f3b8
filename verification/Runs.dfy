/** Runs of a step system and the rule that an inductive invariant holds in every reachable state. */
module Runs {

  /** A finite execution: it starts in an initial state and every adjacent pair is one step. */
  ghost predicate IsRun<S(!new)>(init: S -> bool, next: (S, S) -> bool, run: seq<S>) {
    && 0 < |run|
    && init(run[0])
    && forall i, j :: 0 <= i < j < |run| && j == i + 1 ==> next(run[i], run[j])
  }

  ghost predicate Reachable<S(!new)>(init: S -> bool, next: (S, S) -> bool, s: S) {
    exists run: seq<S> :: IsRun(init, next, run) && run[|run| - 1] == s
  }

  lemma {:induction false} InvariantAlongRun<S(!new)>(init: S -> bool, next: (S, S) -> bool, inv: S -> bool,
                                                       run: seq<S>)
    requires IsRun(init, next, run)
    requires forall s :: init(s) ==> inv(s)
    requires forall s, t :: inv(s) && next(s, t) ==> inv(t)
    ensures inv(run[|run| - 1])
  {
    if |run| > 1 {
      var shorter := run[..|run| - 1];
      InvariantAlongRun(init, next, inv, shorter);
      assert next(run[|run| - 2], run[|run| - 1]);
    }
  }

  lemma InvariantIfReachable<S(!new)>(init: S -> bool, next: (S, S) -> bool, inv: S -> bool, s: S)
    requires Reachable(init, next, s)
    requires forall a :: init(a) ==> inv(a)
    requires forall a, b :: inv(a) && next(a, b) ==> inv(b)
    ensures inv(s)
  {
    var run: seq<S> :| IsRun(init, next, run) && run[|run| - 1] == s;
    InvariantAlongRun(init, next, inv, run);
  }

  /** A state that is one step away from a reachable state is reachable. */
  lemma ReachableStep<S(!new)>(init: S -> bool, next: (S, S) -> bool, s: S, t: S)
    requires Reachable(init, next, s)
    requires next(s, t)
    ensures Reachable(init, next, t)
  {
    var run: seq<S> :| IsRun(init, next, run) && run[|run| - 1] == s;
    var longer := run + [t];
    assert IsRun(init, next, longer);
    assert longer[|longer| - 1] == t;
  }

  lemma ReachableInit<S(!new)>(init: S -> bool, next: (S, S) -> bool, s: S)
    requires init(s)
    ensures Reachable(init, next, s)
  {
    var run := [s];
    assert IsRun(init, next, run) && run[|run| - 1] == s;
  }

  // ---- what a state can still become ----

  /** Some finite run of steps, possibly none, leads from `s` to `t`. */
  ghost predicate Leads<S(!new)>(next: (S, S) -> bool, s: S, t: S) {
    Reachable((a: S) => a == s, next, t)
  }

  lemma LeadsNowhere<S(!new)>(next: (S, S) -> bool, s: S)
    ensures Leads(next, s, s)
  {
    ReachableInit((a: S) => a == s, next, s);
  }

  lemma LeadsStep<S(!new)>(next: (S, S) -> bool, s: S, t: S, u: S)
    requires Leads(next, s, t) && next(t, u)
    ensures Leads(next, s, u)
  {
    ReachableStep((a: S) => a == s, next, t, u);
  }

  /** What every step keeps, every run keeps. */
  lemma KeptIfLeads<S(!new)>(next: (S, S) -> bool, inv: S -> bool, s: S, t: S)
    requires Leads(next, s, t) && inv(s)
    requires forall a, b :: inv(a) && next(a, b) ==> inv(b)
    ensures inv(t)
  {
    InvariantIfReachable((a: S) => a == s, next, inv, t);
  }
}
