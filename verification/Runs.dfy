/** Runs of a state machine: the state after any sequence of its steps. */
module Runs {

  ghost function After<S, T>(exec: (S, T) -> S, s: S, steps: seq<T>): S {
    if steps == [] then s else exec(After(exec, s, steps[..|steps| - 1]), steps[|steps| - 1])
  }

  lemma AfterOne<S, T>(exec: (S, T) -> S, s: S, steps: seq<T>, step: T)
    ensures After(exec, s, steps + [step]) == exec(After(exec, s, steps), step)
  {
    assert (steps + [step])[..|steps|] == steps;
  }

  /** What the start satisfies and every step keeps holds after every run. */
  lemma {:induction false} KeptByRuns<S(!new), T(!new)>(exec: (S, T) -> S, inv: S -> bool, s: S, steps: seq<T>)
    requires inv(s) && forall t: S, step: T :: inv(t) ==> inv(exec(t, step))
    ensures inv(After(exec, s, steps))
    decreases |steps|
  {
    if steps != [] { KeptByRuns(exec, inv, s, steps[..|steps| - 1]); }
  }

  ghost predicate Reaches<S(!new), T(!new)>(exec: (S, T) -> S, s: S, t: S) {
    exists steps: seq<T> :: After(exec, s, steps) == t
  }

  lemma ReachesSelf<S(!new), T(!new)>(exec: (S, T) -> S, s: S)
    ensures Reaches(exec, s, s)
  {
    assert After(exec, s, []) == s;
  }

  lemma ReachesNext<S(!new), T(!new)>(exec: (S, T) -> S, s: S, t: S, step: T)
    requires Reaches(exec, s, t)
    ensures Reaches(exec, s, exec(t, step))
  {
    var steps: seq<T> :| After(exec, s, steps) == t;
    AfterOne(exec, s, steps, step);
    assert After(exec, s, steps + [step]) == exec(t, step);
  }

  lemma {:induction false} AfterMore<S, T>(exec: (S, T) -> S, s: S, steps: seq<T>, more: seq<T>)
    ensures After(exec, s, steps + more) == After(exec, After(exec, s, steps), more)
    decreases |more|
  {
    if more == [] {
      assert steps + more == steps;
    } else {
      var init := more[..|more| - 1];
      assert steps + more == (steps + init) + [more[|init|]];
      AfterOne(exec, s, steps + init, more[|init|]);
      AfterMore(exec, s, steps, init);
    }
  }

  lemma ReachesOn<S(!new), T(!new)>(exec: (S, T) -> S, s: S, t: S, u: S)
    requires Reaches(exec, s, t) && Reaches(exec, t, u)
    ensures Reaches(exec, s, u)
  {
    var steps: seq<T> :| After(exec, s, steps) == t;
    var more: seq<T> :| After(exec, t, more) == u;
    AfterMore(exec, s, steps, more);
    assert After(exec, s, steps + more) == u;
  }
}
