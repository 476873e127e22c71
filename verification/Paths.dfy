/** Runs of a state machine given by its step function. */
module Paths {

  /** Each state of the trace follows from the one before by its step. */
  ghost predicate IsPath<S, T>(next: (S, T) -> S, trace: seq<S>, steps: seq<T>) {
    |trace| == |steps| + 1
    && forall i {:trigger steps[i]} :: 0 <= i < |steps| ==> trace[i + 1] == next(trace[i], steps[i])
  }

  /** Some sequence of steps leads from one state to the other. */
  ghost predicate Leads<S(!new), T(!new)>(next: (S, T) -> S, s: S, t: S) {
    exists trace: seq<S>, steps: seq<T> :: IsPath(next, trace, steps) && trace[0] == s && trace[|steps|] == t
  }

  lemma LeadsStart<S(!new), T(!new)>(next: (S, T) -> S, s: S)
    ensures Leads(next, s, s)
  {
    var trace, steps: seq<T> := [s], [];
    assert IsPath(next, trace, steps);
  }

  lemma LeadsOn<S(!new), T(!new)>(next: (S, T) -> S, s: S, t: S, step: T)
    requires Leads(next, s, t)
    ensures Leads(next, s, next(t, step))
  {
    var trace: seq<S>, steps: seq<T> :| IsPath(next, trace, steps) && trace[0] == s && trace[|steps|] == t;
    PathAppend(next, trace, steps, step);
    var longer, more := trace + [next(t, step)], steps + [step];
    assert longer[0] == s && longer[|more|] == next(t, step);
  }

  lemma PathAppend<S, T>(next: (S, T) -> S, trace: seq<S>, steps: seq<T>, step: T)
    requires IsPath(next, trace, steps)
    ensures IsPath(next, trace + [next(trace[|steps|], step)], steps + [step])
  {
    var longer, more := trace + [next(trace[|steps|], step)], steps + [step];
    forall i {:trigger more[i]} | 0 <= i < |more| ensures longer[i + 1] == next(longer[i], more[i]) {
      if i < |steps| { assert more[i] == steps[i] && longer[i] == trace[i] && longer[i + 1] == trace[i + 1]; }
    }
  }

  lemma LeadsTransitive<S(!new), T(!new)>(next: (S, T) -> S, a: S, b: S, c: S)
    requires Leads(next, a, b) && Leads(next, b, c)
    ensures Leads(next, a, c)
  {
    var trace: seq<S>, steps: seq<T> :| IsPath(next, trace, steps) && trace[0] == b && trace[|steps|] == c;
    LeadsAlong(next, a, trace, steps, |steps|);
  }

  lemma {:induction false} LeadsAlong<S(!new), T(!new)>(next: (S, T) -> S, a: S, trace: seq<S>, steps: seq<T>, n: nat)
    requires IsPath(next, trace, steps) && n <= |steps| && Leads(next, a, trace[0])
    ensures Leads(next, a, trace[n])
    decreases n
  {
    if n > 0 {
      LeadsAlong(next, a, trace, steps, n - 1);
      LeadsOn(next, a, trace[n - 1], steps[n - 1]);
      assert trace[n] == next(trace[n - 1], steps[n - 1]);
    }
  }
}
