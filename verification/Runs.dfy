/** Runs of a small-step system: steps taken one after the other, each enabled and allowed where it happens. */
module Runs {

  /** A step is enabled where `next` is defined, and allowed where `ok` says so. */
  ghost predicate IsRun<S, A>(next: (S, A) --> S, s: S, steps: seq<A>, ok: (S, A) -> bool)
    decreases |steps|
  {
    steps == [] ||
    (next.requires(s, steps[0]) && ok(s, steps[0]) && IsRun(next, next(s, steps[0]), steps[1..], ok))
  }

  ghost function Run<S, A>(next: (S, A) --> S, s: S, steps: seq<A>, ok: (S, A) -> bool): S
    requires IsRun(next, s, steps, ok)
    decreases |steps|
  {
    if steps == [] then s else Run(next, next(s, steps[0]), steps[1..], ok)
  }

  predicate AnyStep<S, A>(s: S, step: A) {
    true
  }

  lemma StepThenRun<S, A>(next: (S, A) --> S, s: S, step: A, steps: seq<A>, ok: (S, A) -> bool)
    requires next.requires(s, step) && ok(s, step) && IsRun(next, next(s, step), steps, ok)
    ensures IsRun(next, s, [step] + steps, ok)
    ensures Run(next, s, [step] + steps, ok) == Run(next, next(s, step), steps, ok)
  {
    assert ([step] + steps)[1..] == steps;
  }

  /** Three steps, each allowed where it happens. */
  lemma ThreeSteps<S, A>(next: (S, A) --> S, s: S, a: A, t: S, b: A, u: S, c: A, v: S, ok: (S, A) -> bool)
    requires next.requires(s, a) && ok(s, a) && next(s, a) == t
    requires next.requires(t, b) && ok(t, b) && next(t, b) == u
    requires next.requires(u, c) && ok(u, c) && next(u, c) == v
    ensures IsRun(next, s, [a] + ([b] + ([c] + [])), ok) && Run(next, s, [a] + ([b] + ([c] + [])), ok) == v
  {
    StepThenRun(next, u, c, [], ok);
    StepThenRun(next, t, b, [c] + [], ok);
    StepThenRun(next, s, a, [b] + ([c] + []), ok);
  }

  lemma {:induction false} RunConcat<S, A>(next: (S, A) --> S, s: S, a: seq<A>, b: seq<A>, ok: (S, A) -> bool)
    requires IsRun(next, s, a, ok) && IsRun(next, Run(next, s, a, ok), b, ok)
    ensures IsRun(next, s, a + b, ok) && Run(next, s, a + b, ok) == Run(next, Run(next, s, a, ok), b, ok)
    decreases |a|
  {
    if a == [] {
      assert a + b == b;
    } else {
      RunConcat(next, next(s, a[0]), a[1..], b, ok);
      StepThenRun(next, s, a[0], a[1..] + b, ok);
      assert a + b == [a[0]] + (a[1..] + b);
    }
  }

  /** Some run from `s` ends where `goal` holds. */
  ghost predicate CanReach<S, A(!new)>(next: (S, A) --> S, s: S, ok: (S, A) -> bool, goal: S -> bool) {
    exists steps: seq<A> :: IsRun(next, s, steps, ok) && goal(Run(next, s, steps, ok))
  }

  lemma ReachNow<S, A(!new)>(next: (S, A) --> S, s: S, ok: (S, A) -> bool, goal: S -> bool)
    requires goal(s)
    ensures CanReach(next, s, ok, goal)
  {
    assert IsRun(next, s, [], ok) && Run(next, s, [], ok) == s;
  }

  lemma ReachAfter<S, A(!new)>(next: (S, A) --> S, s: S, steps: seq<A>, ok: (S, A) -> bool, goal: S -> bool)
    requires IsRun(next, s, steps, ok) && CanReach(next, Run(next, s, steps, ok), ok, goal)
    ensures CanReach(next, s, ok, goal)
  {
    var t := Run(next, s, steps, ok);
    var more: seq<A> :| IsRun(next, t, more, ok) && goal(Run(next, t, more, ok));
    RunConcat(next, s, steps, more, ok);
  }

  lemma ReachNext<S, A(!new)>(next: (S, A) --> S, s: S, step: A, ok: (S, A) -> bool, goal: S -> bool)
    requires next.requires(s, step) && ok(s, step) && CanReach(next, next(s, step), ok, goal)
    ensures CanReach(next, s, ok, goal)
  {
    var t := next(s, step);
    var more: seq<A> :| IsRun(next, t, more, ok) && goal(Run(next, t, more, ok));
    StepThenRun(next, s, step, more, ok);
  }

  /** Step `step` is allowed in `s` and leads to `t`. */
  ghost predicate Leads<S, A>(next: (S, A) --> S, s: S, step: A, t: S, ok: (S, A) -> bool) {
    next.requires(s, step) && ok(s, step) && next(s, step) == t
  }

  lemma {:induction false} StatesAreRun<S, A>(next: (S, A) --> S, state: nat -> S, steps: seq<A>, ok: (S, A) -> bool,
                                              i: nat)
    requires i <= |steps|
    requires forall j: nat :: j < |steps| ==> Leads(next, state(j), steps[j], state(j + 1), ok)
    ensures IsRun(next, state(i), steps[i..], ok) && Run(next, state(i), steps[i..], ok) == state(|steps|)
    decreases |steps| - i
  {
    if i < |steps| {
      StatesAreRun(next, state, steps, ok, i + 1);
      assert Leads(next, state(i), steps[i], state(i + 1), ok);
      assert steps[i..][1..] == steps[i + 1..];
    }
  }

  lemma StatesRun<S, A>(next: (S, A) --> S, state: nat -> S, steps: seq<A>, ok: (S, A) -> bool)
    requires forall j: nat :: j < |steps| ==> Leads(next, state(j), steps[j], state(j + 1), ok)
    ensures IsRun(next, state(0), steps, ok) && Run(next, state(0), steps, ok) == state(|steps|)
  {
    StatesAreRun(next, state, steps, ok, 0);
    assert steps[0..] == steps;
  }
}
