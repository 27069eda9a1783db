/** Runs of a step relation, and induction over them. */
module Runs {

  ghost predicate StepAt<S(!new)>(step: (S, S) -> bool, trace: seq<S>, i: nat)
    requires 0 < i < |trace|
  {
    step(trace[i - 1], trace[i])
  }

  /** A run: a start state followed by any number of steps. */
  ghost predicate Run<S(!new)>(start: S -> bool, step: (S, S) -> bool, trace: seq<S>) {
    trace != [] && start(trace[0]) && forall i :: 0 < i < |trace| ==> StepAt(step, trace, i)
  }

  /** An invariant: it holds at the start and every step keeps it. */
  ghost predicate Inductive<S(!new)>(start: S -> bool, step: (S, S) -> bool, inv: S -> bool) {
    && (forall s :: start(s) ==> inv(s))
    && (forall s, t :: inv(s) && step(s, t) ==> inv(t))
  }

  /** An order that every step from an invariant state follows. */
  ghost predicate Monotone<S(!new)>(step: (S, S) -> bool, inv: S -> bool, grows: (S, S) -> bool) {
    && (forall s :: inv(s) ==> grows(s, s))
    && (forall s, t :: inv(s) && step(s, t) ==> grows(s, t))
    && (forall s, t, u :: grows(s, t) && grows(t, u) ==> grows(s, u))
  }

  lemma {:induction false} RunKeeps<S(!new)>(start: S -> bool, step: (S, S) -> bool, inv: S -> bool,
                                             trace: seq<S>, n: nat)
    requires Run(start, step, trace) && Inductive(start, step, inv) && n < |trace|
    ensures inv(trace[n])
  {
    if n > 0 {
      RunKeeps(start, step, inv, trace, n - 1);
      assert StepAt(step, trace, n);
    }
  }

  lemma {:induction false} RunGrows<S(!new)>(start: S -> bool, step: (S, S) -> bool, inv: S -> bool,
                                             grows: (S, S) -> bool, trace: seq<S>, m: nat, n: nat)
    requires Run(start, step, trace) && Inductive(start, step, inv) && Monotone(step, inv, grows)
    requires m <= n < |trace|
    ensures grows(trace[m], trace[n])
    decreases n
  {
    RunKeeps(start, step, inv, trace, m);
    if m < n {
      RunGrows(start, step, inv, grows, trace, m, n - 1);
      RunKeeps(start, step, inv, trace, n - 1);
      assert StepAt(step, trace, n);
    }
  }

  lemma RunExtends<S(!new)>(start: S -> bool, step: (S, S) -> bool, trace: seq<S>, s: S)
    requires Run(start, step, trace) && step(trace[|trace| - 1], s)
    ensures Run(start, step, trace + [s])
  {
    var longer := trace + [s];
    forall i | 0 < i < |longer| ensures StepAt(step, longer, i) {
      if i < |trace| { assert StepAt(step, trace, i); }
    }
  }

  // ------------------------------------------------------------------- labelled runs

  ghost predicate LabelAt<S(!new), A(!new)>(does: (S, A, S) -> bool, trace: seq<S>, acts: seq<A>, i: nat)
    requires |trace| == |acts| + 1 && i < |acts|
  {
    does(trace[i], acts[i], trace[i + 1])
  }

  /** A run with the action taken in each step. */
  ghost predicate Labelled<S(!new), A(!new)>(start: S -> bool, does: (S, A, S) -> bool, trace: seq<S>, acts: seq<A>) {
    |trace| == |acts| + 1 && start(trace[0]) && forall i :: 0 <= i < |acts| ==> LabelAt(does, trace, acts, i)
  }

  /** Steps are exactly what some action does. */
  ghost predicate Labels<S(!new), A(!new)>(step: (S, S) -> bool, does: (S, A, S) -> bool) {
    && (forall s, a, t :: does(s, a, t) ==> step(s, t))
    && forall s, t :: step(s, t) ==> exists a :: does(s, a, t)
  }

  lemma LabelledIsRun<S(!new), A(!new)>(start: S -> bool, step: (S, S) -> bool, does: (S, A, S) -> bool,
                                        trace: seq<S>, acts: seq<A>)
    requires Labelled(start, does, trace, acts) && Labels(step, does)
    ensures Run(start, step, trace)
  {
    forall i | 0 < i < |trace| ensures StepAt(step, trace, i) {
      assert LabelAt(does, trace, acts, i - 1);
    }
  }

  /** Every run has its actions. */
  lemma {:induction false} RunIsLabelled<S(!new), A(!new)>(start: S -> bool, step: (S, S) -> bool,
                                                           does: (S, A, S) -> bool, trace: seq<S>) returns (acts: seq<A>)
    requires Run(start, step, trace) && Labels(step, does)
    ensures Labelled(start, does, trace, acts)
  {
    if |trace| == 1 {
      acts := [];
    } else {
      var n := |trace| - 1;
      var init := trace[..n];
      forall i | 0 < i < n ensures StepAt(step, init, i) { assert StepAt(step, trace, i); }
      var before := RunIsLabelled(start, step, does, init);
      assert StepAt(step, trace, n);
      var a :| does(trace[n - 1], a, trace[n]);
      acts := before + [a];
      forall i | 0 <= i < n ensures LabelAt(does, trace, acts, i) {
        if i < n - 1 { assert LabelAt(does, init, before, i); }
      }
    }
  }
}
