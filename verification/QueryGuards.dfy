/** What a guard check answers is of no account: only a failing check is noticed. */
module QueryGuards {
  import opened Wrappers
  import opened QueryTypes
  import opened QueryExecutor
  import opened QueryTheorems

  /** The same answer, unless it is a guard's, of which only the success is the same. */
  predicate SameAnswer(leaf: QueryStep, a: Outcome, b: Outcome) {
    a == b || (leaf.GuardCheck? && a.Done? && b.Done?)
  }

  /** Engines that differ only in what their successful guard checks answer. */
  ghost predicate SameButForGuards<S(!new)>(a: Env<S>, b: Env<S>) {
    && (forall component :: a.has(component) == b.has(component))
    && (forall error :: a.transient(error) == b.transient(error))
    && (forall s, leaf ::
          a.call(s, leaf).0 == b.call(s, leaf).0 && SameAnswer(leaf, a.call(s, leaf).1, b.call(s, leaf).1))
  }

  predicate SameVisits(a: seq<Visit>, b: seq<Visit>) {
    && |a| == |b|
    && forall i | 0 <= i < |a| :: a[i].leaf == b[i].leaf && SameAnswer(a[i].leaf, a[i].outcome, b[i].outcome)
  }

  predicate SameRun<S(==)>(a: Ran<S>, b: Ran<S>) {
    a.state == b.state && a.err == b.err && SameVisits(a.visits, b.visits)
  }

  lemma SameAfter<S>(a: Ran<S>, b: Ran<S>, a': Ran<S>, b': Ran<S>)
    requires SameRun(a, b) && SameRun(a', b')
    ensures SameRun(After(a.visits, a'), After(b.visits, b'))
  {
  }

  lemma {:induction false} StepRunsAlike<S(!new)>(a: Env<S>, b: Env<S>, step: QueryStep, s: S)
    requires SameButForGuards(a, b)
    ensures SameRun(RunStep(a, step, s), RunStep(b, step, s))
    decreases step, 1
  {
    if !IsLeaf(step) {
      StepsRunAlike(a, b, step.steps, s);
    }
  }

  lemma {:induction false} StepsRunAlike<S(!new)>(a: Env<S>, b: Env<S>, steps: seq<QueryStep>, s: S)
    requires SameButForGuards(a, b)
    ensures SameRun(RunSteps(a, steps, s), RunSteps(b, steps, s))
    decreases steps, 0
  {
    if steps != [] {
      StepRunsAlike(a, b, steps[0], s);
      hide RunStep, SameButForGuards, SameVisits;
      var first, first' := RunStep(a, steps[0], s), RunStep(b, steps[0], s);
      if first.err.None? {
        StepsRunAlike(a, b, steps[1..], first.state);
        SameAfter(first, first', RunSteps(a, steps[1..], first.state), RunSteps(b, steps[1..], first.state));
      }
    }
  }

  lemma {:induction false} AttemptsRunAlike<S(!new)>(a: Env<S>, b: Env<S>, step: QueryStep, s: S, attempt: nat)
    requires SameButForGuards(a, b) && 1 <= attempt <= 3
    ensures SameRun(Attempts(a, step, s, attempt), Attempts(b, step, s, attempt))
    decreases 3 - attempt
  {
    StepRunsAlike(a, b, step, s);
    AttemptsFrom(a, step, s, attempt);
    AttemptsFrom(b, step, s, attempt);
    hide RunStep, SameVisits;
    var first, first' := RunStep(a, step, s), RunStep(b, step, s);
    if first.err.Some? && a.transient(first.err.value) && attempt <= 2 {
      AttemptsRunAlike(a, b, step, first.state, attempt + 1);
      var next := attempt + 1;
      SameAfter(first, first', Attempts(a, step, first.state, next), Attempts(b, step, first.state, next));
    }
  }

  lemma {:induction false} ExecutionsRunAlike<S(!new)>(a: Env<S>, b: Env<S>, steps: seq<QueryStep>, s: S)
    requires SameButForGuards(a, b)
    ensures SameRun(ExecuteSteps(a, steps, s), ExecuteSteps(b, steps, s))
    decreases |steps|
  {
    if steps != [] {
      AttemptsRunAlike(a, b, steps[0], s, 1);
      hide Attempts, SameButForGuards, SameVisits;
      var first, first' := Attempts(a, steps[0], s, 1), Attempts(b, steps[0], s, 1);
      if first.err.None? {
        ExecutionsRunAlike(a, b, steps[1..], first.state);
        SameAfter(first, first', ExecuteSteps(a, steps[1..], first.state), ExecuteSteps(b, steps[1..], first.state));
      }
    }
  }

  lemma {:induction false} SameRows(a: seq<Visit>, b: seq<Visit>)
    requires SameVisits(a, b)
    ensures RowsOf(a) == RowsOf(b)
  {
    if a != [] {
      SameRows(a[..|a| - 1], b[..|b| - 1]);
    }
  }

  /**
   * Whatever the guard answers, short of an error, an execution visits the same leaves, leaves the same
   * world behind, fails with the same error or returns the same rows.
   */
  lemma GuardAnswersAreIgnored<S(!new)>(a: Env<S>, b: Env<S>, steps: seq<QueryStep>, s: S)
    requires SameButForGuards(a, b)
    ensures var one, other := ExecuteSteps(a, steps, s), ExecuteSteps(b, steps, s);
            && one.state == other.state && one.err == other.err && RowsOf(one.visits) == RowsOf(other.visits)
            && |one.visits| == |other.visits|
            && forall i | 0 <= i < |one.visits| :: one.visits[i].leaf == other.visits[i].leaf
  {
    ExecutionsRunAlike(a, b, steps, s);
    SameRows(ExecuteSteps(a, steps, s).visits, ExecuteSteps(b, steps, s).visits);
  }
}
