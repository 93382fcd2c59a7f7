/** What planning, optimising and executing a query guarantee together. */
module QueryTheorems {
  import opened Wrappers
  import opened QueryTypes
  import opened QueryPlanner
  import opened QueryOptimizer
  import opened QueryExecutor

  // ---------------------------------------------------------------- what one attempt visits

  /** Every leaf was visited in order and succeeded. */
  predicate Complete(leaves: seq<QueryStep>, visits: seq<Visit>) {
    && |visits| == |leaves|
    && forall i | 0 <= i < |visits| :: visits[i].leaf == leaves[i] && visits[i].outcome.Done?
  }

  /** The leaves were visited in order up to one that failed with `error`; those before it succeeded. */
  predicate Partial(leaves: seq<QueryStep>, visits: seq<Visit>, error: Error) {
    && 0 < |visits| <= |leaves|
    && (forall i | 0 <= i < |visits| :: visits[i].leaf == leaves[i])
    && (forall i | 0 <= i < |visits| - 1 :: visits[i].outcome.Done?)
    && visits[|visits| - 1].outcome == Failed(error)
  }

  /** An attempt either completes or stops at the failing leaf. */
  predicate Ended(leaves: seq<QueryStep>, visits: seq<Visit>, err: Option<Error>) {
    if err.None? then Complete(leaves, visits) else Partial(leaves, visits, err.value)
  }

  lemma EndedBoth(a: seq<QueryStep>, b: seq<QueryStep>, va: seq<Visit>, vb: seq<Visit>, err: Option<Error>)
    requires Complete(a, va) && Ended(b, vb, err)
    ensures Ended(a + b, va + vb, err)
  {
  }

  lemma StoppedEarly(a: seq<QueryStep>, b: seq<QueryStep>, va: seq<Visit>, error: Error)
    requires Partial(a, va, error)
    ensures Partial(a + b, va, error)
  {
  }

  lemma {:induction false} RunStepShape<S>(env: Env<S>, step: QueryStep, s: S)
    ensures var ran := RunStep(env, step, s); Ended(Leaves(step), ran.visits, ran.err)
    decreases step, 1
  {
    if !IsLeaf(step) {
      RunStepsShape(env, step.steps, s);
    }
  }

  lemma {:induction false} RunStepsShape<S>(env: Env<S>, steps: seq<QueryStep>, s: S)
    ensures var ran := RunSteps(env, steps, s); Ended(AllLeaves(steps), ran.visits, ran.err)
    decreases steps, 0
  {
    hide RunStep, Leaves, Complete, Partial;
    if steps == [] {
      assert Complete([], []) by { NothingToVisit(); }
    } else {
      RunStepShape(env, steps[0], s);
      var first := RunStep(env, steps[0], s);
      if first.err.Some? {
        StoppedEarly(Leaves(steps[0]), AllLeaves(steps[1..]), first.visits, first.err.value);
      } else {
        RunStepsShape(env, steps[1..], first.state);
        var rest := RunSteps(env, steps[1..], first.state);
        EndedBoth(Leaves(steps[0]), AllLeaves(steps[1..]), first.visits, rest.visits, rest.err);
      }
    }
  }

  lemma NothingToVisit()
    ensures Complete([], [])
  {
  }

  // ---------------------------------------------------------------- retries

  /** A top-level step's attempts: those that failed transiently, then the one that settled it. */
  datatype Tried = Tried(failed: seq<seq<Visit>>, last: seq<Visit>, err: Option<Error>)

  function Joined(visits: seq<seq<Visit>>): seq<Visit> {
    if visits == [] then [] else visits[0] + Joined(visits[1..])
  }

  function VisitsOf(tried: Tried): seq<Visit> {
    Joined(tried.failed) + tried.last
  }

  function AllVisits(tried: seq<Tried>): seq<Visit> {
    if tried == [] then [] else VisitsOf(tried[0]) + AllVisits(tried[1..])
  }

  ghost predicate FailedTransiently<S>(env: Env<S>, leaves: seq<QueryStep>, visits: seq<Visit>) {
    exists error :: Partial(leaves, visits, error) && env.transient(error)
  }

  /** At most two transient failures; the step is given up only on a permanent error or after a third failure. */
  ghost predicate TriedOut<S>(env: Env<S>, leaves: seq<QueryStep>, tried: Tried) {
    && |tried.failed| <= 2
    && (forall i | 0 <= i < |tried.failed| :: FailedTransiently(env, leaves, tried.failed[i]))
    && Ended(leaves, tried.last, tried.err)
    && (tried.err.Some? && env.transient(tried.err.value) ==> |tried.failed| == 2)
  }

  lemma {:induction false} AttemptsShape<S>(env: Env<S>, step: QueryStep, s: S, attempt: nat) returns (tried: Tried)
    requires 1 <= attempt <= 3
    ensures var ran := Attempts(env, step, s, attempt);
            && VisitsOf(tried) == ran.visits && tried.err == ran.err
            && |tried.failed| <= 3 - attempt
            && (forall i | 0 <= i < |tried.failed| :: FailedTransiently(env, Leaves(step), tried.failed[i]))
            && Ended(Leaves(step), tried.last, tried.err)
            && (tried.err.Some? && env.transient(tried.err.value) ==> |tried.failed| == 3 - attempt)
    decreases 3 - attempt
  {
    hide RunStep, Leaves, Complete, Partial;
    RunStepShape(env, step, s);
    AttemptsFrom(env, step, s, attempt);
    var ran := RunStep(env, step, s);
    if ran.err.Some? && env.transient(ran.err.value) && attempt <= 2 {
      var again := AttemptsShape(env, step, ran.state, attempt + 1);
      tried := again.(failed := [ran.visits] + again.failed);
      assert tried.failed[1..] == again.failed;
      assert FailedTransiently(env, Leaves(step), ran.visits);
    } else {
      tried := Tried([], ran.visits, ran.err);
    }
  }

  /**
   * Every execution: the top-level steps in order, each tried at most three times; every step but
   * the last one reached ends with a complete run, and on success so does that one.
   */
  lemma {:induction false} ExecutionShape<S>(env: Env<S>, steps: seq<QueryStep>, s: S) returns (tried: seq<Tried>)
    ensures var ran := ExecuteSteps(env, steps, s);
            && AllVisits(tried) == ran.visits && |tried| <= |steps|
            && (forall i | 0 <= i < |tried| :: TriedOut(env, Leaves(steps[i]), tried[i]))
            && (forall i | 0 <= i < |tried| - 1 :: tried[i].err == None)
            && (if ran.err.None? then |tried| == |steps| && (forall i | 0 <= i < |tried| :: tried[i].err == None)
                else |tried| > 0 && tried[|tried| - 1].err == ran.err)
    decreases |steps|
  {
    hide Attempts, Leaves, Ended, FailedTransiently;
    if steps == [] {
      tried := [];
    } else {
      var first := AttemptsShape(env, steps[0], s, 1);
      var ran := Attempts(env, steps[0], s, 1);
      if ran.err.Some? {
        tried := [first];
        assert tried[1..] == [];
      } else {
        var rest := ExecutionShape(env, steps[1..], ran.state);
        tried := [first] + rest;
        assert tried[1..] == rest;
        assert forall i | 1 <= i < |tried| :: tried[i] == rest[i - 1] && steps[i] == steps[1..][i - 1];
      }
    }
  }

  lemma PairHasLeaves(a: QueryStep, b: QueryStep)
    requires IsLeaf(a) && IsLeaf(b)
    ensures Leaves(Parallel([a, b])) == [a, b]
  {
    assert AllLeaves([a, b]) == Leaves(a) + AllLeaves([a, b][1..]);
    assert AllLeaves([b]) == Leaves(b) + AllLeaves([b][1..]);
  }

  // ---------------------------------------------------------------- the optimiser's normal form

  predicate NoAdjacentReads(steps: seq<QueryStep>) {
    forall i, j | 0 <= i < |steps| && 0 <= j < |steps| && j == i + 1 :: !(steps[i].CoreRead? && steps[j].CoreRead?)
  }

  predicate NoAdjacentIndependent(steps: seq<QueryStep>) {
    forall i, j | 0 <= i < |steps| && 0 <= j < |steps| && j == i + 1 ::
      !(Independent(steps[i]) && Independent(steps[j]))
  }

  predicate Normal(steps: seq<QueryStep>) {
    NoAdjacentReads(steps) && NoAdjacentIndependent(steps)
  }

  lemma {:induction false} MergeNormalises(steps: seq<QueryStep>)
    ensures NoAdjacentReads(MergeReads(steps))
    ensures steps != [] ==> MergeReads(steps) != [] && (MergeReads(steps)[0].CoreRead? <==> steps[0].CoreRead?)
    ensures NoAdjacentReads(steps) ==> MergeReads(steps) == steps
    decreases |steps|
  {
    if |steps| >= 2 {
      if steps[0].CoreRead? && steps[1].CoreRead? {
        MergeNormalises([CoreRead(Join(steps[0].sql, steps[1].sql))] + steps[2..]);
      } else {
        MergeNormalises(steps[1..]);
        assert forall i | 0 < i < |steps| :: steps[i] == steps[1..][i - 1];
      }
    }
  }

  lemma BeforeNormal(step: QueryStep, rest: seq<QueryStep>)
    ensures NoAdjacentReads([step] + rest)
       <==> NoAdjacentReads(rest) && (rest != [] ==> !(step.CoreRead? && rest[0].CoreRead?))
    ensures NoAdjacentIndependent([step] + rest)
       <==> NoAdjacentIndependent(rest) && (rest != [] ==> !(Independent(step) && Independent(rest[0])))
  {
    BeforeReads(step, rest);
    BeforeIndependent(step, rest);
  }

  lemma BeforeReads(step: QueryStep, rest: seq<QueryStep>)
    ensures NoAdjacentReads([step] + rest)
       <==> NoAdjacentReads(rest) && (rest != [] ==> !(step.CoreRead? && rest[0].CoreRead?))
  {
    var all := [step] + rest;
    assert forall i | 0 <= i < |rest| :: all[i + 1] == rest[i];
    assert forall i | 1 <= i < |all| :: all[i] == rest[i - 1];
    assert rest != [] ==> all[0] == step && all[1] == rest[0];
  }

  lemma BeforeIndependent(step: QueryStep, rest: seq<QueryStep>)
    ensures NoAdjacentIndependent([step] + rest)
       <==> NoAdjacentIndependent(rest) && (rest != [] ==> !(Independent(step) && Independent(rest[0])))
  {
    hide Independent;
    var all := [step] + rest;
    assert forall i | 0 <= i < |rest| :: all[i + 1] == rest[i];
    assert forall i | 1 <= i < |all| :: all[i] == rest[i - 1];
    assert rest != [] ==> all[0] == step && all[1] == rest[0];
  }

  /** Pairing leaves nothing to pair, keeps reads apart, and changes nothing when there was nothing to pair. */
  predicate PairedUp(steps: seq<QueryStep>) {
    var after := Promote(steps);
    && NoAdjacentIndependent(after)
    && (steps != [] ==> after != [] && (after[0] == steps[0] || after[0].Parallel?))
    && (NoAdjacentReads(steps) ==> NoAdjacentReads(after))
    && (NoAdjacentIndependent(steps) ==> after == steps)
  }

  lemma PairedUpPair(a: QueryStep, b: QueryStep, rest: seq<QueryStep>)
    requires Independent(a) && Independent(b) && PairedUp(rest)
    ensures PairedUp([a] + ([b] + rest))
  {
    var after := Promote(rest);
    PromoteTwo(a, b, rest);
    BeforeNormal(a, [b] + rest);
    BeforeNormal(b, rest);
    BeforeNormal(Parallel([a, b]), after);
    hide NoAdjacentReads, NoAdjacentIndependent, Promote;
  }

  lemma PairedUpOne(a: QueryStep, tail: seq<QueryStep>)
    requires tail != [] && !(Independent(a) && Independent(tail[0])) && PairedUp(tail)
    ensures PairedUp([a] + tail)
  {
    PromoteOne(a, tail);
    BeforeNormal(a, tail);
    BeforeNormal(a, Promote(tail));
    hide NoAdjacentReads, NoAdjacentIndependent, Promote;
  }

  lemma {:induction false} PromotePairsUp(steps: seq<QueryStep>)
    ensures PairedUp(steps)
    decreases |steps|
  {
    if |steps| >= 2 {
      hide PairedUp;
      assert steps == [steps[0]] + steps[1..] && steps[1..] == [steps[1]] + steps[2..];
      if Independent(steps[0]) && Independent(steps[1]) {
        PromotePairsUp(steps[2..]);
        PairedUpPair(steps[0], steps[1], steps[2..]);
      } else {
        PromotePairsUp(steps[1..]);
        PairedUpOne(steps[0], steps[1..]);
      }
    }
  }

  lemma {:induction false} PromoteNormalises(steps: seq<QueryStep>)
    ensures NoAdjacentIndependent(Promote(steps))
    ensures steps != [] ==> Promote(steps) != [] && (Promote(steps)[0] == steps[0] || Promote(steps)[0].Parallel?)
    ensures NoAdjacentReads(steps) ==> NoAdjacentReads(Promote(steps))
    ensures NoAdjacentIndependent(steps) ==> Promote(steps) == steps
  {
    PromotePairsUp(steps);
    hide NoAdjacentReads, NoAdjacentIndependent, Promote;
  }

  /** The optimiser leaves a plan alone exactly when it has nothing to merge and nothing to pair. */
  lemma FixedExactlyWhenNormal(steps: seq<QueryStep>)
    ensures Normal(Optimised(steps))
    ensures Optimised(steps) == steps <==> Normal(steps)
    ensures Optimised(Optimised(steps)) == Optimised(steps)
  {
    MergeNormalises(steps);
    PromoteNormalises(MergeReads(steps));
    MergeNormalises(Optimised(steps));
    PromoteNormalises(Optimised(steps));
    if Normal(steps) {
      PromoteNormalises(steps);
    }
  }

  /** The run is paired on its own, into half as many steps. */
  predicate Halved(run: seq<QueryStep>, rest: seq<QueryStep>) {
    Promote(run + rest) == Promote(run) + Promote(rest) && |Promote(run)| == (|run| + 1) / 2
  }

  lemma HalvedPair(a: QueryStep, b: QueryStep, tail: seq<QueryStep>, rest: seq<QueryStep>)
    requires Independent(a) && Independent(b) && Halved(tail, rest)
    ensures Halved([a] + ([b] + tail), rest)
  {
    hide Promote;
    PromoteTwo(a, b, tail);
    PromoteTwo(a, b, tail + rest);
    AddFront(Parallel([a, b]), Promote(tail), Promote(rest));
    assert ([a] + ([b] + tail)) + rest == [a] + ([b] + (tail + rest)) by {
      AddFront(a, [b] + tail, rest);
      AddFront(b, tail, rest);
    }
  }

  /** A run of n independent steps that nothing independent follows becomes ceil(n/2) steps. */
  lemma {:induction false} RunIsHalved(run: seq<QueryStep>, rest: seq<QueryStep>)
    requires forall i | 0 <= i < |run| :: Independent(run[i])
    requires rest != [] ==> !Independent(rest[0])
    ensures Promote(run + rest) == Promote(run) + Promote(rest)
    ensures |Promote(run)| == (|run| + 1) / 2
    decreases |run|
  {
    if run == [] {
      assert run + rest == rest;
    } else if |run| == 1 {
      PromoteOne(run[0], rest);
      assert run == [run[0]];
    } else {
      RunIsHalved(run[2..], rest);
      hide Promote;
      HalvedPair(run[0], run[1], run[2..], rest);
      assert run == [run[0]] + ([run[1]] + run[2..]);
    }
  }

  /** The statements of a run of reads, one after another. */
  function BatchText(run: seq<QueryStep>): string
    requires run != [] && forall i | 0 <= i < |run| :: run[i].CoreRead?
  {
    if |run| == 1 then run[0].sql else run[0].sql + "; " + BatchText(run[1..])
  }

  lemma BatchTextFirst(read: QueryStep, tail: seq<QueryStep>)
    requires read.CoreRead? && forall i | 0 <= i < |tail| :: tail[i].CoreRead?
    ensures BatchText([read] + tail) == if tail == [] then read.sql else read.sql + "; " + BatchText(tail)
  {
    assert ([read] + tail)[1..] == tail;
  }

  lemma SeparatorsAssociate(x: string, y: string, z: string, separator: string)
    ensures (x + separator + y) + separator + z == x + separator + (y + separator + z)
  {
  }

  lemma BatchTextJoins(a: QueryStep, b: QueryStep, tail: seq<QueryStep>)
    requires a.CoreRead? && b.CoreRead? && forall i | 0 <= i < |tail| :: tail[i].CoreRead?
    ensures BatchText([CoreRead(Join(a.sql, b.sql))] + tail) == BatchText([a] + ([b] + tail))
  {
    BatchTextFirst(CoreRead(Join(a.sql, b.sql)), tail);
    BatchTextFirst(b, tail);
    BatchTextFirst(a, [b] + tail);
    if tail != [] {
      SeparatorsAssociate(a.sql, b.sql, BatchText(tail), "; ");
    }
    hide BatchText;
  }

  /** A run of reads that no read follows becomes one read of all their statements in order. */
  lemma {:induction false} RunIsMerged(run: seq<QueryStep>, rest: seq<QueryStep>)
    requires run != [] && forall i | 0 <= i < |run| :: run[i].CoreRead?
    requires rest != [] ==> !rest[0].CoreRead?
    ensures MergeReads(run + rest) == [CoreRead(BatchText(run))] + MergeReads(rest)
    decreases |run|
  {
    hide MergeReads;
    if |run| == 1 {
      assert run == [run[0]];
      MergeOne(run[0], rest);
    } else {
      var a, b, tail := run[0], run[1], run[2..];
      var joined := CoreRead(Join(a.sql, b.sql));
      assert run == [a] + ([b] + tail);
      assert run + rest == [a] + ([b] + (tail + rest)) && ([joined] + tail) + rest == [joined] + (tail + rest);
      MergeTwo(a, b, tail + rest);
      BatchTextJoins(a, b, tail);
      RunIsMerged([joined] + tail, rest);
    }
  }

  /** Two steps are put side by side exactly when each is a call of the vector engine or of the sync hub. */
  lemma OnlyVectorAndSyncPair(a: QueryStep, b: QueryStep)
    ensures Promote([a, b]) ==
            if (a.VectorSearch? || a.VectorUpsert? || a.SyncPush? || a.SyncPull?)
               && (b.VectorSearch? || b.VectorUpsert? || b.SyncPush? || b.SyncPull?)
            then [Parallel([a, b])] else [a, b]
  {
    assert [a, b] == [a] + ([b] + []);
    assert Promote([b] + []) == [b];
    if Independent(a) && Independent(b) {
      PromoteTwo(a, b, []);
    } else {
      PromoteOne(a, [b] + []);
    }
  }

  /** Of the planner's plans only the one for a sync is changed, its push and pull becoming one step. */
  lemma OptimisedPlan(query: Query)
    ensures Optimised(Plan(query)) ==
            if query.Sync? then [GuardCheck("sync"), Parallel([SyncPush, SyncPull])] else Plan(query)
  {
    if query.Sync? {
      var plan := [GuardCheck("sync"), SyncPush, SyncPull];
      MergeNormalises(plan);
      assert plan[1..] == [SyncPush, SyncPull];
      assert plan[1..][2..] == [];
    } else {
      hide Plan, MergeReads, Promote;
      PlansAreNormal(query);
      FixedExactlyWhenNormal(Plan(query));
    }
  }

  lemma PlansAreNormal(query: Query)
    requires !query.Sync?
    ensures Normal(Plan(query))
  {
    hide Plan, Normal;
    if query.Remember? || query.Search? || query.Recall? || query.Raw? {
      MemoryPlansAreNormal(query);
    } else {
      BranchPlansAreNormal(query);
    }
  }

  lemma MemoryPlansAreNormal(query: Query)
    requires query.Remember? || query.Search? || query.Recall? || query.Raw?
    ensures Normal(Plan(query))
  {
  }

  lemma BranchPlansAreNormal(query: Query)
    requires query.Branch? || query.Merge? || query.Diff? || query.Reflect?
    ensures Normal(Plan(query))
  {
  }

  // ---------------------------------------------------------------- the optimiser preserves meaning

  /** Two runs that a caller cannot tell apart: same world, same error, and on success the same rows. */
  predicate Agree<S(==)>(a: Ran<S>, b: Ran<S>) {
    a.state == b.state && a.err == b.err && (a.err.None? ==> RowsOf(a.visits) == RowsOf(b.visits))
  }

  /** The two reads one after the other, as one call. */
  function InTurn<S>(env: Env<S>, s: S, a: string, b: string): (S, Outcome) {
    var (s1, first) := env.call(s, CoreRead(a));
    if first.Failed? then (s1, first)
    else
      var (s2, second) := env.call(s1, CoreRead(b));
      (s2, if second.Failed? then second else Done(first.rows + second.rows))
  }

  /** The core engine runs a batch of two reads as the two reads in turn. */
  ghost predicate BatchesReads<S(!new)>(env: Env<S>) {
    forall s, a, b :: env.call(s, CoreRead(Join(a, b))) == InTurn(env, s, a, b)
  }

  lemma TwoStepsThen<S>(env: Env<S>, a: QueryStep, b: QueryStep, rest: seq<QueryStep>, s: S)
    ensures RunSteps(env, [a, b] + rest, s) ==
            var first := RunStep(env, a, s);
            if first.err.Some? then first
            else
              var second := RunStep(env, b, first.state);
              if second.err.Some? then After(first.visits, second)
              else After(first.visits, After(second.visits, RunSteps(env, rest, second.state)))
  {
    assert ([a, b] + rest)[1..] == [b] + rest;
    assert ([b] + rest)[1..] == rest;
  }

  lemma OneStepThen<S>(env: Env<S>, a: QueryStep, rest: seq<QueryStep>, s: S)
    ensures RunSteps(env, [a] + rest, s) ==
            var first := RunStep(env, a, s);
            if first.err.Some? then first else After(first.visits, RunSteps(env, rest, first.state))
  {
    assert ([a] + rest)[1..] == rest;
  }

  lemma ReadRuns<S>(env: Env<S>, sql: string, s: S)
    requires env.has(Core)
    ensures var (s', outcome) := env.call(s, CoreRead(sql));
            && RunStep(env, CoreRead(sql), s) ==
                 Ran(s', [Visit(CoreRead(sql), outcome)], if outcome.Failed? then Some(outcome.error) else None)
            && (outcome.Done? ==> RowsOf([Visit(CoreRead(sql), outcome)]) == outcome.rows)
  {
    var (s', outcome) := env.call(s, CoreRead(sql));
    var v := [Visit(CoreRead(sql), outcome)];
    assert v[..0] == [] && RowsOf([]) == [];
  }

  lemma SameRows(merged: seq<Visit>, first: seq<Visit>, second: seq<Visit>, rest: seq<Visit>)
    requires RowsOf(merged) == RowsOf(first) + RowsOf(second)
    ensures RowsOf(merged + rest) == RowsOf(first + (second + rest))
  {
    hide RowsOf;
    InThree(RowsOf(first), RowsOf(second), RowsOf(rest));
    assert RowsOf(first + (second + rest)) == RowsOf(first) + (RowsOf(second) + RowsOf(rest)) by {
      RowsOfBoth(second, rest);
      RowsOfBoth(first, second + rest);
    }
    RowsOfBoth(merged, rest);
  }

  lemma InThree<T>(a: seq<T>, b: seq<T>, c: seq<T>)
    ensures (a + b) + c == a + (b + c)
  {
  }

  lemma MergingOnceAgrees<S(!new)>(env: Env<S>, a: string, b: string, rest: seq<QueryStep>, s: S)
    requires BatchesReads(env)
    ensures Agree(RunSteps(env, [CoreRead(Join(a, b))] + rest, s), RunSteps(env, [CoreRead(a), CoreRead(b)] + rest, s))
  {
    OneStepThen(env, CoreRead(Join(a, b)), rest, s);
    TwoStepsThen(env, CoreRead(a), CoreRead(b), rest, s);
    if env.has(Core) {
      hide RunSteps, RunStep, RowsOf;
      assert env.call(s, CoreRead(Join(a, b))) == InTurn(env, s, a, b);
      ReadRuns(env, Join(a, b), s);
      ReadRuns(env, a, s);
      var (s1, _) := env.call(s, CoreRead(a));
      ReadRuns(env, b, s1);
      var merged, first := RunStep(env, CoreRead(Join(a, b)), s), RunStep(env, CoreRead(a), s);
      var second := RunStep(env, CoreRead(b), s1);
      var after := RunSteps(env, rest, second.state);
      if first.err.None? && second.err.None? {
        SameRows(merged.visits, first.visits, second.visits, after.visits);
      }
    }
  }

  /** Batching adjacent reads is invisible to anyone for whom the core engine runs batches in turn. */
  lemma {:induction false} MergingAgrees<S(!new)>(env: Env<S>, steps: seq<QueryStep>, s: S)
    requires BatchesReads(env)
    ensures Agree(RunSteps(env, MergeReads(steps), s), RunSteps(env, steps, s))
    decreases |steps|
  {
    if |steps| >= 2 {
      if steps[0].CoreRead? && steps[1].CoreRead? {
        var merged := [CoreRead(Join(steps[0].sql, steps[1].sql))] + steps[2..];
        MergingAgrees(env, merged, s);
        MergingOnceAgrees(env, steps[0].sql, steps[1].sql, steps[2..], s);
        assert [CoreRead(steps[0].sql), CoreRead(steps[1].sql)] + steps[2..] == steps;
      } else {
        OneStepThen(env, steps[0], MergeReads(steps[1..]), s);
        OneStepThen(env, steps[0], steps[1..], s);
        assert [steps[0]] + steps[1..] == steps;
        hide RunSteps, RunStep, RowsOf;
        var first := RunStep(env, steps[0], s);
        MergingAgrees(env, steps[1..], first.state);
        RowsOfBoth(first.visits, RunSteps(env, MergeReads(steps[1..]), first.state).visits);
        RowsOfBoth(first.visits, RunSteps(env, steps[1..], first.state).visits);
      }
    }
  }

  /** Pairing independent steps changes neither the leaves visited nor anything they do. */
  lemma {:induction false} PairingIsInvisible<S>(env: Env<S>, steps: seq<QueryStep>, s: S)
    ensures RunSteps(env, Promote(steps), s) == RunSteps(env, steps, s)
    ensures AllLeaves(Promote(steps)) == AllLeaves(steps)
    decreases |steps|
  {
    if |steps| >= 2 {
      hide RunSteps, AllLeaves;
      assert [steps[0]] + steps[1..] == steps && [steps[1]] + steps[2..] == steps[1..];
      assert [steps[0], steps[1]] + steps[2..] == steps;
      if Independent(steps[0]) && Independent(steps[1]) {
        var pair := Parallel([steps[0], steps[1]]);
        PairRuns(env, steps[0], steps[1], s);
        OneStepThen(env, pair, Promote(steps[2..]), s);
        TwoStepsThen(env, steps[0], steps[1], steps[2..], s);
        PairingIsInvisible(env, steps[2..], RunStep(env, pair, s).state);
        var first := RunStep(env, steps[0], s);
        AfterBoth(
          first.visits, RunStep(env, steps[1], first.state).visits,
          RunSteps(env, steps[2..], RunStep(env, pair, s).state));
        PairHasLeaves(steps[0], steps[1]);
        LeavesThen(pair, Promote(steps[2..]));
        LeavesThen(steps[0], steps[1..]);
        LeavesThen(steps[1], steps[2..]);
      } else {
        OneStepThen(env, steps[0], Promote(steps[1..]), s);
        OneStepThen(env, steps[0], steps[1..], s);
        PairingIsInvisible(env, steps[1..], RunStep(env, steps[0], s).state);
        LeavesThen(steps[0], Promote(steps[1..]));
        LeavesThen(steps[0], steps[1..]);
      }
    }
  }

  lemma LeavesThen(step: QueryStep, rest: seq<QueryStep>)
    ensures AllLeaves([step] + rest) == Leaves(step) + AllLeaves(rest)
  {
    assert ([step] + rest)[1..] == rest;
  }

  lemma PairRuns<S>(env: Env<S>, a: QueryStep, b: QueryStep, s: S)
    ensures RunStep(env, Parallel([a, b]), s) ==
            var first := RunStep(env, a, s);
            if first.err.Some? then first else After(first.visits, RunStep(env, b, first.state))
  {
    TwoStepsThen(env, a, b, [], s);
    assert [a, b] + [] == [a, b];
    var first := RunStep(env, a, s);
    var second := RunStep(env, b, first.state);
    assert second.visits + [] == second.visits;
  }

  /** A run that meets no transient error is never retried. */
  lemma {:induction false} NothingToRetry<S>(env: Env<S>, steps: seq<QueryStep>, s: S)
    requires var ran := RunSteps(env, steps, s); ran.err.None? || !env.transient(ran.err.value)
    ensures ExecuteSteps(env, steps, s) == RunSteps(env, steps, s)
    decreases |steps|
  {
    if steps != [] {
      hide RunStep;
      var first := RunStep(env, steps[0], s);
      AttemptsFrom(env, steps[0], s, 1);
      if first.err.None? {
        NothingToRetry(env, steps[1..], first.state);
      }
    }
  }

  /**
   * Optimising preserves meaning: as long as the plan meets no transient error, the optimised plan
   * leaves the same world behind, fails with the same error, or returns the same rows.
   */
  lemma OptimisingPreservesMeaning<S(!new)>(env: Env<S>, steps: seq<QueryStep>, s: S)
    requires BatchesReads(env)
    requires var ran := RunSteps(env, steps, s); ran.err.None? || !env.transient(ran.err.value)
    ensures Agree(ExecuteSteps(env, Optimised(steps), s), ExecuteSteps(env, steps, s))
  {
    MergingAgrees(env, steps, s);
    PairingIsInvisible(env, MergeReads(steps), s);
    NothingToRetry(env, steps, s);
    NothingToRetry(env, Optimised(steps), s);
  }

  // ---------------------------------------------------------------- guards

  /** A step that neither pass ever joins to a neighbour. */
  predicate Barrier(step: QueryStep) {
    !step.CoreRead? && !Independent(step)
  }

  lemma {:induction false} MergeStopsAt(before: seq<QueryStep>, step: QueryStep, behind: seq<QueryStep>)
    requires Barrier(step)
    ensures MergeReads(before + ([step] + behind)) == MergeReads(before) + ([step] + MergeReads(behind))
    decreases |before|
  {
    if before == [] {
      MergeOne(step, behind);
      assert before + ([step] + behind) == [step] + behind;
    } else {
      var a, tail := before[0], before[1..];
      var end := [step] + behind;
      assert before == [a] + tail && before + end == [a] + (tail + end);
      hide MergeReads;
      if tail != [] && a.CoreRead? && tail[0].CoreRead? {
        MergeStopsAtRead(before, step, behind);
      } else {
        MergeStopsAt(tail, step, behind);
        MergeOne(a, tail);
        MergeOne(a, tail + end);
        AddFront(a, MergeReads(tail), [step] + MergeReads(behind));
      }
    }
  }

  lemma {:induction false} MergeStopsAtRead(before: seq<QueryStep>, step: QueryStep, behind: seq<QueryStep>)
    requires Barrier(step) && |before| >= 2 && before[0].CoreRead? && before[1].CoreRead?
    ensures MergeReads(before + ([step] + behind)) == MergeReads(before) + ([step] + MergeReads(behind))
    decreases |before|, 0
  {
    hide MergeReads;
    var a, b, rest := before[0], before[1], before[2..];
    var merged := [CoreRead(Join(a.sql, b.sql))];
    var end := [step] + behind;
    assert before == [a] + ([b] + rest) && before + end == [a] + ([b] + (rest + end));
    assert merged + (rest + end) == (merged + rest) + end;
    MergeTwo(a, b, rest);
    MergeTwo(a, b, rest + end);
    MergeStopsAt(merged + rest, step, behind);
  }

  lemma AddFront(step: QueryStep, a: seq<QueryStep>, b: seq<QueryStep>)
    ensures ([step] + a) + b == [step] + (a + b)
  {
  }

  lemma {:induction false} PromoteStopsAt(before: seq<QueryStep>, step: QueryStep, behind: seq<QueryStep>)
    requires Barrier(step)
    ensures Promote(before + ([step] + behind)) == Promote(before) + ([step] + Promote(behind))
    decreases |before|
  {
    if before == [] {
      PromoteOne(step, behind);
      assert before + ([step] + behind) == [step] + behind;
    } else {
      var a, tail := before[0], before[1..];
      var end := [step] + behind;
      assert before == [a] + tail && before + end == [a] + (tail + end);
      hide Promote;
      if tail != [] && Independent(a) && Independent(tail[0]) {
        var b, rest := tail[0], tail[1..];
        assert tail == [b] + rest && tail + end == [b] + (rest + end);
        PromoteStopsAt(rest, step, behind);
        PromoteTwo(a, b, rest);
        PromoteTwo(a, b, rest + end);
        AddFront(Parallel([a, b]), Promote(rest), [step] + Promote(behind));
      } else {
        PromoteStopsAt(tail, step, behind);
        PromoteOne(a, tail);
        PromoteOne(a, tail + end);
        AddFront(a, Promote(tail), [step] + Promote(behind));
      }
    }
  }

  /** The optimiser works on each side of a guard check separately and leaves the check between them. */
  lemma GuardsStayInPlace(before: seq<QueryStep>, action: string, behind: seq<QueryStep>)
    ensures Optimised(before + [GuardCheck(action)] + behind)
         == Optimised(before) + [GuardCheck(action)] + Optimised(behind)
  {
    var guard := GuardCheck(action);
    hide MergeReads, Promote;
    MergeStopsAt(before, guard, behind);
    PromoteStopsAt(MergeReads(before), guard, MergeReads(behind));
    assert before + [guard] + behind == before + ([guard] + behind);
  }

  lemma {:induction false} ExecuteBoth<S>(env: Env<S>, a: seq<QueryStep>, b: seq<QueryStep>, s: S)
    ensures var first := ExecuteSteps(env, a, s);
            ExecuteSteps(env, a + b, s) ==
            if first.err.Some? then first else After(first.visits, ExecuteSteps(env, b, first.state))
    decreases |a|
  {
    if a == [] {
      assert a + b == b && forall v: seq<Visit> :: [] + v == v;
    } else {
      hide Attempts;
      var head := Attempts(env, a[0], s, 1);
      assert (a + b)[1..] == a[1..] + b;
      if head.err.None? {
        ExecuteBoth(env, a[1..], b, head.state);
        var middle := ExecuteSteps(env, a[1..], head.state);
        AfterBoth(head.visits, middle.visits, ExecuteSteps(env, b, middle.state));
      }
    }
  }

  /**
   * In every execution of every plan, optimised or not, what stands behind a guard check is visited
   * only after the check's last visit has completed without error.
   */
  lemma NothingPassesAGuard<S>(
    env: Env<S>, before: seq<QueryStep>, action: string, behind: seq<QueryStep>, optimise: bool, s: S)
    returns (upTo: seq<Visit>, past: seq<Visit>)
    ensures var plan := before + [GuardCheck(action)] + behind;
            ExecuteSteps(env, if optimise then Optimised(plan) else plan, s).visits == upTo + past
    ensures upTo == ExecuteSteps(env, (if optimise then Optimised(before) else before) + [GuardCheck(action)], s).visits
    ensures past != [] ==>
              upTo != [] && upTo[|upTo| - 1].leaf == GuardCheck(action) && upTo[|upTo| - 1].outcome.Done?
  {
    GuardsStayInPlace(before, action, behind);
    var front := if optimise then Optimised(before) else before;
    var back := if optimise then Optimised(behind) else behind;
    hide Optimised, RunStep, RunLeaf;
    ExecuteBoth(env, front + [GuardCheck(action)], back, s);
    var ran := ExecuteSteps(env, front + [GuardCheck(action)], s);
    upTo := ran.visits;
    past := if ran.err.Some? then [] else ExecuteSteps(env, back, ran.state).visits;
    if ran.err.None? {
      ExecuteBoth(env, front, [GuardCheck(action)], s);
      var middle := ExecuteSteps(env, front, s).state;
      var tried := AttemptsShape(env, GuardCheck(action), middle, 1);
      assert [GuardCheck(action)][1..] == [];
      assert upTo[|upTo| - 1] == tried.last[0];
    } else {
      assert upTo + past == upTo;
    }
  }

  /** Every plan opens with its guard check, before and after optimising. */
  lemma PlansOpenWithAGuard(query: Query)
    ensures Plan(query) != [] && Plan(query)[0].GuardCheck?
    ensures Optimised(Plan(query)) != [] && Optimised(Plan(query))[0] == Plan(query)[0]
  {
    hide Optimised;
    OptimisedPlan(query);
  }

  /**
   * Whatever the query and whichever calls fail, a leaf other than the leading guard check is visited
   * only after that check has completed without error.
   */
  lemma GuardComesFirst<S>(env: Env<S>, query: Query, optimise: bool, s: S, i: nat)
    requires var plan := if optimise then Optimised(Plan(query)) else Plan(query);
             i < |ExecuteSteps(env, plan, s).visits| && ExecuteSteps(env, plan, s).visits[i].leaf != Plan(query)[0]
    ensures var plan := if optimise then Optimised(Plan(query)) else Plan(query);
            exists j :: 0 <= j < i && ExecuteSteps(env, plan, s).visits[j].leaf == Plan(query)[0]
                        && ExecuteSteps(env, plan, s).visits[j].outcome.Done?
  {
    hide Plan, Optimised, ExecuteSteps;
    PlansOpenWithAGuard(query);
    var plan := Plan(query);
    var action, behind := plan[0].action, plan[1..];
    var guard := GuardCheck(action);
    assert plan == [] + [guard] + behind && [] + [guard] == [guard];
    assert Optimised([]) == [] by { NothingToOptimise(); }
    var upTo, past := NothingPassesAGuard(env, [], action, behind, optimise, s);
    OnlyTheGuard(env, action, s);
    assert forall k | 0 <= k < |upTo| :: upTo[k] in upTo && (upTo + past)[k] == upTo[k];
    assert (upTo + past)[|upTo| - 1] == upTo[|upTo| - 1];
  }

  lemma NothingToOptimise()
    ensures Optimised([]) == []
  {
  }

  lemma OnlyTheGuard<S>(env: Env<S>, action: string, s: S)
    ensures forall v | v in ExecuteSteps(env, [GuardCheck(action)], s).visits :: v.leaf == GuardCheck(action)
  {
    assert [GuardCheck(action)][1..] == [];
  }
}
