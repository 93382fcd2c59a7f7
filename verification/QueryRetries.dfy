/** What the retry loop repeats: exactly when a successful execution completes a leaf only once. */
module QueryRetries {
  import opened Wrappers
  import opened QueryTypes
  import opened QueryPlanner
  import opened QueryOptimizer
  import opened QueryExecutor
  import opened QueryTheorems

  /** The visits that completed a leaf for which `p` holds. */
  function Kept(visits: seq<Visit>, p: QueryStep -> bool): seq<Visit> {
    if visits == [] then []
    else
      var v := visits[|visits| - 1];
      Kept(visits[..|visits| - 1], p) + (if v.outcome.Done? && p(v.leaf) then [v] else [])
  }

  predicate OnlyLeaves(steps: seq<QueryStep>) {
    forall i | 0 <= i < |steps| :: IsLeaf(steps[i])
  }

  /** No leaf for which `p` holds stands before a leaf that calls an engine. */
  predicate Settled(leaves: seq<QueryStep>, p: QueryStep -> bool) {
    forall i, j | 0 <= i < j < |leaves| && p(leaves[i]) :: leaves[j].BranchOp?
  }

  /** That holds within each top-level step. */
  predicate SettledOnTop(steps: seq<QueryStep>, p: QueryStep -> bool) {
    forall i | 0 <= i < |steps| :: Settled(Leaves(steps[i]), p)
  }

  lemma KeptNext(visits: seq<Visit>, v: Visit, p: QueryStep -> bool)
    ensures Kept(visits + [v], p) == Kept(visits, p) + if v.outcome.Done? && p(v.leaf) then [v] else []
  {
    assert (visits + [v])[..|visits|] == visits;
  }

  lemma {:induction false} KeptBoth(a: seq<Visit>, b: seq<Visit>, p: QueryStep -> bool)
    ensures Kept(a + b, p) == Kept(a, p) + Kept(b, p)
  {
    if b == [] {
      assert a + b == a;
    } else {
      var front, v := b[..|b| - 1], b[|b| - 1];
      assert b == front + [v] && a + b == (a + front) + [v];
      hide Kept;
      KeptBoth(a, front, p);
      KeptNext(a + front, v, p);
      KeptNext(front, v, p);
    }
  }

  /** The rows returned are those of the completed leaves that yield any. */
  lemma {:induction false} RowsOfKept(visits: seq<Visit>)
    ensures RowsOf(Kept(visits, Yields)) == RowsOf(visits)
  {
    if visits != [] {
      var v := visits[|visits| - 1];
      RowsOfKept(visits[..|visits| - 1]);
      RowsOfBoth(Kept(visits[..|visits| - 1], Yields), if v.outcome.Done? && Yields(v.leaf) then [v] else []);
      assert [v][..0] == [];
    }
  }

  // ---------------------------------------------------------------- when nothing is repeated

  /** A branch step fails only when the branch engine is not started. */
  predicate Honest<S>(env: Env<S>, v: Visit) {
    v.leaf.BranchOp? ==> (v.outcome.Done? <==> env.has(BranchEngine))
  }

  lemma {:induction false} StepIsHonest<S>(env: Env<S>, step: QueryStep, s: S)
    ensures forall v | v in RunStep(env, step, s).visits :: Honest(env, v)
    decreases step, 1
  {
    if !IsLeaf(step) {
      StepsAreHonest(env, step.steps, s);
    }
  }

  lemma {:induction false} StepsAreHonest<S>(env: Env<S>, steps: seq<QueryStep>, s: S)
    ensures forall v | v in RunSteps(env, steps, s).visits :: Honest(env, v)
    decreases steps, 0
  {
    if steps != [] {
      hide RunStep, Honest;
      StepIsHonest(env, steps[0], s);
      StepsAreHonest(env, steps[1..], RunStep(env, steps[0], s).state);
    }
  }

  lemma {:induction false} AttemptsAreHonest<S>(env: Env<S>, step: QueryStep, s: S, attempt: nat)
    requires 1 <= attempt <= 3
    ensures forall v | v in Attempts(env, step, s, attempt).visits :: Honest(env, v)
    decreases 3 - attempt
  {
    hide RunStep, Honest;
    StepIsHonest(env, step, s);
    AttemptsFrom(env, step, s, attempt);
    if attempt <= 2 {
      AttemptsAreHonest(env, step, RunStep(env, step, s).state, attempt + 1);
    }
  }

  lemma {:induction false} NothingKept(visits: seq<Visit>, p: QueryStep -> bool)
    requires forall i | 0 <= i < |visits| :: visits[i].outcome.Done? ==> !p(visits[i].leaf)
    ensures Kept(visits, p) == []
  {
    if visits != [] {
      NothingKept(visits[..|visits| - 1], p);
    }
  }

  /** A failed attempt at a step that is completed later keeps nothing. */
  lemma {:induction false} FailureKeepsNothing<S>(
    env: Env<S>, leaves: seq<QueryStep>, visits: seq<Visit>, error: Error, last: seq<Visit>, p: QueryStep -> bool)
    requires Settled(leaves, p) && Partial(leaves, visits, error) && Complete(leaves, last)
    requires Honest(env, visits[|visits| - 1]) && Honest(env, last[|visits| - 1])
    ensures Kept(visits, p) == []
  {
    var j := |visits| - 1;
    assert visits[j].leaf == leaves[j] == last[j].leaf;
    forall i | 0 <= i < |visits| && visits[i].outcome.Done?
      ensures !p(visits[i].leaf)
    {
      assert i < j && visits[i].leaf == leaves[i];
    }
    NothingKept(visits, p);
  }

  lemma {:induction false} FailuresKeepNothing<S>(
    env: Env<S>, leaves: seq<QueryStep>, failed: seq<seq<Visit>>, last: seq<Visit>, p: QueryStep -> bool)
    requires Settled(leaves, p) && Complete(leaves, last)
    requires forall i | 0 <= i < |failed| :: FailedTransiently(env, leaves, failed[i])
    requires forall v | v in Joined(failed) || v in last :: Honest(env, v)
    ensures Kept(Joined(failed), p) == []
  {
    if failed != [] {
      hide Settled, Honest;
      assert FailedTransiently(env, leaves, failed[0]);
      var error :| Partial(leaves, failed[0], error) && env.transient(error);
      var end := |failed[0]| - 1;
      assert failed[0][end] in failed[0] && last[end] in last;
      FailureKeepsNothing(env, leaves, failed[0], error, last, p);
      FailuresKeepNothing(env, leaves, failed[1..], last, p);
      KeptBoth(failed[0], Joined(failed[1..]), p);
    }
  }

  /**
   * When the plan is settled for `p`, a successful execution completes the leaves for which `p` holds
   * just as one complete run of the plan's leaves does, whatever failed on the way.
   */
  lemma {:induction false} CompletedExactlyOnce<S>(env: Env<S>, steps: seq<QueryStep>, s: S, p: QueryStep -> bool)
    returns (once: seq<Visit>)
    requires SettledOnTop(steps, p) && ExecuteSteps(env, steps, s).err.None?
    ensures Complete(AllLeaves(steps), once)
    ensures Kept(ExecuteSteps(env, steps, s).visits, p) == Kept(once, p)
    decreases |steps|
  {
    hide Attempts, Leaves, Complete, Kept, FailedTransiently, Settled, Honest;
    if steps == [] {
      once := [];
      NothingToVisit();
    } else {
      var first := AttemptsShape(env, steps[0], s, 1);
      AttemptsAreHonest(env, steps[0], s, 1);
      var ran := Attempts(env, steps[0], s, 1);
      var rest := CompletedExactlyOnce(env, steps[1..], ran.state, p);
      FailuresKeepNothing(env, Leaves(steps[0]), first.failed, first.last, p);
      KeptBoth(Joined(first.failed), first.last, p);
      KeptBoth(ran.visits, ExecuteSteps(env, steps[1..], ran.state).visits, p);
      KeptBoth(first.last, rest, p);
      EndedBoth(Leaves(steps[0]), AllLeaves(steps[1..]), first.last, rest, None);
      once := first.last + rest;
    }
  }

  /** So its rows are each leaf's rows once and in order. */
  lemma RowsExactlyOnce<S>(env: Env<S>, steps: seq<QueryStep>, s: S) returns (once: seq<Visit>)
    requires SettledOnTop(steps, Yields) && ExecuteSteps(env, steps, s).err.None?
    ensures Complete(AllLeaves(steps), once)
    ensures RowsOf(ExecuteSteps(env, steps, s).visits) == RowsOf(once)
  {
    once := CompletedExactlyOnce(env, steps, s, Yields);
    RowsOfKept(ExecuteSteps(env, steps, s).visits);
    RowsOfKept(once);
  }

  /** A plan of leaves is settled for everything. */
  lemma LeavesAreSettled(steps: seq<QueryStep>, p: QueryStep -> bool)
    requires OnlyLeaves(steps)
    ensures SettledOnTop(steps, p)
  {
  }

  // ---------------------------------------------------------------- when something is

  /** Nesting is invisible: a step runs as the sequence of its leaves, and so does a whole plan. */
  lemma {:induction false} NestingIsInvisible<S>(env: Env<S>, steps: seq<QueryStep>, s: S)
    ensures RunSteps(env, AllLeaves(steps), s) == RunSteps(env, steps, s)
    decreases steps, 0
  {
    if steps != [] {
      StepIsItsLeaves(env, steps[0], s);
      hide RunStep, Leaves;
      RunBoth(env, Leaves(steps[0]), AllLeaves(steps[1..]), s);
      NestingIsInvisible(env, steps[1..], RunStep(env, steps[0], s).state);
    }
  }

  lemma {:induction false} StepIsItsLeaves<S>(env: Env<S>, step: QueryStep, s: S)
    ensures RunSteps(env, Leaves(step), s) == RunStep(env, step, s)
    decreases step, 1
  {
    if IsLeaf(step) {
      var ran := RunStep(env, step, s);
      assert [step][1..] == [] && ran.visits + [] == ran.visits;
    } else {
      NestingIsInvisible(env, step.steps, s);
    }
  }

  lemma {:induction false} RunBoth<S>(env: Env<S>, a: seq<QueryStep>, b: seq<QueryStep>, s: S)
    ensures var first := RunSteps(env, a, s);
            RunSteps(env, a + b, s) ==
            if first.err.Some? then first else After(first.visits, RunSteps(env, b, first.state))
    decreases |a|
  {
    if a == [] {
      assert a + b == b && forall v: seq<Visit> :: [] + v == v;
    } else {
      hide RunStep;
      var head := RunStep(env, a[0], s);
      assert (a + b)[1..] == a[1..] + b;
      if head.err.None? {
        RunBoth(env, a[1..], b, head.state);
        var middle := RunSteps(env, a[1..], head.state);
        AfterBoth(head.visits, middle.visits, RunSteps(env, b, middle.state));
      }
    }
  }

  const BUSY := EngineError(Vector, "busy")

  /** Engines that count their calls, answer each with one row, and fail call number `k` transiently. */
  function FailsAt(k: nat): Env<nat> {
    Env(
      _ => true,
      (n, leaf) => (n + 1, if n == k then Failed(BUSY) else Done([Null])),
      _ => true)
  }

  /** The calls that the leaves make. */
  function Calls(leaves: seq<QueryStep>): nat {
    if leaves == [] then 0 else (if leaves[0].BranchOp? then 0 else 1) + Calls(leaves[1..])
  }

  function Good(leaf: QueryStep): Visit {
    Visit(leaf, Done(if leaf.BranchOp? then [] else [Null]))
  }

  function AllGood(leaves: seq<QueryStep>): seq<Visit> {
    if leaves == [] then [] else [Good(leaves[0])] + AllGood(leaves[1..])
  }

  lemma {:induction false} LeavesAreLeaves(step: QueryStep)
    ensures OnlyLeaves(Leaves(step))
    decreases step, 1
  {
    if !IsLeaf(step) {
      AllLeavesAreLeaves(step.steps);
    }
  }

  lemma {:induction false} AllLeavesAreLeaves(steps: seq<QueryStep>)
    ensures OnlyLeaves(AllLeaves(steps))
    decreases steps, 0
  {
    if steps != [] {
      LeavesAreLeaves(steps[0]);
      AllLeavesAreLeaves(steps[1..]);
    }
  }

  /** Before call number `k`, and after it, everything succeeds. */
  lemma {:induction false} RunsWell(k: nat, leaves: seq<QueryStep>, n: nat)
    requires OnlyLeaves(leaves) && (n > k || n + Calls(leaves) <= k)
    ensures RunSteps(FailsAt(k), leaves, n) == Ran(n + Calls(leaves), AllGood(leaves), None)
  {
    if leaves != [] {
      var next := if leaves[0].BranchOp? then n else n + 1;
      assert RunStep(FailsAt(k), leaves[0], n) == Ran(next, [Good(leaves[0])], None);
      RunsWell(k, leaves[1..], next);
    }
  }

  /** A plan that runs while nothing fails is executed without a retry. */
  lemma ExecutesWell(k: nat, steps: seq<QueryStep>, n: nat)
    requires n > k || n + Calls(AllLeaves(steps)) <= k
    ensures ExecuteSteps(FailsAt(k), steps, n) == Ran(n + Calls(AllLeaves(steps)), AllGood(AllLeaves(steps)), None)
  {
    hide RunSteps, ExecuteSteps;
    AllLeavesAreLeaves(steps);
    RunsWell(k, AllLeaves(steps), n);
    NestingIsInvisible(FailsAt(k), steps, n);
    NothingToRetry(FailsAt(k), steps, n);
  }

  /** What a step visits when its leaf `j` makes the call that fails: the leaves before it run twice. */
  function Repeated(leaves: seq<QueryStep>, j: nat): seq<Visit>
    requires j < |leaves|
  {
    AllGood(leaves[..j]) + [Visit(leaves[j], Failed(BUSY))] + AllGood(leaves)
  }

  lemma RunsIntoFailure(leaves: seq<QueryStep>, j: nat, n: nat)
    requires OnlyLeaves(leaves) && j < |leaves| && !leaves[j].BranchOp?
    ensures var k := n + Calls(leaves[..j]);
            RunSteps(FailsAt(k), leaves, n)
            == Ran(k + 1, AllGood(leaves[..j]) + [Visit(leaves[j], Failed(BUSY))], Some(BUSY))
  {
    var k := n + Calls(leaves[..j]);
    var env := FailsAt(k);
    RunsWell(k, leaves[..j], n);
    assert RunStep(env, leaves[j], k) == Ran(k + 1, [Visit(leaves[j], Failed(BUSY))], Some(BUSY));
    RunStepsFrom(env, leaves, j, k);
    assert leaves == leaves[..j] + leaves[j..];
    RunBoth(env, leaves[..j], leaves[j..], n);
  }

  lemma RetriesOnce(step: QueryStep, j: nat, n: nat)
    requires j < |Leaves(step)| && !Leaves(step)[j].BranchOp?
    ensures var k := n + Calls(Leaves(step)[..j]);
            Attempts(FailsAt(k), step, n, 1)
            == Ran(k + 1 + Calls(Leaves(step)), Repeated(Leaves(step), j), None)
  {
    var leaves := Leaves(step);
    hide Leaves, RunSteps, RunStep;
    var k := n + Calls(leaves[..j]);
    LeavesAreLeaves(step);
    RunsIntoFailure(leaves, j, n);
    StepIsItsLeaves(FailsAt(k), step, n);
    RunsWell(k, leaves, k + 1);
    StepIsItsLeaves(FailsAt(k), step, k + 1);
    AttemptsFrom(FailsAt(k), step, n, 1);
    AttemptsFrom(FailsAt(k), step, k + 1, 2);
  }

  lemma {:induction false} KeepsAny(leaves: seq<QueryStep>, p: QueryStep -> bool, i: nat)
    requires i < |leaves| && p(leaves[i])
    ensures Kept(AllGood(leaves), p) != []
  {
    KeptBoth([Good(leaves[0])], AllGood(leaves[1..]), p);
    if i == 0 {
      assert [Good(leaves[0])][..0] == [];
    } else {
      KeepsAny(leaves[1..], p, i - 1);
    }
  }

  /** All complete runs keep equally many visits. */
  lemma {:induction false} CompleteRunsKeepAsMany(leaves: seq<QueryStep>, once: seq<Visit>, p: QueryStep -> bool)
    requires Complete(leaves, once)
    ensures |Kept(once, p)| == |Kept(AllGood(leaves), p)|
  {
    if leaves != [] {
      assert once == [once[0]] + once[1..];
      KeptBoth([once[0]], once[1..], p);
      KeptBoth([Good(leaves[0])], AllGood(leaves[1..]), p);
      assert [once[0]][..0] == [] && [Good(leaves[0])][..0] == [];
      assert forall i | 0 <= i < |once[1..]| :: once[1..][i] == once[i + 1] && leaves[1..][i] == leaves[i + 1];
      CompleteRunsKeepAsMany(leaves[1..], once[1..], p);
    }
  }

  lemma {:induction false} LeavesBoth(a: seq<QueryStep>, b: seq<QueryStep>)
    ensures AllLeaves(a + b) == AllLeaves(a) + AllLeaves(b)
    decreases |a|
  {
    if a == [] {
      assert a + b == b;
    } else {
      hide Leaves;
      assert (a + b)[1..] == a[1..] + b;
      LeavesBoth(a[1..], b);
    }
  }

  lemma {:induction false} AllGoodBoth(a: seq<QueryStep>, b: seq<QueryStep>)
    ensures AllGood(a + b) == AllGood(a) + AllGood(b)
    decreases |a|
  {
    if a == [] {
      assert a + b == b;
    } else {
      assert (a + b)[1..] == a[1..] + b;
      AllGoodBoth(a[1..], b);
    }
  }

  /** From the top-level step on whose leaf `j` makes the one call that fails. */
  lemma ExecutesFromRetry(steps: seq<QueryStep>, j: nat, n: nat)
    requires steps != [] && j < |Leaves(steps[0])| && !Leaves(steps[0])[j].BranchOp?
    ensures var ran := ExecuteSteps(FailsAt(n + Calls(Leaves(steps[0])[..j])), steps, n);
            && ran.err.None?
            && ran.visits == Repeated(Leaves(steps[0]), j) + AllGood(AllLeaves(steps[1..]))
  {
    var leaves := Leaves(steps[0]);
    var k := n + Calls(leaves[..j]);
    var first := Ran(k + 1 + Calls(leaves), Repeated(leaves, j), None);
    RetriesOnce(steps[0], j, n);
    ExecutesWell(k, steps[1..], first.state);
    hide ExecuteSteps, Attempts, Repeated, AllGood, AllLeaves, Leaves, Calls, FailsAt;
    ExecutesOn(FailsAt(k), steps, n, first, ExecuteSteps(FailsAt(k), steps[1..], first.state));
  }

  lemma ExecutesOn<S>(env: Env<S>, steps: seq<QueryStep>, s: S, first: Ran<S>, rest: Ran<S>)
    requires steps != [] && Attempts(env, steps[0], s, 1) == first && first.err.None?
    requires ExecuteSteps(env, steps[1..], first.state) == rest
    ensures ExecuteSteps(env, steps, s) == Ran(rest.state, first.visits + rest.visits, rest.err)
  {
    hide Attempts;
  }

  /** The execution of a plan in which leaf `j` of step `i` makes the one call that fails. */
  lemma ExecutesWithRetry(steps: seq<QueryStep>, i: nat, j: nat) returns (k: nat)
    requires i < |steps| && j < |Leaves(steps[i])| && !Leaves(steps[i])[j].BranchOp?
    ensures var ran := ExecuteSteps(FailsAt(k), steps, 0);
            && ran.err.None?
            && ran.visits == AllGood(AllLeaves(steps[..i]))
                             + (Repeated(Leaves(steps[i]), j) + AllGood(AllLeaves(steps[i + 1..])))
  {
    hide Leaves, AllLeaves, ExecuteSteps, Repeated, AllGood;
    var n := Calls(AllLeaves(steps[..i]));
    k := n + Calls(Leaves(steps[i])[..j]);
    ExecutesWell(k, steps[..i], 0);
    ExecutesFromRetry(steps[i..], j, n);
    assert steps == steps[..i] + steps[i..] && steps[i..][1..] == steps[i + 1..];
    ExecuteBoth(FailsAt(k), steps[..i], steps[i..], 0);
  }

  /**
   * When the plan is not settled for `p`, one transient failure is enough for a successful execution
   * to complete more of the leaves for which `p` holds than any complete run of the plan has.
   */
  lemma RepeatedOtherwise(steps: seq<QueryStep>, p: QueryStep -> bool) returns (k: nat)
    requires !SettledOnTop(steps, p)
    ensures ExecuteSteps(FailsAt(k), steps, 0).err.None?
    ensures forall once | Complete(AllLeaves(steps), once) ::
              |Kept(ExecuteSteps(FailsAt(k), steps, 0).visits, p)| > |Kept(once, p)|
  {
    var i, h, j := Unsettled(steps, p);
    k := RepeatedAt(steps, p, i, h, j);
  }

  lemma Unsettled(steps: seq<QueryStep>, p: QueryStep -> bool) returns (i: nat, h: nat, j: nat)
    requires !SettledOnTop(steps, p)
    ensures i < |steps| && h < j < |Leaves(steps[i])| && p(Leaves(steps[i])[h]) && !Leaves(steps[i])[j].BranchOp?
  {
    i :| 0 <= i < |steps| && !Settled(Leaves(steps[i]), p);
    var leaves := Leaves(steps[i]);
    h, j :| 0 <= h < j < |leaves| && p(leaves[h]) && !leaves[j].BranchOp?;
  }

  lemma RepeatedAt(steps: seq<QueryStep>, p: QueryStep -> bool, i: nat, h: nat, j: nat) returns (k: nat)
    requires i < |steps| && h < j < |Leaves(steps[i])| && p(Leaves(steps[i])[h]) && !Leaves(steps[i])[j].BranchOp?
    ensures ExecuteSteps(FailsAt(k), steps, 0).err.None?
    ensures forall once | Complete(AllLeaves(steps), once) ::
              |Kept(ExecuteSteps(FailsAt(k), steps, 0).visits, p)| > |Kept(once, p)|
  {
    k := ExecutesWithRetry(steps, i, j);
    KeepsMoreThanOnce(steps, p, i, h, j);
    hide Leaves, AllLeaves, ExecuteSteps, Kept, Complete, AllGood, Repeated;
    forall once | Complete(AllLeaves(steps), once)
      ensures |Kept(ExecuteSteps(FailsAt(k), steps, 0).visits, p)| > |Kept(once, p)|
    {
      CompleteRunsKeepAsMany(AllLeaves(steps), once, p);
    }
  }

  lemma KeepsMoreThanOnce(steps: seq<QueryStep>, p: QueryStep -> bool, i: nat, h: nat, j: nat)
    requires i < |steps| && h < j < |Leaves(steps[i])| && p(Leaves(steps[i])[h]) && !Leaves(steps[i])[j].BranchOp?
    ensures var before, behind := AllGood(AllLeaves(steps[..i])), AllGood(AllLeaves(steps[i + 1..]));
            |Kept(before + (Repeated(Leaves(steps[i]), j) + behind), p)| > |Kept(AllGood(AllLeaves(steps)), p)|
  {
    hide Leaves, AllLeaves, Kept, AllGood, Repeated;
    var before, behind := steps[..i], steps[i + 1..];
    assert steps == before + ([steps[i]] + behind);
    OneRun(before, steps[i], behind, p);
    KeepsMore(AllGood(AllLeaves(before)), Leaves(steps[i]), h, j, AllGood(AllLeaves(behind)), p);
  }

  lemma KeepsMore(
    before: seq<Visit>, leaves: seq<QueryStep>, h: nat, j: nat, behind: seq<Visit>, p: QueryStep -> bool)
    requires h < j < |leaves| && p(leaves[h])
    ensures |Kept(before + (Repeated(leaves, j) + behind), p)|
          > |Kept(before, p) + (Kept(AllGood(leaves), p) + Kept(behind, p))|
  {
    hide Kept, AllGood;
    var again, busy := AllGood(leaves[..j]), [Visit(leaves[j], Failed(BUSY))];
    KeptBoth(before, Repeated(leaves, j) + behind, p);
    KeptBoth(Repeated(leaves, j), behind, p);
    KeptBoth(again + busy, AllGood(leaves), p);
    KeptBoth(again, busy, p);
    KeepsAny(leaves[..j], p, h);
  }

  lemma KeptWhole(a: seq<QueryStep>, b: seq<QueryStep>, p: QueryStep -> bool)
    ensures Kept(AllGood(AllLeaves(a + b)), p) == Kept(AllGood(AllLeaves(a)), p) + Kept(AllGood(AllLeaves(b)), p)
  {
    hide AllLeaves, AllGood, Kept;
    LeavesBoth(a, b);
    AllGoodBoth(AllLeaves(a), AllLeaves(b));
    KeptBoth(AllGood(AllLeaves(a)), AllGood(AllLeaves(b)), p);
  }

  lemma OneRun(before: seq<QueryStep>, step: QueryStep, behind: seq<QueryStep>, p: QueryStep -> bool)
    ensures Kept(AllGood(AllLeaves(before + ([step] + behind))), p)
         == Kept(AllGood(AllLeaves(before)), p)
            + (Kept(AllGood(Leaves(step)), p) + Kept(AllGood(AllLeaves(behind)), p))
  {
    OneStepLeaves(step);
    hide Leaves, AllLeaves, AllGood, Kept;
    KeptWhole(before, [step] + behind, p);
    KeptWhole([step], behind, p);
  }

  lemma OneStepLeaves(step: QueryStep)
    ensures AllLeaves([step]) == Leaves(step)
  {
    LeavesThen(step, []);
    assert [step] == [step] + [];
  }

  // ---------------------------------------------------------------- the plans

  predicate Writes(leaf: QueryStep) {
    leaf.CoreWrite?
  }

  predicate Pushes(leaf: QueryStep) {
    leaf.SyncPush?
  }

  lemma LeafIsSettled(p: QueryStep -> bool)
    ensures forall step: QueryStep | IsLeaf(step) :: Leaves(step) == [step] && Settled(Leaves(step), p)
  {
  }

  lemma PairIsSettled(a: QueryStep, b: QueryStep, p: QueryStep -> bool)
    requires IsLeaf(a) && IsLeaf(b)
    ensures Settled(Leaves(Parallel([a, b])), p) <==> p(a) ==> b.BranchOp?
  {
    PairHasLeaves(a, b);
    var leaves := Leaves(Parallel([a, b]));
    assert leaves[0] == a && leaves[1] == b;
  }

  /** No plan of the planner repeats rows, but that of a `remember`, and only that, may repeat its insert. */
  lemma PlansAreSettledForRows(query: Query)
    ensures SettledOnTop(Plan(query), Yields) && SettledOnTop(Plan(query), Pushes)
    ensures SettledOnTop(Plan(query), Writes) <==> !query.Remember?
  {
    hide Leaves, Settled;
    SettledPlan(query, Yields);
    SettledPlan(query, Pushes);
    SettledPlan(query, Writes);
  }

  lemma SettledPlan(query: Query, p: QueryStep -> bool)
    ensures SettledOnTop(Plan(query), p) <==> !query.Remember? || !p(CoreWrite("INSERT INTO memory_records ..."))
  {
    if query.Remember? {
      PairIsSettled(CoreWrite("INSERT INTO memory_records ..."), VectorUpsert("memories"), p);
      LeafIsSettled(p);
      hide Leaves, Settled;
      assert Plan(query)[1] == Parallel([CoreWrite("INSERT INTO memory_records ..."), VectorUpsert("memories")]);
    } else {
      OtherPlansAreLeaves(query);
      LeavesAreSettled(Plan(query), p);
    }
  }

  lemma OtherPlansAreLeaves(query: Query)
    requires !query.Remember?
    ensures OnlyLeaves(Plan(query))
  {
  }

  /** Optimised plans repeat no rows either, but pairing makes a sync, and only a sync, repeat its push. */
  lemma OptimisedPlansAreSettledForRows(query: Query)
    ensures SettledOnTop(Optimised(Plan(query)), Yields)
    ensures SettledOnTop(Optimised(Plan(query)), Pushes) <==> !query.Sync?
  {
    hide Optimised, Plan, Leaves, Settled;
    OptimisedPlan(query);
    PlansAreSettledForRows(query);
    if query.Sync? {
      PairIsSettled(SyncPush, SyncPull, Yields);
      PairIsSettled(SyncPush, SyncPull, Pushes);
      LeafIsSettled(Yields);
      assert Optimised(Plan(query))[1] == Parallel([SyncPush, SyncPull]);
    }
  }

  // ---------------------------------------------------------------- what pairing unsettles

  /** How many independent steps stand directly before step `i`. */
  function RunBefore(steps: seq<QueryStep>, i: nat): nat
    requires i <= |steps|
  {
    if i == 0 || !Independent(steps[i - 1]) then 0 else 1 + RunBefore(steps, i - 1)
  }

  /** Step `i` is at an even offset of its maximal run of independent steps, and not the run's last. */
  predicate OpensPair(steps: seq<QueryStep>, i: nat) {
    i + 1 < |steps| && Independent(steps[i]) && Independent(steps[i + 1]) && RunBefore(steps, i) % 2 == 0
  }

  predicate PairsOpenWithout(steps: seq<QueryStep>, p: QueryStep -> bool) {
    forall i | 0 <= i < |steps| && OpensPair(steps, i) :: !p(steps[i])
  }

  lemma {:induction false} RunBeforeThen(step: QueryStep, rest: seq<QueryStep>, i: nat)
    requires i <= |rest|
    ensures RunBefore([step] + rest, i + 1) ==
            RunBefore(rest, i) + if RunBefore(rest, i) == i && Independent(step) then 1 else 0
    ensures RunBefore(rest, i) <= i && (RunBefore(rest, i) == i > 0 ==> Independent(rest[0]))
  {
    var all := [step] + rest;
    if i == 0 {
      assert all[0] == step && RunBefore(all, 0) == 0;
    } else {
      assert all[i] == rest[i - 1];
      RunBeforeThen(step, rest, i - 1);
    }
  }

  /** A step that is not paired with the next leaves the pairs behind it as they are. */
  lemma OpensPairLater(step: QueryStep, rest: seq<QueryStep>, i: nat)
    requires i < |rest| && !(Independent(step) && Independent(rest[0]))
    ensures OpensPair([step] + rest, i + 1) <==> OpensPair(rest, i)
  {
    var all := [step] + rest;
    assert all[i + 1] == rest[i] && (i + 1 < |rest| ==> all[i + 2] == rest[i + 1]);
    RunBeforeThen(step, rest, i);
  }

  /** And so does a pair. */
  lemma OpensPairBehindPair(a: QueryStep, b: QueryStep, rest: seq<QueryStep>, i: nat)
    requires i < |rest| && Independent(a) && Independent(b)
    ensures OpensPair([a] + ([b] + rest), i + 2) <==> OpensPair(rest, i)
  {
    var all := [a] + ([b] + rest);
    assert all[i + 2] == rest[i] && (i + 1 < |rest| ==> all[i + 3] == rest[i + 1]);
    RunBeforeThen(b, rest, i);
    RunBeforeThen(a, [b] + rest, i + 1);
  }

  lemma SettledThen(step: QueryStep, rest: seq<QueryStep>, p: QueryStep -> bool)
    ensures SettledOnTop([step] + rest, p) <==> Settled(Leaves(step), p) && SettledOnTop(rest, p)
  {
    hide Leaves, Settled;
    var all := [step] + rest;
    assert all[0] == step && forall i | 0 <= i < |rest| :: all[i + 1] == rest[i];
  }

  lemma WithoutLater(step: QueryStep, rest: seq<QueryStep>, p: QueryStep -> bool)
    requires rest != [] && !(Independent(step) && Independent(rest[0]))
    ensures PairsOpenWithout([step] + rest, p) <==> PairsOpenWithout(rest, p)
  {
    hide OpensPair;
    var all := [step] + rest;
    forall i | 0 <= i < |rest|
      ensures OpensPair(all, i + 1) <==> OpensPair(rest, i)
      ensures all[i + 1] == rest[i]
    {
      OpensPairLater(step, rest, i);
    }
    assert !OpensPair(all, 0) by { NothingOpens(step, rest); }
    assert PairsOpenWithout(all, p) ==> PairsOpenWithout(rest, p) by {
      assert forall i | 0 <= i < |rest| && OpensPair(rest, i) :: OpensPair(all, i + 1) && all[i + 1] == rest[i];
    }
    assert PairsOpenWithout(rest, p) ==> PairsOpenWithout(all, p) by {
      assert forall i | 1 <= i < |all| && OpensPair(all, i) ::
               OpensPair(all, (i - 1) + 1) && all[(i - 1) + 1] == rest[i - 1];
    }
  }

  lemma NothingOpens(step: QueryStep, rest: seq<QueryStep>)
    requires rest != [] && !(Independent(step) && Independent(rest[0]))
    ensures !OpensPair([step] + rest, 0)
  {
    assert ([step] + rest)[1] == rest[0];
  }

  lemma WithoutBehindPair(a: QueryStep, b: QueryStep, rest: seq<QueryStep>, p: QueryStep -> bool)
    requires Independent(a) && Independent(b)
    ensures PairsOpenWithout([a] + ([b] + rest), p) <==> !p(a) && PairsOpenWithout(rest, p)
  {
    var all := [a] + ([b] + rest);
    PairOpens(a, b, rest);
    hide OpensPair;
    forall i | 0 <= i < |rest|
      ensures OpensPair(all, i + 2) <==> OpensPair(rest, i)
      ensures all[i + 2] == rest[i]
    {
      OpensPairBehindPair(a, b, rest, i);
    }
    assert PairsOpenWithout(all, p) ==> PairsOpenWithout(rest, p) by {
      assert forall i | 0 <= i < |rest| && OpensPair(rest, i) :: OpensPair(all, i + 2) && all[i + 2] == rest[i];
    }
    assert !p(a) && PairsOpenWithout(rest, p) ==> PairsOpenWithout(all, p) by {
      assert forall i | 2 <= i < |all| && OpensPair(all, i) ::
               OpensPair(all, (i - 2) + 2) && all[(i - 2) + 2] == rest[i - 2];
    }
  }

  lemma PairOpens(a: QueryStep, b: QueryStep, rest: seq<QueryStep>)
    requires Independent(a) && Independent(b)
    ensures OpensPair([a] + ([b] + rest), 0) && !OpensPair([a] + ([b] + rest), 1)
  {
    var all := [a] + ([b] + rest);
    assert all[0] == a && all[1] == b;
    assert RunBefore(all, 0) == 0 && RunBefore(all, 1) == 1 + RunBefore(all, 0);
  }

  /**
   * Pairing keeps a plan settled for `p` exactly when the plan was and no step for which `p` holds is
   * at an even offset of a run of independent steps without being its last.
   */
  lemma {:induction false} PairingMayUnsettle(steps: seq<QueryStep>, p: QueryStep -> bool)
    ensures SettledOnTop(Promote(steps), p) <==> SettledOnTop(steps, p) && PairsOpenWithout(steps, p)
    decreases |steps|
  {
    if |steps| >= 2 {
      hide SettledOnTop, PairsOpenWithout, Settled, Leaves;
      assert steps == [steps[0]] + steps[1..] && steps[1..] == [steps[1]] + steps[2..];
      SettledThen(steps[0], steps[1..], p);
      if Independent(steps[0]) && Independent(steps[1]) {
        PairingMayUnsettle(steps[2..], p);
        SettledThen(steps[1], steps[2..], p);
        LeafIsSettled(p);
        PairIsSettled(steps[0], steps[1], p);
        SettledThen(Parallel([steps[0], steps[1]]), Promote(steps[2..]), p);
        WithoutBehindPair(steps[0], steps[1], steps[2..], p);
      } else {
        PairingMayUnsettle(steps[1..], p);
        SettledThen(steps[0], Promote(steps[1..]), p);
        WithoutLater(steps[0], steps[1..], p);
      }
    }
  }

  // ---------------------------------------------------------------- how many failures are survived

  function Failures(visits: seq<Visit>): nat {
    if visits == [] then 0
    else Failures(visits[..|visits| - 1]) + (if visits[|visits| - 1].outcome.Failed? then 1 else 0)
  }

  lemma {:induction false} FailuresBoth(a: seq<Visit>, b: seq<Visit>)
    ensures Failures(a + b) == Failures(a) + Failures(b)
  {
    if b == [] {
      assert a + b == a;
    } else {
      assert (a + b)[..|a + b| - 1] == a + b[..|b| - 1];
      FailuresBoth(a, b[..|b| - 1]);
    }
  }

  lemma {:induction false} NoFailures(visits: seq<Visit>)
    requires forall i | 0 <= i < |visits| :: visits[i].outcome.Done?
    ensures Failures(visits) == 0
  {
    if visits != [] {
      NoFailures(visits[..|visits| - 1]);
    }
  }

  /** The execution's error, if it has one, is that of its last visit. */
  predicate EndsWith(visits: seq<Visit>, err: Option<Error>) {
    err.Some? ==> visits != [] && visits[|visits| - 1].outcome == Failed(err.value)
  }

  lemma RunFailsOnce<S>(env: Env<S>, step: QueryStep, s: S)
    ensures var ran := RunStep(env, step, s);
            Failures(ran.visits) == (if ran.err.Some? then 1 else 0) && EndsWith(ran.visits, ran.err)
  {
    RunStepShape(env, step, s);
    hide RunStep, Leaves;
    var visits := RunStep(env, step, s).visits;
    if RunStep(env, step, s).err.Some? {
      NoFailures(visits[..|visits| - 1]);
    } else {
      NoFailures(visits);
    }
  }

  lemma {:induction false} AttemptsFail<S>(env: Env<S>, step: QueryStep, s: S, attempt: nat)
    requires 1 <= attempt <= 3
    ensures var ran := Attempts(env, step, s, attempt);
            && (ran.err.Some? && env.transient(ran.err.value) ==> Failures(ran.visits) >= 4 - attempt)
            && EndsWith(ran.visits, ran.err)
    decreases 3 - attempt
  {
    hide RunStep, Failures;
    RunFailsOnce(env, step, s);
    AttemptsFrom(env, step, s, attempt);
    var ran := RunStep(env, step, s);
    if ran.err.Some? && env.transient(ran.err.value) && attempt <= 2 {
      AttemptsFail(env, step, ran.state, attempt + 1);
      FailuresBoth(ran.visits, Attempts(env, step, ran.state, attempt + 1).visits);
    }
  }

  /** An execution that ends with a transient error has seen three calls fail, whatever the engines and the plan. */
  lemma {:induction false} GivingUpTakesThreeFailures<S>(env: Env<S>, steps: seq<QueryStep>, s: S)
    ensures var ran := ExecuteSteps(env, steps, s);
            && (ran.err.Some? && env.transient(ran.err.value) ==> Failures(ran.visits) >= 3)
            && EndsWith(ran.visits, ran.err)
    decreases |steps|
  {
    if steps != [] {
      hide Attempts, Failures;
      AttemptsFail(env, steps[0], s, 1);
      var first := Attempts(env, steps[0], s, 1);
      if first.err.None? {
        GivingUpTakesThreeFailures(env, steps[1..], first.state);
        FailuresBoth(first.visits, ExecuteSteps(env, steps[1..], first.state).visits);
      }
    }
  }

  /** So up to two failures are survived, by every engine and every plan, when they are transient. */
  lemma TwoFailuresAreSurvived<S>(env: Env<S>, steps: seq<QueryStep>, s: S)
    requires var visits := ExecuteSteps(env, steps, s).visits;
             && Failures(visits) <= 2
             && forall v | v in visits && v.outcome.Failed? :: env.transient(v.outcome.error)
    ensures ExecuteSteps(env, steps, s).err.None?
  {
    GivingUpTakesThreeFailures(env, steps, s);
    var ran := ExecuteSteps(env, steps, s);
    hide ExecuteSteps, Failures;
    assert forall i | 0 <= i < |ran.visits| :: ran.visits[i] in ran.visits;
  }

  /** From call number `n` to call number `n'` the engine that fails call `k` has failed only that one. */
  predicate FailedAt(k: nat, n: nat, n': nat, visits: seq<Visit>) {
    n <= n' && Failures(visits) == if n <= k < n' then 1 else 0
  }

  lemma FailedBoth(k: nat, n: nat, a: seq<Visit>, n': nat, b: seq<Visit>, n'': nat)
    requires FailedAt(k, n, n', a) && FailedAt(k, n', n'', b)
    ensures FailedAt(k, n, n'', a + b)
  {
    FailuresBoth(a, b);
    hide Failures;
  }

  lemma LeafFailsAt(k: nat, leaf: QueryStep, n: nat)
    requires IsLeaf(leaf)
    ensures var ran := RunLeaf(FailsAt(k), leaf, n); FailedAt(k, n, ran.state, ran.visits)
  {
    var visits := RunLeaf(FailsAt(k), leaf, n).visits;
    assert visits[..0] == [];
  }

  lemma {:induction false} StepFailsAt(k: nat, step: QueryStep, n: nat)
    ensures var ran := RunStep(FailsAt(k), step, n); FailedAt(k, n, ran.state, ran.visits)
    decreases step, 1
  {
    if IsLeaf(step) {
      LeafFailsAt(k, step, n);
    } else {
      StepsFailAt(k, step.steps, n);
    }
    hide FailsAt, RunLeaf, FailedAt;
  }

  lemma {:induction false} StepsFailAt(k: nat, steps: seq<QueryStep>, n: nat)
    ensures var ran := RunSteps(FailsAt(k), steps, n); FailedAt(k, n, ran.state, ran.visits)
    decreases steps, 0
  {
    if steps != [] {
      hide FailsAt, RunStep, FailedAt;
      var first := RunStep(FailsAt(k), steps[0], n);
      StepFailsAt(k, steps[0], n);
      if first.err.None? {
        StepsFailAt(k, steps[1..], first.state);
        var rest := RunSteps(FailsAt(k), steps[1..], first.state);
        FailedBoth(k, n, first.visits, first.state, rest.visits, rest.state);
      }
    }
  }

  lemma {:induction false} AttemptsFailAt(k: nat, step: QueryStep, n: nat, attempt: nat)
    requires 1 <= attempt <= 3
    ensures var ran := Attempts(FailsAt(k), step, n, attempt); FailedAt(k, n, ran.state, ran.visits)
    decreases 3 - attempt
  {
    hide FailsAt, RunStep, FailedAt;
    StepFailsAt(k, step, n);
    AttemptsFrom(FailsAt(k), step, n, attempt);
    var ran := RunStep(FailsAt(k), step, n);
    if ran.err.Some? && FailsAt(k).transient(ran.err.value) && attempt <= 2 {
      AttemptsFailAt(k, step, ran.state, attempt + 1);
      var again := Attempts(FailsAt(k), step, ran.state, attempt + 1);
      FailedBoth(k, n, ran.visits, ran.state, again.visits, again.state);
    }
  }

  lemma {:induction false} ExecutionFailsAt(k: nat, steps: seq<QueryStep>, n: nat)
    ensures var ran := ExecuteSteps(FailsAt(k), steps, n); FailedAt(k, n, ran.state, ran.visits)
    decreases |steps|
  {
    if steps != [] {
      hide FailsAt, Attempts, FailedAt;
      var first := Attempts(FailsAt(k), steps[0], n, 1);
      AttemptsFailAt(k, steps[0], n, 1);
      if first.err.None? {
        ExecutionFailsAt(k, steps[1..], first.state);
        var rest := ExecuteSteps(FailsAt(k), steps[1..], first.state);
        FailedBoth(k, n, first.visits, first.state, rest.visits, rest.state);
      }
    }
  }

  /** In particular one failing call never makes an execution fail. */
  lemma OneFailureIsSurvived(k: nat, steps: seq<QueryStep>, n: nat)
    ensures ExecuteSteps(FailsAt(k), steps, n).err.None?
  {
    ExecutionFailsAt(k, steps, n);
    hide ExecuteSteps, Failures;
    TwoFailuresAreSurvived(FailsAt(k), steps, n);
  }

  /**
   * So where such a step opens a pair, a single transient failure completes it more often in the paired
   * plan than in the plan itself, though both executions succeed: a vector search returns its rows twice.
   */
  lemma PairingRepeats(steps: seq<QueryStep>, p: QueryStep -> bool) returns (k: nat)
    requires SettledOnTop(steps, p) && !PairsOpenWithout(steps, p)
    ensures ExecuteSteps(FailsAt(k), steps, 0).err.None? && ExecuteSteps(FailsAt(k), Promote(steps), 0).err.None?
    ensures |Kept(ExecuteSteps(FailsAt(k), Promote(steps), 0).visits, p)|
          > |Kept(ExecuteSteps(FailsAt(k), steps, 0).visits, p)|
  {
    PairingMayUnsettle(steps, p);
    hide Promote, ExecuteSteps, Kept, Complete, SettledOnTop, PairsOpenWithout;
    k := RepeatedOtherwise(Promote(steps), p);
    OneFailureIsSurvived(k, steps, 0);
    PairingIsInvisible(FailsAt(k), steps, 0);
    var once := CompletedExactlyOnce(FailsAt(k), steps, 0, p);
  }
}
