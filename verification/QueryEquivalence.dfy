/**
 * When optimising a plan can be noticed.
 *
 * A group of steps shares one retry budget where its members had one each, so that a plan with
 * anything to merge or to pair can fail after optimising where it succeeded before.
 */
module QueryEquivalence {
  import opened Wrappers
  import opened QueryTypes
  import opened QueryPlanner
  import opened QueryOptimizer
  import opened QueryExecutor
  import opened QueryTheorems
  import opened QueryRetries

  // ---------------------------------------------------------------- engines that fail at given calls

  /** The statements of a batch: one more than the separators in it. */
  function Parts(sql: string): (parts: nat)
    ensures parts >= 1
  {
    if |sql| < 2 then 1
    else if sql[..2] == "; " then 1 + Parts(sql[2..])
    else Parts(sql[1..])
  }

  lemma {:induction false} PartsOfJoin(a: string, b: string)
    ensures Parts(Join(a, b)) == Parts(a) + Parts(b)
  {
    var joined := Join(a, b);
    if |a| == 0 {
      assert joined[..2] == "; " && joined[2..] == b;
    } else if |a| == 1 {
      assert joined[1] == ';' && joined[1..] == "; " + b;
      assert ("; " + b)[..2] == "; " && ("; " + b)[2..] == b;
    } else if a[..2] == "; " {
      assert joined[..2] == a[..2] && joined[2..] == Join(a[2..], b);
      PartsOfJoin(a[2..], b);
    } else {
      assert joined[..2] == a[..2] && joined[1..] == Join(a[1..], b);
      PartsOfJoin(a[1..], b);
    }
  }

  /** Statements number `n` to `n + parts - 1` in turn, each answered with one row, up to one that fails. */
  function Statements(fails: nat -> bool, n: nat, parts: nat): (nat, Outcome)
    requires parts >= 1
    decreases parts
  {
    if fails(n) then (n + 1, Failed(BUSY))
    else if parts == 1 then (n + 1, Done([Null]))
    else
      var (after, rest) := Statements(fails, n + 1, parts - 1);
      (after, if rest.Failed? then rest else Done([Null] + rest.rows))
  }

  /** How many statements a leaf makes the engines carry out. */
  function Weight(leaf: QueryStep): nat {
    if leaf.BranchOp? then 0 else if leaf.CoreRead? then Parts(leaf.sql) else 1
  }

  function Weights(leaves: seq<QueryStep>): nat {
    if leaves == [] then 0 else Weight(leaves[0]) + Weights(leaves[1..])
  }

  /** Engines that count statements and fail the given ones transiently; a batch is its statements in turn. */
  function FailsOn(fails: nat -> bool): Env<nat> {
    Env(
      _ => true,
      (n: nat, leaf: QueryStep) => Statements(fails, n, if leaf.CoreRead? then Parts(leaf.sql) else 1),
      _ => true)
  }

  lemma {:induction false} StatementsBoth(fails: nat -> bool, n: nat, p: nat, q: nat)
    requires p >= 1 && q >= 1
    ensures var (middle, first) := Statements(fails, n, p);
            Statements(fails, n, p + q) ==
            if first.Failed? then (middle, first)
            else
              var (after, second) := Statements(fails, middle, q);
              (after, if second.Failed? then second else Done(first.rows + second.rows))
    decreases p
  {
    if !fails(n) && p > 1 {
      StatementsBoth(fails, n + 1, p - 1, q);
      var (_, rest) := Statements(fails, n + 1, p - 1);
      if rest.Done? {
        var (middle, _) := Statements(fails, n + 1, p - 1);
        var (_, second) := Statements(fails, middle, q);
        assert second.Done? ==> [Null] + (rest.rows + second.rows) == ([Null] + rest.rows) + second.rows;
      }
    }
  }

  lemma FailsOnBatchesReads(fails: nat -> bool)
    ensures BatchesReads(FailsOn(fails))
  {
    forall s, a, b
      ensures FailsOn(fails).call(s, CoreRead(Join(a, b))) == InTurn(FailsOn(fails), s, a, b)
    {
      PartsOfJoin(a, b);
      StatementsBoth(fails, s, Parts(a), Parts(b));
    }
  }

  predicate Clear(fails: nat -> bool, from: nat, to: nat) {
    forall i | from <= i < to :: !fails(i)
  }

  lemma {:induction false} StatementsEnd(fails: nat -> bool, n: nat, parts: nat, j: nat)
    requires parts >= 1 && n <= j && Clear(fails, n, j)
    ensures j < n + parts && fails(j) ==> Statements(fails, n, parts) == (j + 1, Failed(BUSY))
    ensures j == n + parts ==> Statements(fails, n, parts).0 == j && Statements(fails, n, parts).1.Done?
    decreases parts
  {
    if j > n && parts > 1 {
      StatementsEnd(fails, n + 1, parts - 1, j);
    }
  }

  /** Leaves run up to the first statement that fails, or to the end. */
  lemma {:induction false} LeavesEnd(fails: nat -> bool, leaves: seq<QueryStep>, n: nat, j: nat)
    requires OnlyLeaves(leaves) && n <= j && Clear(fails, n, j)
    ensures var ran := RunSteps(FailsOn(fails), leaves, n);
            && (j < n + Weights(leaves) && fails(j) ==> ran.state == j + 1 && ran.err == Some(BUSY))
            && (j == n + Weights(leaves) ==> ran.state == j && ran.err == None)
    decreases |leaves|
  {
    if leaves != [] {
      var first := RunStep(FailsOn(fails), leaves[0], n);
      LeafEnds(fails, leaves[0], n, if j < n + Weight(leaves[0]) then j else n + Weight(leaves[0]));
      hide RunStep, FailsOn;
      if j >= n + Weight(leaves[0]) {
        LeavesEnd(fails, leaves[1..], first.state, j);
      }
    }
  }

  lemma LeafEnds(fails: nat -> bool, leaf: QueryStep, n: nat, j: nat)
    requires IsLeaf(leaf) && n <= j && Clear(fails, n, j)
    ensures var ran := RunStep(FailsOn(fails), leaf, n);
            && (j < n + Weight(leaf) && fails(j) ==> ran.state == j + 1 && ran.err == Some(BUSY))
            && (j == n + Weight(leaf) ==> ran.state == j && ran.err == None)
  {
    if !leaf.BranchOp? {
      StatementsEnd(fails, n, Weight(leaf), j);
    }
  }

  lemma StepEnds(fails: nat -> bool, step: QueryStep, n: nat, j: nat)
    requires n <= j && Clear(fails, n, j)
    ensures var ran := RunStep(FailsOn(fails), step, n);
            && (j < n + Weights(Leaves(step)) && fails(j) ==> ran.state == j + 1 && ran.err == Some(BUSY))
            && (j == n + Weights(Leaves(step)) ==> ran.state == j && ran.err == None)
  {
    hide RunStep, RunSteps, Leaves, FailsOn, Clear;
    LeavesAreLeaves(step);
    StepIsItsLeaves(FailsOn(fails), step, n);
    LeavesEnd(fails, Leaves(step), n, j);
  }

  /** Where nothing fails a plan is executed to its end. */
  lemma ExecutesClear(fails: nat -> bool, steps: seq<QueryStep>, n: nat)
    requires Clear(fails, n, n + Weights(AllLeaves(steps)))
    ensures var ran := ExecuteSteps(FailsOn(fails), steps, n);
            ran.state == n + Weights(AllLeaves(steps)) && ran.err == None
  {
    hide RunSteps, ExecuteSteps, AllLeaves, Weights, FailsOn, Clear;
    AllLeavesAreLeaves(steps);
    LeavesEnd(fails, AllLeaves(steps), n, n + Weights(AllLeaves(steps)));
    NestingIsInvisible(FailsOn(fails), steps, n);
    NothingToRetry(FailsOn(fails), steps, n);
  }

  // ---------------------------------------------------------------- one budget for two

  /** Statement `k` fails, and then, after `p` that do not, two in a row. */
  function Flaky(k: nat, p: nat): nat -> bool {
    i => i == k || i == k + p + 1 || i == k + p + 2
  }

  /** An attempt that fails at statement `j` leaves the matter to the next attempt, if there is one. */
  lemma AttemptFails(fails: nat -> bool, step: QueryStep, n: nat, attempt: nat, j: nat)
    requires 1 <= attempt <= 3 && n <= j < n + Weights(Leaves(step)) && Clear(fails, n, j) && fails(j)
    ensures var ran := Attempts(FailsOn(fails), step, n, attempt);
            if attempt == 3 then ran.err == Some(BUSY)
            else
              var again := Attempts(FailsOn(fails), step, j + 1, attempt + 1);
              ran.err == again.err && ran.state == again.state
  {
    assert FailsOn(fails).transient(BUSY);
    hide RunStep, Leaves, Weights, FailsOn, Clear;
    StepEnds(fails, step, n, j);
    AttemptsFrom(FailsOn(fails), step, n, attempt);
  }

  lemma AttemptSucceeds(fails: nat -> bool, step: QueryStep, n: nat, attempt: nat)
    requires 1 <= attempt <= 3 && Clear(fails, n, n + Weights(Leaves(step)))
    ensures var ran := Attempts(FailsOn(fails), step, n, attempt);
            ran.err == None && ran.state == n + Weights(Leaves(step))
  {
    hide RunStep, Leaves, Weights, FailsOn, Clear;
    StepEnds(fails, step, n, n + Weights(Leaves(step)));
    AttemptsFrom(FailsOn(fails), step, n, attempt);
  }

  /** Two steps of which the first takes `p` statements succeed on their own: one retry, then two. */
  lemma TwoBudgets(k: nat, p: nat, x: QueryStep, y: QueryStep)
    requires p >= 1 && Weights(Leaves(x)) == p && Weights(Leaves(y)) >= 1
    ensures var first := Attempts(FailsOn(Flaky(k, p)), x, k, 1);
            first.err == None && first.state == k + p + 1
    ensures var second := Attempts(FailsOn(Flaky(k, p)), y, k + p + 1, 1);
            second.err == None && second.state == k + p + 3 + Weights(Leaves(y))
  {
    var fails := Flaky(k, p);
    hide Attempts, Leaves, Weights, FailsOn;
    AttemptFails(fails, x, k, 1, k);
    AttemptSucceeds(fails, x, k + 1, 2);
    AttemptFails(fails, y, k + p + 1, 1, k + p + 1);
    AttemptFails(fails, y, k + p + 2, 2, k + p + 2);
    AttemptSucceeds(fails, y, k + p + 3, 3);
  }

  /** A step that takes more than `p` statements fails in all three attempts. */
  lemma OneBudget(k: nat, p: nat, group: QueryStep)
    requires p >= 1 && Weights(Leaves(group)) > p
    ensures Attempts(FailsOn(Flaky(k, p)), group, k, 1).err == Some(BUSY)
  {
    var fails := Flaky(k, p);
    hide Attempts, Leaves, Weights, FailsOn;
    AttemptFails(fails, group, k, 1, k);
    AttemptFails(fails, group, k + 1, 2, k + p + 1);
    AttemptFails(fails, group, k + p + 2, 3, k + p + 2);
  }

  /** The plan has two steps where the other plan, up to there the same, has one step of greater weight. */
  predicate Grouped(steps: seq<QueryStep>, other: seq<QueryStep>, i: nat, group: QueryStep, rest: seq<QueryStep>) {
    && i + 1 < |steps| && IsLeaf(steps[i]) && IsLeaf(steps[i + 1])
    && 1 <= Weight(steps[i]) < Weights(Leaves(group)) && Weight(steps[i + 1]) >= 1
    && other == steps[..i] + ([group] + rest)
  }

  lemma LeafWeight(leaf: QueryStep)
    requires IsLeaf(leaf)
    ensures Weights(Leaves(leaf)) == Weight(leaf)
  {
    assert [leaf][1..] == [];
  }

  lemma BothOnTheirOwn(x: QueryStep, y: QueryStep, rest: seq<QueryStep>, k: nat, p: nat)
    requires p >= 1 && Weights(Leaves(x)) == p && Weights(Leaves(y)) >= 1
    ensures var env, after := FailsOn(Flaky(k, p)), k + p + 3 + Weights(Leaves(y));
            ExecuteSteps(env, [x, y] + rest, k).err == ExecuteSteps(env, rest, after).err
  {
    hide *;
    TwoBudgets(k, p, x, y);
    TwoThen(FailsOn(Flaky(k, p)), x, y, rest, k);
  }

  lemma OnTheirOwn(x: QueryStep, y: QueryStep, rest: seq<QueryStep>, k: nat)
    requires IsLeaf(x) && IsLeaf(y) && Weight(x) >= 1 && Weight(y) >= 1
    ensures ExecuteSteps(FailsOn(Flaky(k, Weight(x))), [x, y] + rest, k).err == None
  {
    var p := Weight(x);
    LeafWeight(x);
    LeafWeight(y);
    hide *;
    var after := k + p + 3 + Weights(Leaves(y));
    BothOnTheirOwn(x, y, rest, k, p);
    ClearOutside(k, p, after, after + Weights(AllLeaves(rest)));
    ExecutesClear(Flaky(k, p), rest, after);
  }

  lemma ClearOutside(k: nat, p: nat, from: nat, to: nat)
    requires to <= k || from >= k + p + 3
    ensures Clear(Flaky(k, p), from, to)
  {
  }

  lemma TwoThen<S>(env: Env<S>, x: QueryStep, y: QueryStep, rest: seq<QueryStep>, s: S)
    ensures var first := Attempts(env, x, s, 1);
            var second := Attempts(env, y, first.state, 1);
            first.err.None? && second.err.None? ==>
              ExecuteSteps(env, [x, y] + rest, s).err == ExecuteSteps(env, rest, second.state).err
  {
    hide Attempts;
    assert ([x, y] + rest)[1..] == [y] + rest && ([y] + rest)[1..] == rest;
  }

  lemma AsAGroup(group: QueryStep, rest: seq<QueryStep>, k: nat, p: nat)
    requires p >= 1 && Weights(Leaves(group)) > p
    ensures ExecuteSteps(FailsOn(Flaky(k, p)), [group] + rest, k).err == Some(BUSY)
  {
    hide Leaves, Weights, FailsOn, ExecuteSteps, Attempts;
    OneBudget(k, p, group);
    assert ([group] + rest)[0..] == [group] + rest;
    ExecuteFrom(FailsOn(Flaky(k, p)), [group] + rest, 0, k);
  }

  lemma BothErr<S>(env: Env<S>, a: seq<QueryStep>, b: seq<QueryStep>, s: S)
    ensures var first := ExecuteSteps(env, a, s);
            first.err.None? ==> ExecuteSteps(env, a + b, s).err == ExecuteSteps(env, b, first.state).err
  {
    hide ExecuteSteps;
    ExecuteBoth(env, a, b, s);
  }

  lemma BeforeTheGroup(before: seq<QueryStep>, p: nat)
    ensures var k := Weights(AllLeaves(before));
            var ran := ExecuteSteps(FailsOn(Flaky(k, p)), before, 0);
            ran.err == None && ran.state == k
  {
    hide *;
    var k := Weights(AllLeaves(before));
    ClearOutside(k, p, 0, k);
    ExecutesClear(Flaky(k, p), before, 0);
  }

  lemma UngroupedSucceeds(before: seq<QueryStep>, x: QueryStep, y: QueryStep, rest: seq<QueryStep>)
    requires IsLeaf(x) && IsLeaf(y) && Weight(x) >= 1 && Weight(y) >= 1
    ensures var k := Weights(AllLeaves(before));
            ExecuteSteps(FailsOn(Flaky(k, Weight(x))), before + ([x, y] + rest), 0).err == None
  {
    var k, p := Weights(AllLeaves(before)), Weight(x);
    hide *;
    BeforeTheGroup(before, p);
    OnTheirOwn(x, y, rest, k);
    BothErr(FailsOn(Flaky(k, p)), before, [x, y] + rest, 0);
  }

  lemma GroupedFails(before: seq<QueryStep>, group: QueryStep, rest: seq<QueryStep>, p: nat)
    requires p >= 1 && Weights(Leaves(group)) > p
    ensures var k := Weights(AllLeaves(before));
            ExecuteSteps(FailsOn(Flaky(k, p)), before + ([group] + rest), 0).err == Some(BUSY)
  {
    var k := Weights(AllLeaves(before));
    hide *;
    BeforeTheGroup(before, p);
    AsAGroup(group, rest, k, p);
    BothErr(FailsOn(Flaky(k, p)), before, [group] + rest, 0);
  }

  /** A pattern of three failures that tells the two plans apart: one succeeds and the other gives up. */
  lemma BudgetsDiffer(steps: seq<QueryStep>, other: seq<QueryStep>, i: nat, group: QueryStep, rest: seq<QueryStep>)
    returns (k: nat, p: nat)
    requires Grouped(steps, other, i, group, rest)
    ensures p >= 1 && BatchesReads(FailsOn(Flaky(k, p)))
    ensures ExecuteSteps(FailsOn(Flaky(k, p)), steps, 0).err == None
    ensures ExecuteSteps(FailsOn(Flaky(k, p)), other, 0).err == Some(BUSY)
  {
    var before, x, y, behind := steps[..i], steps[i], steps[i + 1], steps[i + 2..];
    assert steps == before + ([x, y] + behind);
    hide Leaves, AllLeaves, Weights, Weight, FailsOn, Flaky, ExecuteSteps, BatchesReads;
    k, p := Weights(AllLeaves(before)), Weight(x);
    FailsOnBatchesReads(Flaky(k, p));
    UngroupedSucceeds(before, x, y, behind);
    GroupedFails(before, group, rest, p);
  }

  // ---------------------------------------------------------------- where the passes group

  lemma PairWeight(a: QueryStep, b: QueryStep)
    requires Independent(a) && Independent(b)
    ensures Weights(Leaves(Parallel([a, b]))) == 2
  {
    PairHasLeaves(a, b);
    assert [a, b][1..] == [b] && [b][1..] == [];
    assert Weights([b]) == 1 && Weights([a, b]) == 1 + Weights([b]);
  }

  lemma {:induction false} MergedHead(sql: string, rest: seq<QueryStep>) returns (merged: string, tail: seq<QueryStep>)
    ensures MergeReads([CoreRead(sql)] + rest) == [CoreRead(merged)] + tail && Parts(merged) >= Parts(sql)
    decreases |rest|
  {
    var steps := [CoreRead(sql)] + rest;
    if rest == [] {
      merged, tail := sql, [];
      assert steps == [CoreRead(merged)] + tail;
    } else if rest[0].CoreRead? {
      PartsOfJoin(sql, rest[0].sql);
      assert steps[1] == rest[0] && steps[2..] == rest[1..];
      merged, tail := MergedHead(Join(sql, rest[0].sql), rest[1..]);
    } else {
      assert steps[1] == rest[0] && steps[1..] == rest;
      merged, tail := sql, MergeReads(rest);
    }
  }

  lemma {:induction false} FirstPair(steps: seq<QueryStep>) returns (i: nat, group: QueryStep, rest: seq<QueryStep>)
    requires !NoAdjacentIndependent(steps)
    ensures Grouped(steps, Promote(steps), i, group, rest)
    decreases |steps|
  {
    if Independent(steps[0]) && Independent(steps[1]) {
      PairWeight(steps[0], steps[1]);
      i, group, rest := 0, Parallel([steps[0], steps[1]]), Promote(steps[2..]);
    } else {
      BeforeNormal(steps[0], steps[1..]);
      assert steps == [steps[0]] + steps[1..];
      hide NoAdjacentIndependent, Leaves, Weights;
      i, group, rest := FirstPair(steps[1..]);
      GroupedLater(steps, Promote(steps), i, group, rest);
      i := i + 1;
    }
  }

  lemma GroupedLater(steps: seq<QueryStep>, other: seq<QueryStep>, i: nat, group: QueryStep, rest: seq<QueryStep>)
    requires steps != [] && other != [] && other[0] == steps[0]
    requires Grouped(steps[1..], other[1..], i, group, rest)
    ensures Grouped(steps, other, i + 1, group, rest)
  {
    hide Leaves, Weights, Weight;
    assert other == [steps[0]] + (steps[1..][..i] + ([group] + rest));
    assert [steps[0]] + steps[1..][..i] == steps[..i + 1];
  }

  predicate Joinable(a: QueryStep, b: QueryStep) {
    (a.CoreRead? && b.CoreRead?) || (Independent(a) && Independent(b))
  }

  lemma ReadsGroup(steps: seq<QueryStep>) returns (group: QueryStep, rest: seq<QueryStep>)
    requires |steps| >= 2 && steps[0].CoreRead? && steps[1].CoreRead?
    ensures Grouped(steps, Optimised(steps), 0, group, rest)
  {
    PartsOfJoin(steps[0].sql, steps[1].sql);
    var merged, tail := MergedHead(Join(steps[0].sql, steps[1].sql), steps[2..]);
    var all := [CoreRead(merged)] + tail;
    group, rest := CoreRead(merged), Promote(tail);
    assert all[1..] == tail && [group] + [] == [group];
    assert Promote(all) == [group] + rest;
    LeafWeight(group);
    assert steps[..0] + ([group] + rest) == [group] + rest;
  }

  lemma IndependentGroup(steps: seq<QueryStep>) returns (group: QueryStep, rest: seq<QueryStep>)
    requires |steps| >= 2 && Independent(steps[0]) && Independent(steps[1])
    ensures Grouped(steps, Optimised(steps), 0, group, rest)
  {
    PairWeight(steps[0], steps[1]);
    var tail := steps[1..];
    assert tail[1..] == steps[2..] && [tail[0]] + [] == [tail[0]] && (|steps| == 2 ==> steps[2..] == []);
    assert MergeReads(tail) == [steps[1]] + MergeReads(steps[2..]);
    var merged := MergeReads(steps);
    assert merged == [steps[0]] + MergeReads(tail);
    assert merged[1] == steps[1] && merged[2..] == MergeReads(steps[2..]);
    group, rest := Parallel([steps[0], steps[1]]), Promote(merged[2..]);
    assert steps[..0] + ([group] + rest) == [group] + rest;
  }

  lemma NotYetGrouped(steps: seq<QueryStep>)
    requires |steps| >= 2 && !Joinable(steps[0], steps[1])
    ensures Optimised(steps) == [steps[0]] + Optimised(steps[1..])
    ensures !Normal(steps) ==> !Normal(steps[1..])
  {
    var tail := steps[1..];
    assert steps == [steps[0]] + tail;
    BeforeNormal(steps[0], tail);
    MergedFirst(tail);
    var merged := [steps[0]] + MergeReads(tail);
    assert merged[1..] == MergeReads(tail);
    hide NoAdjacentReads, NoAdjacentIndependent;
  }

  /** Merging does not change what the first step can be paired with. */
  lemma {:induction false} MergedFirst(steps: seq<QueryStep>)
    requires steps != []
    ensures MergeReads(steps) != [] && (Independent(MergeReads(steps)[0]) <==> Independent(steps[0]))
    decreases |steps|
  {
    if |steps| >= 2 && steps[0].CoreRead? && steps[1].CoreRead? {
      MergedFirst([CoreRead(Join(steps[0].sql, steps[1].sql))] + steps[2..]);
    }
  }

  lemma {:induction false} FirstGroup(steps: seq<QueryStep>) returns (i: nat, group: QueryStep, rest: seq<QueryStep>)
    requires !Normal(steps)
    ensures Grouped(steps, Optimised(steps), i, group, rest)
    decreases |steps|
  {
    if steps[0].CoreRead? && steps[1].CoreRead? {
      i := 0;
      group, rest := ReadsGroup(steps);
    } else if Independent(steps[0]) && Independent(steps[1]) {
      i := 0;
      group, rest := IndependentGroup(steps);
    } else {
      NotYetGrouped(steps);
      hide Normal, Optimised, Grouped;
      i, group, rest := FirstGroup(steps[1..]);
      assert Optimised(steps)[1..] == Optimised(steps[1..]);
      GroupedLater(steps, Optimised(steps), i, group, rest);
      i := i + 1;
    }
  }

  // ---------------------------------------------------------------- the exact conditions

  /** `Flaky(k, p)` fails exactly the three statements `k`, `k + p + 1` and `k + p + 2`. */
  lemma FlakyFailsThree(k: nat, p: nat)
    ensures forall i: nat :: Flaky(k, p)(i) <==> i in {k, k + p + 1, k + p + 2}
    ensures |{k, k + p + 1, k + p + 2}| == 3
  {
  }

  /** A plan that optimising changes can succeed as it is and fail once it is optimised, after three failures. */
  lemma OptimisingCanFail(steps: seq<QueryStep>) returns (k: nat, p: nat)
    requires !Normal(steps)
    ensures p >= 1 && BatchesReads(FailsOn(Flaky(k, p)))
    ensures ExecuteSteps(FailsOn(Flaky(k, p)), steps, 0).err == None
    ensures ExecuteSteps(FailsOn(Flaky(k, p)), Optimised(steps), 0).err == Some(BUSY)
  {
    hide Normal, Optimised, Grouped, ExecuteSteps, FailsOn, Flaky, BatchesReads;
    var i, group, rest := FirstGroup(steps);
    k, p := BudgetsDiffer(steps, Optimised(steps), i, group, rest);
  }

  /**
   * Optimising is unnoticed by every core engine that answers a batch of reads in turn, whatever fails
   * and whatever is retried, exactly when the plan has nothing to merge and nothing to pair.
   */
  lemma OptimisingIsUnnoticedExactlyWhen(steps: seq<QueryStep>)
    ensures (forall env: Env<nat>, s: nat | BatchesReads(env) ::
               Agree(ExecuteSteps(env, Optimised(steps), s), ExecuteSteps(env, steps, s)))
       <==> Normal(steps)
  {
    FixedExactlyWhenNormal(steps);
    hide Normal, Optimised, ExecuteSteps, FailsOn, Flaky, BatchesReads;
    if !Normal(steps) {
      var k, p := OptimisingCanFail(steps);
      var env := FailsOn(Flaky(k, p));
      assert !Agree(ExecuteSteps(env, Optimised(steps), 0), ExecuteSteps(env, steps, 0));
    }
  }

  /** Pairing alone is unnoticed by every engine exactly when no two independent steps are neighbours. */
  lemma PairingIsUnnoticedExactlyWhen(steps: seq<QueryStep>)
    ensures (forall env: Env<nat>, s: nat ::
               Agree(ExecuteSteps(env, Promote(steps), s), ExecuteSteps(env, steps, s)))
       <==> NoAdjacentIndependent(steps)
  {
    PromoteNormalises(steps);
    hide NoAdjacentIndependent, NoAdjacentReads, Promote, ExecuteSteps, FailsOn, Flaky, BatchesReads, Grouped;
    if !NoAdjacentIndependent(steps) {
      var i, group, rest := FirstPair(steps);
      var k, p := BudgetsDiffer(steps, Promote(steps), i, group, rest);
      var env := FailsOn(Flaky(k, p));
      assert !Agree(ExecuteSteps(env, Promote(steps), 0), ExecuteSteps(env, steps, 0));
    }
  }

  /** Among the planner's plans this concerns that of a sync alone, and there it does happen. */
  lemma OptimisedSyncCanFail(query: Query) returns (k: nat, p: nat)
    requires query.Sync?
    ensures ExecuteSteps(FailsOn(Flaky(k, p)), Plan(query), 0).err == None
    ensures ExecuteSteps(FailsOn(Flaky(k, p)), Optimised(Plan(query)), 0).err == Some(BUSY)
  {
    OnlySyncChanges(query);
    hide Plan, Normal, Optimised, ExecuteSteps, FailsOn, Flaky, BatchesReads;
    k, p := OptimisingCanFail(Plan(query));
  }

  lemma OnlySyncChanges(query: Query)
    ensures Normal(Plan(query)) <==> !query.Sync?
  {
    if query.Sync? {
      assert Independent(Plan(query)[1]) && Independent(Plan(query)[2]);
    } else {
      PlansAreNormal(query);
    }
  }
}
