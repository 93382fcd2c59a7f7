/** What the planner's plans do for the caller: who is asked, for what, and what comes back. */
module QueryAnswers {
  import opened Wrappers
  import opened QueryTypes
  import opened QueryPlanner
  import opened QueryOptimizer
  import opened QueryExecutor
  import opened QueryTheorems

  // ---------------------------------------------------------------- the components

  /** The component that a leaf needs is started, or the leaf has failed for want of it. */
  predicate Needed<S(!new)>(env: Env<S>, v: Visit) {
    && (v.leaf.CoreRead? || v.leaf.CoreWrite? ==> env.has(Core) || v.outcome == Failed(NotReady(Core)))
    && (v.leaf.VectorSearch? || v.leaf.VectorUpsert? ==> env.has(Vector) || v.outcome == Failed(NotReady(Vector)))
    && (v.leaf.SyncPush? || v.leaf.SyncPull? ==> env.has(SyncHub) || v.outcome == Failed(NotReady(SyncHub)))
    && (v.leaf.BranchOp? ==> v.outcome == if env.has(BranchEngine) then Done([]) else Failed(NotReady(BranchEngine)))
    && (v.leaf.ReflectJob? ==> env.has(Reflector) || v.outcome == Failed(NotReady(Reflector)))
    && (v.leaf.GuardCheck? ==> env.has(Guard) || v.outcome == Failed(NotReady(Guard)))
  }

  ghost predicate AllNeeded<S(!new)>(env: Env<S>, visits: seq<Visit>) {
    forall v | v in visits :: Needed(env, v)
  }

  lemma {:induction false} StepNeeds<S(!new)>(env: Env<S>, step: QueryStep, s: S)
    ensures AllNeeded(env, RunStep(env, step, s).visits)
    decreases step, 1
  {
    if !IsLeaf(step) {
      StepsNeed(env, step.steps, s);
    }
  }

  lemma {:induction false} StepsNeed<S(!new)>(env: Env<S>, steps: seq<QueryStep>, s: S)
    ensures AllNeeded(env, RunSteps(env, steps, s).visits)
    decreases steps, 0
  {
    if steps != [] {
      hide RunStep, Needed;
      StepNeeds(env, steps[0], s);
      StepsNeed(env, steps[1..], RunStep(env, steps[0], s).state);
    }
  }

  lemma {:induction false} AttemptsNeed<S(!new)>(env: Env<S>, step: QueryStep, s: S, attempt: nat)
    requires 1 <= attempt <= 3
    ensures AllNeeded(env, Attempts(env, step, s, attempt).visits)
    decreases 3 - attempt
  {
    hide RunStep, Needed;
    StepNeeds(env, step, s);
    if attempt <= 2 {
      AttemptsNeed(env, step, RunStep(env, step, s).state, attempt + 1);
    }
  }

  /** In every execution a leaf whose component is not started fails with that component's name. */
  lemma {:induction false} EveryLeafNeedsItsComponent<S(!new)>(env: Env<S>, steps: seq<QueryStep>, s: S)
    ensures AllNeeded(env, ExecuteSteps(env, steps, s).visits)
    decreases |steps|
  {
    if steps != [] {
      hide Attempts, Needed;
      AttemptsNeed(env, steps[0], s, 1);
      EveryLeafNeedsItsComponent(env, steps[1..], Attempts(env, steps[0], s, 1).state);
    }
  }

  // ---------------------------------------------------------------- the plans

  lemma PlanLeaves(query: Query)
    ensures AllLeaves(Plan(query)) ==
            if query.Remember? then
              [GuardCheck("memory.write"), CoreWrite("INSERT INTO memory_records ..."), VectorUpsert("memories")]
            else Plan(query)
  {
    if query.Remember? {
      CheckedPair(GuardCheck("memory.write"), CoreWrite("INSERT INTO memory_records ..."), VectorUpsert("memories"));
      hide AllLeaves;
    } else {
      LeavesOnly(Plan(query));
    }
  }

  lemma CheckedPair(check: QueryStep, a: QueryStep, b: QueryStep)
    requires IsLeaf(check) && IsLeaf(a) && IsLeaf(b)
    ensures AllLeaves([check, Parallel([a, b])]) == [check, a, b]
  {
    PairHasLeaves(a, b);
    hide Leaves;
    assert Leaves(check) == [check] by { LeafLeaves(check); }
    assert [check, Parallel([a, b])][1..] == [Parallel([a, b])] && [Parallel([a, b])][1..] == [];
    assert AllLeaves([Parallel([a, b])]) == [a, b] + [];
  }

  lemma LeafLeaves(leaf: QueryStep)
    requires IsLeaf(leaf)
    ensures Leaves(leaf) == [leaf]
  {
  }

  lemma {:induction false} LeavesOnly(steps: seq<QueryStep>)
    requires forall i | 0 <= i < |steps| :: IsLeaf(steps[i])
    ensures AllLeaves(steps) == steps
  {
    if steps != [] {
      LeavesOnly(steps[1..]);
    }
  }

  predicate Begins(s: string, prefix: string) {
    |prefix| <= |s| && s[..|prefix|] == prefix
  }

  /** The guard was asked about `action`, and this is what it allows. */
  predicate Fits(action: string, leaf: QueryStep) {
    match leaf
    case CoreWrite(_) => action == "memory.write"
    case VectorUpsert(_) => action == "memory.write"
    case VectorSearch(_, _) => action == "memory.read"
    case CoreRead(_) => action == "memory.read" || action == "branch.create" || action == "raw_sql"
    case SyncPush => action == "sync"
    case SyncPull => action == "sync"
    case ReflectJob(_) => action == "reflect"
    case BranchOp(_) => Begins(action, "branch.")
    case GuardCheck(more) => Begins(more, action)
    case _ => false
  }

  /**
   * What the check at the head of a plan asks the guard about fits every leaf of the plan, and later
   * checks of the plan ask about a part of it.  Only a raw query is checked as one.
   */
  lemma GuardFitsTheWork(query: Query)
    ensures Plan(query) != [] && Plan(query)[0].GuardCheck?
    ensures forall leaf | leaf in AllLeaves(Plan(query)) :: Fits(Plan(query)[0].action, leaf)
    ensures Plan(query)[0].action == "raw_sql" <==> query.Raw?
  {
    PlanLeaves(query);
    hide AllLeaves, Fits;
    FirstCheck(query);
    var action := Plan(query)[0].action;
    forall leaf | leaf in AllLeaves(Plan(query))
      ensures Fits(action, leaf)
    {
      LeafFits(query, leaf);
    }
  }

  lemma FirstCheck(query: Query)
    ensures Plan(query) != [] && Plan(query)[0].GuardCheck?
    ensures Plan(query)[0].action == "raw_sql" <==> query.Raw?
  {
  }

  lemma LeafFits(query: Query, leaf: QueryStep)
    requires leaf in AllLeaves(Plan(query))
    ensures Plan(query) != [] && Plan(query)[0].GuardCheck? && Fits(Plan(query)[0].action, leaf)
  {
    PlanLeaves(query);
    hide AllLeaves;
    if query.Remember? || query.Search? || query.Recall? || query.Raw? {
      MemoryLeafFits(query, leaf);
    } else {
      OtherLeafFits(query, leaf);
    }
  }

  lemma MemoryLeafFits(query: Query, leaf: QueryStep)
    requires query.Remember? || query.Search? || query.Recall? || query.Raw?
    requires leaf in Plan(query) || (query.Remember? && (leaf.CoreWrite? || leaf.VectorUpsert?))
    requires !leaf.Parallel?
    ensures Plan(query) != [] && Plan(query)[0].GuardCheck? && Fits(Plan(query)[0].action, leaf)
  {
  }

  lemma OtherLeafFits(query: Query, leaf: QueryStep)
    requires query.Branch? || query.Merge? || query.Diff? || query.Reflect? || query.Sync?
    requires leaf in Plan(query)
    ensures Plan(query) != [] && Plan(query)[0].GuardCheck? && Fits(Plan(query)[0].action, leaf)
  {
  }

  /** The leaves of each kind of query behind its checks, in order. */
  predicate IsWorkOf(query: Query, work: seq<QueryStep>) {
    match query
    case Remember(_, _, _, _, _) =>
      work == [CoreWrite("INSERT INTO memory_records ..."), VectorUpsert("memories")]
    case Search(_, _, semantic, topK, _) =>
      if semantic then
        && |work| == 2 && work[0].VectorSearch? && work[0].collection == "memories"
        && work[0].topK == 2 * topK - (if 2 * topK < USIZE_LIMIT then 0 else USIZE_LIMIT)
        && work[1] == CoreRead("SELECT * FROM memory_records WHERE id IN (...)")
      else work == [CoreRead("SELECT * FROM memory_records WHERE content LIKE ?")]
    case Recall(_, _) => work == [CoreRead("SELECT * FROM memory_records WHERE id IN (...)")]
    case Branch(_, _, _) => work == [CoreRead("PRAGMA wal_checkpoint(TRUNCATE)"), BranchOp("")]
    case Merge(_, _, target, _) => work == [BranchOp(target + ".preview"), BranchOp(target)]
    case Diff(_, _, _) => work == [BranchOp("diff")]
    case Sync(_) => work == [SyncPush, SyncPull]
    case Reflect(_, jobType, _) => work == [ReflectJob(jobType)]
    case Raw(sql, _, _) => work == [CoreRead(sql)]
  }

  /** And the work is that of the query. */
  lemma PlanDoesTheWork(query: Query)
    ensures IsWorkOf(query, Unchecked(AllLeaves(Plan(query))))
  {
    hide IsWorkOf;
    if query.Remember? || query.Search? || query.Recall? || query.Raw? {
      MemoryWork(query);
    } else {
      OtherWork(query);
    }
  }

  lemma MemoryWork(query: Query)
    requires query.Remember? || query.Search? || query.Recall? || query.Raw?
    ensures IsWorkOf(query, Unchecked(AllLeaves(Plan(query))))
  {
    PlanLeaves(query);
    UncheckedAll(AllLeaves(Plan(query)));
    hide AllLeaves, Unchecked;
  }

  lemma OtherWork(query: Query)
    requires query.Branch? || query.Merge? || query.Diff? || query.Sync? || query.Reflect?
    ensures IsWorkOf(query, Unchecked(AllLeaves(Plan(query))))
  {
    PlanLeaves(query);
    UncheckedAll(AllLeaves(Plan(query)));
    hide AllLeaves, Unchecked;
  }

  function Kept(leaf: QueryStep): seq<QueryStep> {
    if leaf.GuardCheck? then [] else [leaf]
  }

  lemma UncheckedAll(leaves: seq<QueryStep>)
    ensures |leaves| == 2 ==> Unchecked(leaves) == Kept(leaves[0]) + (Kept(leaves[1]) + [])
    ensures |leaves| == 3 ==> Unchecked(leaves) == Kept(leaves[0]) + (Kept(leaves[1]) + (Kept(leaves[2]) + []))
    ensures |leaves| == 4 ==>
              Unchecked(leaves) ==
              Kept(leaves[0]) + (Kept(leaves[1]) + (Kept(leaves[2]) + (Kept(leaves[3]) + [])))
  {
    hide Kept, Unchecked;
    assert leaves[0..] == leaves;
    if 2 <= |leaves| <= 4 {
      UncheckedFrom(leaves, 0);
      UncheckedFrom(leaves, 1);
      UncheckedFrom(leaves, 2);
      if |leaves| > 2 {
        UncheckedFrom(leaves, 3);
        if |leaves| > 3 {
          UncheckedFrom(leaves, 4);
        }
      }
    }
  }

  lemma UncheckedFrom(leaves: seq<QueryStep>, i: nat)
    requires i <= |leaves|
    ensures Unchecked(leaves[i..]) ==
            if i == |leaves| then []
            else Kept(leaves[i]) + Unchecked(leaves[i + 1..])
  {
    assert i < |leaves| ==> leaves[i..][1..] == leaves[i + 1..];
  }

  /**
   * Only two plans check again: a semantic search after everything it has read, and a merge between its
   * preview and itself.
   */
  lemma LaterChecks(query: Query)
    ensures var plan := Plan(query);
            && (query.Search? && query.semantic ==> plan[|plan| - 1] == GuardCheck("memory.read.row_level"))
            && (query.Merge? ==>
                  |plan| == 4 && plan[2] == GuardCheck("branch.merge.conflict_resources")
                  && plan[1] == BranchOp(query.target + ".preview") && plan[3] == BranchOp(query.target))
            && forall i | 1 <= i < |plan| && plan[i].GuardCheck? ::
                 (query.Search? && query.semantic && i == |plan| - 1) || (query.Merge? && i == 2)
  {
  }

  function Unchecked(leaves: seq<QueryStep>): seq<QueryStep> {
    if leaves == [] then []
    else Kept(leaves[0]) + Unchecked(leaves[1..])
  }

  // ---------------------------------------------------------------- the answers

  /** When no call fails, a write, a sync or a reflection delivers no list, and every other query what was read. */
  lemma PlannedAnswer<S(!new)>(env: Env<S>, query: Query, s: S)
    requires AllStarted(env) && Faultless(env, AllLeaves(Plan(query)), s)
    ensures var ran := ExecuteSteps(env, Plan(query), s);
            && ran.err == None
            && Payload(query, RowsOf(ran.visits)) ==
               if query.Remember? || query.Sync? || query.Reflect? then QueryResultData.Unit
               else MemoryEntries(Answers(env, AllLeaves(Plan(query)), s))
  {
    FaultlessDelivers(env, query, Plan(query), s);
    if query.Remember? || query.Sync? || query.Reflect? {
      PlanLeaves(query);
      hide ExecuteSteps, RowsOf, AllLeaves;
      NothingRead(env, AllLeaves(Plan(query)), s);
    }
  }

  lemma {:induction false} NothingRead<S>(env: Env<S>, leaves: seq<QueryStep>, s: S)
    requires Faultless(env, leaves, s)
    requires forall i | 0 <= i < |leaves| :: !leaves[i].CoreRead? && !leaves[i].VectorSearch?
    ensures Answers(env, leaves, s) == []
  {
    if leaves != [] {
      NothingRead(env, leaves[1..], if leaves[0].BranchOp? then s else env.call(s, leaves[0]).0);
    }
  }

  /** A semantic search delivers the vector engine's hits and then the core's rows. */
  lemma SemanticSearchDelivers<S(!new)>(env: Env<S>, query: Query, s: S)
    requires query.Search? && query.semantic
    requires AllStarted(env) && Faultless(env, AllLeaves(Plan(query)), s)
    ensures var search, read := Plan(query)[1], Plan(query)[2];
            var checked := env.call(s, Plan(query)[0]).0;
            var (searched, hits) := env.call(checked, search);
            var rows := env.call(searched, read).1;
            && search.VectorSearch? && read.CoreRead? && hits.Done? && rows.Done?
            && Payload(query, RowsOf(ExecuteSteps(env, Plan(query), s).visits)) == MemoryEntries(hits.rows + rows.rows)
  {
    hide Plan, ExecuteSteps, RowsOf, AllLeaves, Payload, Faultless, Answers, AllStarted;
    PlannedAnswer(env, query, s);
    PlanLeaves(query);
    SearchPlan(query);
    var plan := Plan(query);
    assert plan == [plan[0]] + ([plan[1]] + ([plan[2]] + ([plan[3]] + [])));
    var s1 := env.call(s, plan[0]).0;
    var s2 := env.call(s1, plan[1]).0;
    AnswersFirst(env, plan[0], [plan[1]] + ([plan[2]] + ([plan[3]] + [])), s);
    AnswersFirst(env, plan[1], [plan[2]] + ([plan[3]] + []), s1);
    AnswersFirst(env, plan[2], [plan[3]] + [], s2);
    AnswersFirst(env, plan[3], [], env.call(s2, plan[2]).0);
  }

  lemma SearchPlan(query: Query)
    requires query.Search? && query.semantic
    ensures var plan := Plan(query);
            |plan| == 4 && plan[0].GuardCheck? && plan[1].VectorSearch? && plan[2].CoreRead? && plan[3].GuardCheck?
  {
  }

  lemma AnswersFirst<S>(env: Env<S>, leaf: QueryStep, rest: seq<QueryStep>, s: S)
    requires !leaf.BranchOp? && Faultless(env, [leaf] + rest, s)
    ensures var (after, outcome) := env.call(s, leaf);
            && outcome.Done? && Faultless(env, rest, after)
            && Answers(env, [leaf] + rest, s) ==
               (if leaf.CoreRead? || leaf.VectorSearch? then outcome.rows else []) + Answers(env, rest, after)
            && (rest == [] ==> Answers(env, rest, after) == [])
  {
    assert ([leaf] + rest)[1..] == rest;
  }
}
