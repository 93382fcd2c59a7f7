/** Execution of a plan: a recursive interpreter below, a retry loop over the top-level steps above. */
module QueryExecutor {
  import opened Wrappers
  import opened QueryTypes
  import opened QueryOptimizer

  datatype Component = Guard | Core | Vector | SyncHub | BranchEngine | Reflector

  datatype Error = NotReady(component: Component) | EngineError(component: Component, reason: string)

  datatype Outcome = Done(rows: seq<Json>) | Failed(error: Error)

  /**
   * The engines: which are started, how a call to one changes the state `S` of the world behind
   * them and what it answers, and which of their errors are transient.
   */
  datatype Env<!S> = Env(
    has: Component -> bool,
    call: (S, QueryStep) -> (S, Outcome),
    transient: Error -> bool)

  function ComponentOf(leaf: QueryStep): Component
    requires IsLeaf(leaf)
  {
    match leaf
    case CoreRead(_) | CoreWrite(_) => Core
    case VectorSearch(_, _) | VectorUpsert(_) => Vector
    case SyncPush | SyncPull => SyncHub
    case BranchOp(_) => BranchEngine
    case ReflectJob(_) => Reflector
    case GuardCheck(_) => Guard
  }

  /** Whether the executor keeps what the leaf's call returns. */
  predicate Yields(leaf: QueryStep) {
    leaf.CoreRead? || leaf.VectorSearch?
  }

  /** A leaf that the executor came to, and how that ended. */
  datatype Visit = Visit(leaf: QueryStep, outcome: Outcome)

  function RowsOf(visits: seq<Visit>): seq<Json> {
    if visits == [] then []
    else
      var v := visits[|visits| - 1];
      RowsOf(visits[..|visits| - 1]) + (if Yields(v.leaf) && v.outcome.Done? then v.outcome.rows else [])
  }

  /** What running a step did: the world after it, the leaves visited, and the error that stopped it. */
  datatype Ran<S> = Ran(state: S, visits: seq<Visit>, err: Option<Error>)

  /** A guard check fails only when its call does; what the guard answers is not looked at. */
  function RunLeaf<S>(env: Env<S>, leaf: QueryStep, s: S): Ran<S>
    requires IsLeaf(leaf)
  {
    var component := ComponentOf(leaf);
    if !env.has(component) then Ran(s, [Visit(leaf, Failed(NotReady(component)))], Some(NotReady(component)))
    else if leaf.BranchOp? then Ran(s, [Visit(leaf, Done([]))], None)
    else
      var (s', outcome) := env.call(s, leaf);
      Ran(s', [Visit(leaf, outcome)], if outcome.Done? then None else Some(outcome.error))
  }

  function RunStep<S>(env: Env<S>, step: QueryStep, s: S): Ran<S>
    decreases step, 1
  {
    if IsLeaf(step) then RunLeaf(env, step, s) else RunSteps(env, step.steps, s)
  }

  function RunSteps<S>(env: Env<S>, steps: seq<QueryStep>, s: S): Ran<S>
    decreases steps, 0
  {
    if steps == [] then Ran(s, [], None)
    else
      var first := RunStep(env, steps[0], s);
      if first.err.Some? then first
      else
        var rest := RunSteps(env, steps[1..], first.state);
        Ran(rest.state, first.visits + rest.visits, rest.err)
  }

  /** A top-level step from its attempt number `attempt` on: a transient error allows two more attempts. */
  function Attempts<S>(env: Env<S>, step: QueryStep, s: S, attempt: nat): Ran<S>
    requires 1 <= attempt <= 3
    decreases 3 - attempt
  {
    var ran := RunStep(env, step, s);
    if ran.err.Some? && env.transient(ran.err.value) && attempt <= 2 then
      var again := Attempts(env, step, ran.state, attempt + 1);
      Ran(again.state, ran.visits + again.visits, again.err)
    else ran
  }

  function ExecuteSteps<S>(env: Env<S>, steps: seq<QueryStep>, s: S): Ran<S>
    decreases |steps|
  {
    if steps == [] then Ran(s, [], None)
    else
      var first := Attempts(env, steps[0], s, 1);
      if first.err.Some? then first
      else
        var rest := ExecuteSteps(env, steps[1..], first.state);
        Ran(rest.state, first.visits + rest.visits, rest.err)
  }

  // ---------------------------------------------------------------- when nothing fails

  ghost predicate AllStarted<S>(env: Env<S>) {
    forall component :: env.has(component)
  }

  /** From `s` on the engines answer the leaves, called one after another, without an error. */
  predicate Faultless<S>(env: Env<S>, leaves: seq<QueryStep>, s: S) {
    leaves == []
    || (leaves[0].BranchOp? && Faultless(env, leaves[1..], s))
    || (!leaves[0].BranchOp? && env.call(s, leaves[0]).1.Done? && Faultless(env, leaves[1..], env.call(s, leaves[0]).0))
  }

  /** The world after the leaves were called one after another; a branch operation calls nobody. */
  function WorldAfter<S>(env: Env<S>, leaves: seq<QueryStep>, s: S): S {
    if leaves == [] then s
    else WorldAfter(env, leaves[1..], if leaves[0].BranchOp? then s else env.call(s, leaves[0]).0)
  }

  /** What the core's reads and the vector searches among the leaves answer, in order, and nothing else. */
  function Answers<S>(env: Env<S>, leaves: seq<QueryStep>, s: S): seq<Json>
    requires Faultless(env, leaves, s)
  {
    if leaves == [] then []
    else
      match leaves[0]
      case CoreRead(_) => env.call(s, leaves[0]).1.rows + Answers(env, leaves[1..], env.call(s, leaves[0]).0)
      case VectorSearch(_, _) => env.call(s, leaves[0]).1.rows + Answers(env, leaves[1..], env.call(s, leaves[0]).0)
      case BranchOp(_) => Answers(env, leaves[1..], s)
      case _ => Answers(env, leaves[1..], env.call(s, leaves[0]).0)
  }

  lemma {:induction false} AnswersBoth<S>(env: Env<S>, a: seq<QueryStep>, b: seq<QueryStep>, s: S)
    ensures Faultless(env, a + b, s) <==> Faultless(env, a, s) && Faultless(env, b, WorldAfter(env, a, s))
    ensures WorldAfter(env, a + b, s) == WorldAfter(env, b, WorldAfter(env, a, s))
    ensures Faultless(env, a + b, s) ==>
              Answers(env, a + b, s) == Answers(env, a, s) + Answers(env, b, WorldAfter(env, a, s))
    decreases |a|
  {
    if a == [] {
      assert a + b == b;
    } else {
      assert (a + b)[1..] == a[1..] + b;
      AnswersBoth(env, a[1..], b, if a[0].BranchOp? then s else env.call(s, a[0]).0);
    }
  }

  /** The run succeeded, left the world as the calls do, and its rows are the answers. */
  predicate Answered<S(==)>(env: Env<S>, leaves: seq<QueryStep>, s: S, ran: Ran<S>)
    requires Faultless(env, leaves, s)
  {
    ran.err == None && ran.state == WorldAfter(env, leaves, s) && RowsOf(ran.visits) == Answers(env, leaves, s)
  }

  lemma LeafAnswers<S>(env: Env<S>, leaf: QueryStep, s: S)
    requires IsLeaf(leaf) && AllStarted(env) && Faultless(env, [leaf], s)
    ensures Answered(env, [leaf], s, RunLeaf(env, leaf, s))
  {
    OneAnswers(env, leaf, s);
    hide Faultless, Answers, WorldAfter, RowsOf;
    var v := RunLeaf(env, leaf, s).visits[0];
    assert RunLeaf(env, leaf, s).visits == [v];
    VisitYields(leaf, if v.outcome.Done? then v.outcome.rows else [], NotReady(Core));
  }

  lemma OneAnswers<S>(env: Env<S>, leaf: QueryStep, s: S)
    requires Faultless(env, [leaf], s)
    ensures WorldAfter(env, [leaf], s) == if leaf.BranchOp? then s else env.call(s, leaf).0
    ensures !leaf.BranchOp? ==> env.call(s, leaf).1.Done?
    ensures Answers(env, [leaf], s) ==
            if leaf.CoreRead? || leaf.VectorSearch? then env.call(s, leaf).1.rows else []
  {
    assert [leaf][1..] == [];
    var after := if leaf.BranchOp? then s else env.call(s, leaf).0;
    assert Answers(env, [], after) == [];
  }

  lemma {:induction false} StepAnswers<S>(env: Env<S>, step: QueryStep, s: S)
    requires AllStarted(env) && Faultless(env, Leaves(step), s)
    ensures Answered(env, Leaves(step), s, RunStep(env, step, s))
    decreases step, 1
  {
    if IsLeaf(step) {
      LeafAnswers(env, step, s);
    } else {
      StepsAnswer(env, step.steps, s);
    }
  }

  lemma {:induction false} StepsAnswer<S>(env: Env<S>, steps: seq<QueryStep>, s: S)
    requires AllStarted(env) && Faultless(env, AllLeaves(steps), s)
    ensures Answered(env, AllLeaves(steps), s, RunSteps(env, steps, s))
    decreases steps, 0
  {
    if steps != [] {
      hide RunStep, Leaves, Faultless, Answers, WorldAfter, RowsOf, AllStarted;
      AnswersBoth(env, Leaves(steps[0]), AllLeaves(steps[1..]), s);
      StepAnswers(env, steps[0], s);
      var first := RunStep(env, steps[0], s);
      StepsAnswer(env, steps[1..], first.state);
      RowsOfBoth(first.visits, RunSteps(env, steps[1..], first.state).visits);
    }
  }

  /** Without a fault no step is tried twice: the execution is one run through the leaves. */
  lemma {:induction false} ExecutionAnswers<S>(env: Env<S>, steps: seq<QueryStep>, s: S)
    requires AllStarted(env) && Faultless(env, AllLeaves(steps), s)
    ensures Answered(env, AllLeaves(steps), s, ExecuteSteps(env, steps, s))
    decreases |steps|
  {
    if steps != [] {
      hide RunStep, Leaves, Faultless, Answers, WorldAfter, RowsOf, AllStarted;
      AnswersBoth(env, Leaves(steps[0]), AllLeaves(steps[1..]), s);
      StepAnswers(env, steps[0], s);
      var first := RunStep(env, steps[0], s);
      assert Attempts(env, steps[0], s, 1) == first;
      ExecutionAnswers(env, steps[1..], first.state);
      RowsOfBoth(first.visits, ExecuteSteps(env, steps[1..], first.state).visits);
    }
  }

  /** Whatever failed before or after, a visit yields rows exactly if it is a read or vector search that succeeded. */
  lemma VisitYields(leaf: QueryStep, rows: seq<Json>, error: Error)
    ensures match leaf
            case CoreRead(_) => RowsOf([Visit(leaf, Done(rows))]) == rows
            case VectorSearch(_, _) => RowsOf([Visit(leaf, Done(rows))]) == rows
            case _ => RowsOf([Visit(leaf, Done(rows))]) == []
    ensures RowsOf([Visit(leaf, Failed(error))]) == []
  {
    assert [] + [Visit(leaf, Done(rows))] == [Visit(leaf, Done(rows))];
    RowsOfNext([], Visit(leaf, Done(rows)));
    RowsOfNext([], Visit(leaf, Failed(error)));
    assert [] + [Visit(leaf, Failed(error))] == [Visit(leaf, Failed(error))];
  }

  /** The payload of a successful execution. */
  function Payload(query: Query, rows: seq<Json>): QueryResultData {
    if rows != [] then MemoryEntries(rows)
    else if query.Sync? || query.Reflect? || query.Remember? then QueryResultData.Unit
    else MemoryEntries([])
  }

  /** What a caller gets for `answers`: a list of entries, except for requests that have nothing to list. */
  predicate Delivers(query: Query, answers: seq<Json>, data: QueryResultData) {
    if answers != [] then data == MemoryEntries(answers)
    else
      match query
      case Sync(_) => data == QueryResultData.Unit
      case Reflect(_, _, _) => data == QueryResultData.Unit
      case Remember(_, _, _, _, _) => data == QueryResultData.Unit
      case _ => data == MemoryEntries([])
  }

  /** An execution in which nothing fails delivers the answers of its reads and vector searches. */
  lemma FaultlessDelivers<S>(env: Env<S>, query: Query, steps: seq<QueryStep>, s: S)
    ensures AllStarted(env) && Faultless(env, AllLeaves(steps), s) ==>
              var ran := ExecuteSteps(env, steps, s);
              && ran.err == None && ran.state == WorldAfter(env, AllLeaves(steps), s)
              && Delivers(query, Answers(env, AllLeaves(steps), s), Payload(query, RowsOf(ran.visits)))
  {
    if AllStarted(env) && Faultless(env, AllLeaves(steps), s) {
      ExecutionAnswers(env, steps, s);
    }
  }

  // ---------------------------------------------------------------- the program

  class Rows {
    var items: seq<Json>

    constructor ()
      ensures items == []
    {
      items := [];
    }
  }

  class QueryExecutor<S> {
    const env: Env<S>
    var state: S
    ghost var visits: seq<Visit>

    constructor (env: Env<S>, state: S)
      ensures this.env == env && this.state == state && visits == []
    {
      this.env, this.state, visits := env, state, [];
    }

    /** `ran` is what happened between the two states. */
    twostate predicate Did(ran: Ran<S>, accumulated: Rows)
      reads this, accumulated
    {
      && state == ran.state
      && visits == old(visits) + ran.visits
      && accumulated.items == old(accumulated.items) + RowsOf(ran.visits)
    }

    method ExecuteLeaf(leaf: QueryStep, accumulated: Rows) returns (err: Option<Error>)
      requires IsLeaf(leaf)
      modifies this, accumulated
      ensures var ran := RunLeaf(env, leaf, old(state)); Did(ran, accumulated) && err == ran.err
    {
      var component := ComponentOf(leaf);
      if !env.has(component) {
        visits := visits + [Visit(leaf, Failed(NotReady(component)))];
        return Some(NotReady(component));
      }
      if leaf.BranchOp? {
        visits := visits + [Visit(leaf, Done([]))];
        return None;
      }
      var (after, outcome) := env.call(state, leaf);
      state := after;
      visits := visits + [Visit(leaf, outcome)];
      if outcome.Failed? {
        return Some(outcome.error);
      }
      if Yields(leaf) {
        accumulated.items := accumulated.items + outcome.rows;
      }
      return None;
    }

    method ExecuteStep(step: QueryStep, accumulated: Rows) returns (err: Option<Error>)
      modifies this, accumulated
      ensures var ran := RunStep(env, step, old(state)); Did(ran, accumulated) && err == ran.err
      decreases step, 1
    {
      if IsLeaf(step) {
        err := ExecuteLeaf(step, accumulated);
      } else {
        err := ExecuteAll(step.steps, accumulated);
      }
    }

    /** The children of a `Parallel` or `Sequential` step: one after another in both cases. */
    method ExecuteAll(steps: seq<QueryStep>, accumulated: Rows) returns (err: Option<Error>)
      modifies this, accumulated
      ensures var ran := RunSteps(env, steps, old(state)); Did(ran, accumulated) && err == ran.err
      decreases steps, 0
    {
      hide RunStep, RunSteps, RowsOf;
      ghost var done: seq<Visit> := [];
      NoSteps(env, state);
      assert steps[0..] == steps;
      err := None;
      for i := 0 to |steps|
        invariant visits == old(visits) + done
        invariant accumulated.items == old(accumulated.items) + RowsOf(done)
        invariant RunSteps(env, steps, old(state)) == After(done, RunSteps(env, steps[i..], state))
        invariant err == None
      {
        ghost var ran := RunStep(env, steps[i], state);
        RunStepsFrom(env, steps, i, state);
        AfterBoth(done, ran.visits, RunSteps(env, steps[i + 1..], ran.state));
        RowsOfBoth(done, ran.visits);
        err := ExecuteStep(steps[i], accumulated);
        done := done + ran.visits;
        if err.Some? {
          return;
        }
      }
      assert steps[|steps|..] == [] && done + [] == done;
      NoSteps(env, state);
    }

    /** One top-level step: at most three attempts, the rows of failed attempts staying where they are. */
    method ExecuteWithRetries(step: QueryStep, accumulated: Rows) returns (err: Option<Error>)
      modifies this, accumulated
      ensures var ran := Attempts(env, step, old(state), 1); Did(ran, accumulated) && err == ran.err
    {
      hide RunStep, Attempts, RowsOf;
      NoSteps(env, state);
      ghost var done: seq<Visit> := [];
      var attempts := 0;
      while true
        invariant 0 <= attempts <= 2
        invariant visits == old(visits) + done
        invariant accumulated.items == old(accumulated.items) + RowsOf(done)
        invariant Attempts(env, step, old(state), 1) == After(done, Attempts(env, step, state, attempts + 1))
        decreases 3 - attempts
      {
        attempts := attempts + 1;
        ghost var ran := RunStep(env, step, state);
        AttemptsFrom(env, step, state, attempts);
        if attempts <= 2 {
          AfterBoth(done, ran.visits, Attempts(env, step, ran.state, attempts + 1));
        }
        RowsOfBoth(done, ran.visits);
        err := ExecuteStep(step, accumulated);
        done := done + ran.visits;
        if err.None? || !env.transient(err.value) || attempts > 2 {
          return;
        }
      }
    }

    /** The top-level steps in order, up to the first that is given up. */
    method ExecuteInOrder(steps: seq<QueryStep>, accumulated: Rows) returns (err: Option<Error>)
      modifies this, accumulated
      ensures var ran := ExecuteSteps(env, steps, old(state)); Did(ran, accumulated) && err == ran.err
    {
      hide ExecuteSteps, Attempts, RowsOf;
      ghost var done: seq<Visit> := [];
      NoSteps(env, state);
      assert steps[0..] == steps;
      err := None;
      for i := 0 to |steps|
        invariant visits == old(visits) + done
        invariant accumulated.items == old(accumulated.items) + RowsOf(done)
        invariant ExecuteSteps(env, steps, old(state)) == After(done, ExecuteSteps(env, steps[i..], state))
        invariant err == None
      {
        ghost var ran := Attempts(env, steps[i], state, 1);
        ExecuteFrom(env, steps, i, state);
        AfterBoth(done, ran.visits, ExecuteSteps(env, steps[i + 1..], ran.state));
        RowsOfBoth(done, ran.visits);
        err := ExecuteWithRetries(steps[i], accumulated);
        done := done + ran.visits;
        if err.Some? {
          return;
        }
      }
      assert steps[|steps|..] == [] && done + [] == done;
      NoSteps(env, state);
    }

    /** Executes `plan`; the rows are dropped when a step fails for good. */
    method Execute(plan: QueryPlan) returns (r: Result<QueryResultData, Error>)
      modifies this
      ensures var ran := ExecuteSteps(env, plan.steps, old(state));
              && state == ran.state && visits == old(visits) + ran.visits
              && r == if ran.err.Some? then Err(ran.err.value) else Ok(Payload(plan.query, RowsOf(ran.visits)))
      ensures AllStarted(env) && Faultless(env, AllLeaves(plan.steps), old(state)) ==>
                r.Ok? && Delivers(plan.query, Answers(env, AllLeaves(plan.steps), old(state)), r.value)
    {
      hide ExecuteSteps, RowsOf, Faultless, Answers, AllStarted, AllLeaves, Delivers;
      FaultlessDelivers(env, plan.query, plan.steps, state);
      var accumulated := new Rows();
      var lastErr := ExecuteInOrder(plan.steps, accumulated);
      if lastErr.Some? {
        return Err(lastErr.value);
      }
      ghost var rows := RowsOf(ExecuteSteps(env, plan.steps, old(state)).visits);
      assert accumulated.items == [] + rows == rows;
      r := Ok(Payload(plan.query, accumulated.items));
    }
  }

  /** What a run did when `done` had already been visited. */
  function After<S>(done: seq<Visit>, ran: Ran<S>): Ran<S> {
    Ran(ran.state, done + ran.visits, ran.err)
  }

  lemma AfterBoth<S>(a: seq<Visit>, b: seq<Visit>, ran: Ran<S>)
    ensures After(a, After(b, ran)) == After(a + b, ran)
  {
    assert a + (b + ran.visits) == (a + b) + ran.visits;
  }

  lemma NoSteps<S>(env: Env<S>, s: S)
    ensures RunSteps(env, [], s) == Ran(s, [], None) && ExecuteSteps(env, [], s) == Ran(s, [], None)
    ensures RowsOf([]) == []
  {
  }

  lemma RunStepsFrom<S>(env: Env<S>, steps: seq<QueryStep>, i: nat, s: S)
    requires i < |steps|
    ensures var first := RunStep(env, steps[i], s);
            RunSteps(env, steps[i..], s) ==
            if first.err.Some? then first else After(first.visits, RunSteps(env, steps[i + 1..], first.state))
  {
    assert steps[i..][1..] == steps[i + 1..];
  }

  lemma AttemptsFrom<S>(env: Env<S>, step: QueryStep, s: S, attempt: nat)
    requires 1 <= attempt <= 3
    ensures var ran := RunStep(env, step, s);
            Attempts(env, step, s, attempt) ==
            if ran.err.Some? && env.transient(ran.err.value) && attempt <= 2
            then After(ran.visits, Attempts(env, step, ran.state, attempt + 1)) else ran
  {
  }

  lemma ExecuteFrom<S>(env: Env<S>, steps: seq<QueryStep>, i: nat, s: S)
    requires i < |steps|
    ensures var first := Attempts(env, steps[i], s, 1);
            ExecuteSteps(env, steps[i..], s) ==
            if first.err.Some? then first else After(first.visits, ExecuteSteps(env, steps[i + 1..], first.state))
  {
    assert steps[i..][1..] == steps[i + 1..];
  }

  lemma RowsOfNext(visits: seq<Visit>, v: Visit)
    ensures RowsOf(visits + [v]) == RowsOf(visits) + if Yields(v.leaf) && v.outcome.Done? then v.outcome.rows else []
  {
    assert (visits + [v])[..|visits|] == visits;
  }

  lemma {:induction false} RowsOfBoth(a: seq<Visit>, b: seq<Visit>)
    ensures RowsOf(a + b) == RowsOf(a) + RowsOf(b)
  {
    if b == [] {
      assert a + b == a;
    } else {
      var front, v := b[..|b| - 1], b[|b| - 1];
      assert b == front + [v] && a + b == (a + front) + [v];
      hide RowsOf;
      RowsOfBoth(a, front);
      RowsOfNext(a + front, v);
      RowsOfNext(front, v);
    }
  }
}
