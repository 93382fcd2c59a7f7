/** The two in-place passes over a plan's top-level steps. */
module QueryOptimizer {
  import opened Wrappers
  import opened QueryTypes

  predicate Independent(step: QueryStep) {
    step.VectorSearch? || step.VectorUpsert? || step.SyncPush? || step.SyncPull?
  }

  function Join(a: string, b: string): string {
    a + "; " + b
  }

  /** Every maximal run of adjacent reads becomes one batched read. */
  function MergeReads(steps: seq<QueryStep>): seq<QueryStep>
    decreases |steps|
  {
    if |steps| < 2 then steps
    else if steps[0].CoreRead? && steps[1].CoreRead? then
      MergeReads([CoreRead(Join(steps[0].sql, steps[1].sql))] + steps[2..])
    else [steps[0]] + MergeReads(steps[1..])
  }

  /** Independent neighbours are paired, from the left. */
  function Promote(steps: seq<QueryStep>): seq<QueryStep>
    decreases |steps|
  {
    if |steps| < 2 then steps
    else if Independent(steps[0]) && Independent(steps[1]) then
      [Parallel([steps[0], steps[1]])] + Promote(steps[2..])
    else [steps[0]] + Promote(steps[1..])
  }

  function Optimised(steps: seq<QueryStep>): seq<QueryStep> {
    Promote(MergeReads(steps))
  }

  // One step of each pass, on a list taken apart.

  lemma MergeOne(step: QueryStep, rest: seq<QueryStep>)
    requires rest == [] || !(step.CoreRead? && rest[0].CoreRead?)
    ensures MergeReads([step] + rest) == [step] + MergeReads(rest)
  {
    var steps := [step] + rest;
    assert steps[1..] == rest && (rest == [] ==> steps == [step]);
  }

  lemma MergeTwo(a: QueryStep, b: QueryStep, rest: seq<QueryStep>)
    requires a.CoreRead? && b.CoreRead?
    ensures MergeReads([a] + ([b] + rest)) == MergeReads([CoreRead(Join(a.sql, b.sql))] + rest)
  {
    var steps := [a] + ([b] + rest);
    assert steps[1] == b && steps[2..] == rest;
  }

  lemma PromoteOne(step: QueryStep, rest: seq<QueryStep>)
    requires rest == [] || !(Independent(step) && Independent(rest[0]))
    ensures Promote([step] + rest) == [step] + Promote(rest)
  {
    var steps := [step] + rest;
    assert steps[1..] == rest && (rest == [] ==> steps == [step]);
  }

  lemma PromoteTwo(a: QueryStep, b: QueryStep, rest: seq<QueryStep>)
    requires Independent(a) && Independent(b)
    ensures Promote([a] + ([b] + rest)) == [Parallel([a, b])] + Promote(rest)
  {
    var steps := [a] + ([b] + rest);
    assert steps[1] == b && steps[2..] == rest;
  }

  // The vector operations of the two loops.

  function Removed(steps: seq<QueryStep>, i: nat): seq<QueryStep>
    requires i < |steps|
  {
    steps[..i] + steps[i + 1..]
  }

  function Inserted(steps: seq<QueryStep>, i: nat, step: QueryStep): seq<QueryStep>
    requires i <= |steps|
  {
    steps[..i] + [step] + steps[i..]
  }

  lemma MergeHere(steps: seq<QueryStep>, i: nat)
    requires i + 1 < |steps| && steps[i].CoreRead? && steps[i + 1].CoreRead?
    ensures var after := Removed(steps[i := CoreRead(Join(steps[i].sql, steps[i + 1].sql))], i + 1);
            after[..i] + MergeReads(after[i..]) == steps[..i] + MergeReads(steps[i..])
  {
    var merged := CoreRead(Join(steps[i].sql, steps[i + 1].sql));
    var after := Removed(steps[i := merged], i + 1);
    assert after[..i] == steps[..i] && after[i..] == [merged] + steps[i + 2..];
    assert steps[i..] == [steps[i]] + ([steps[i + 1]] + steps[i + 2..]);
    hide MergeReads, Removed;
    MergeTwo(steps[i], steps[i + 1], steps[i + 2..]);
  }

  lemma MergeOn(steps: seq<QueryStep>, i: nat)
    requires i + 1 < |steps| && !(steps[i].CoreRead? && steps[i + 1].CoreRead?)
    ensures steps[..i + 1] + MergeReads(steps[i + 1..]) == steps[..i] + MergeReads(steps[i..])
  {
    hide MergeReads;
    assert steps[i..] == [steps[i]] + steps[i + 1..];
    MergeOne(steps[i], steps[i + 1..]);
  }

  /** What taking steps `i` and `i + 1` out and putting `pair` in makes of the list. */
  lemma PairPutIn(steps: seq<QueryStep>, i: nat, pair: QueryStep)
    requires i + 1 < |steps|
    ensures Removed(steps, i)[i] == steps[i + 1]
    ensures var after := Inserted(Removed(Removed(steps, i), i), i, pair);
            |after| == |steps| - 1 && after[..i + 1] == steps[..i] + [pair] && after[i + 1..] == steps[i + 2..]
  {
    assert Removed(Removed(steps, i), i) == steps[..i] + steps[i + 2..];
  }

  lemma PromoteHere(steps: seq<QueryStep>, i: nat)
    requires i + 1 < |steps| && Independent(steps[i]) && Independent(steps[i + 1])
    ensures Removed(steps, i)[i] == steps[i + 1]
    ensures var after := Inserted(Removed(Removed(steps, i), i), i, Parallel([steps[i], steps[i + 1]]));
            && |after| == |steps| - 1
            && after[..i + 1] + Promote(after[i + 1..]) == steps[..i] + Promote(steps[i..])
  {
    var pair := Parallel([steps[i], steps[i + 1]]);
    PairPutIn(steps, i, pair);
    assert steps[i..] == [steps[i]] + ([steps[i + 1]] + steps[i + 2..]);
    hide Promote, Removed, Inserted;
    PromoteTwo(steps[i], steps[i + 1], steps[i + 2..]);
    assert (steps[..i] + [pair]) + Promote(steps[i + 2..]) == steps[..i] + ([pair] + Promote(steps[i + 2..]));
  }

  lemma PromoteOn(steps: seq<QueryStep>, i: nat)
    requires i + 1 < |steps| && !(Independent(steps[i]) && Independent(steps[i + 1]))
    ensures steps[..i + 1] + Promote(steps[i + 1..]) == steps[..i] + Promote(steps[i..])
  {
    hide Promote;
    assert steps[i..] == [steps[i]] + steps[i + 1..];
    PromoteOne(steps[i], steps[i + 1..]);
  }

  class QueryPlan {
    const id: Uuid
    const query: Query
    var steps: seq<QueryStep>

    constructor (id: Uuid, query: Query, steps: seq<QueryStep>)
      ensures this.id == id && this.query == query && this.steps == steps
    {
      this.id, this.query, this.steps := id, query, steps;
    }

    method Optimise()
      modifies this
      ensures steps == Optimised(old(steps))
    {
      MergeAdjacentCoreReads();
      PromoteParallel();
    }

    method MergeAdjacentCoreReads()
      modifies this
      ensures steps == MergeReads(old(steps))
    {
      hide MergeReads, Removed;
      var i := 0;
      Whole(steps);
      while i + 1 < |steps|
        invariant 0 <= i <= |steps|
        invariant steps[..i] + MergeReads(steps[i..]) == MergeReads(old(steps))
        decreases |steps| - i
      {
        if steps[i].CoreRead? && steps[i + 1].CoreRead? {
          MergeHere(steps, i);
          var merged := Join(steps[i].sql, steps[i + 1].sql);
          steps := steps[i := CoreRead(merged)];
          var _ := RemoveStep(i + 1);
        } else {
          MergeOn(steps, i);
          i := i + 1;
        }
      }
      NothingLeft(steps, i);
    }

    method PromoteParallel()
      modifies this
      ensures steps == Promote(old(steps))
    {
      hide Promote, Removed, Inserted;
      var i := 0;
      Whole(steps);
      while i + 1 < |steps|
        invariant 0 <= i <= |steps|
        invariant steps[..i] + Promote(steps[i..]) == Promote(old(steps))
        decreases |steps| - i
      {
        if Independent(steps[i]) && Independent(steps[i + 1]) {
          PromoteHere(steps, i);
          var a := RemoveStep(i);
          var b := RemoveStep(i);
          steps := Inserted(steps, i, Parallel([a, b]));
        } else {
          PromoteOn(steps, i);
        }
        i := i + 1;
      }
      NothingLeft(steps, i);
    }

    method RemoveStep(i: nat) returns (step: QueryStep)
      requires i < |steps|
      modifies this
      ensures step == old(steps)[i] && steps == Removed(old(steps), i) && |steps| == |old(steps)| - 1
    {
      step := steps[i];
      steps := Removed(steps, i);
    }
  }

  lemma Whole(steps: seq<QueryStep>)
    ensures steps[..0] + MergeReads(steps[0..]) == MergeReads(steps)
    ensures steps[..0] + Promote(steps[0..]) == Promote(steps)
  {
    assert steps[0..] == steps;
  }

  lemma NothingLeft(steps: seq<QueryStep>, i: nat)
    requires i <= |steps| <= i + 1
    ensures steps[..i] + MergeReads(steps[i..]) == steps
    ensures steps[..i] + Promote(steps[i..]) == steps
  {
  }
}
