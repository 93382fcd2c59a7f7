/** Queries, plans and the recursive plan steps. */
module QueryTypes {
  import opened Wrappers

  datatype Query =
    | Remember(agent: Uuid, content: string, memoryType: string, metadata: Json, tags: seq<string>)
    | Search(agent: Uuid, text: string, semantic: bool, topK: Usize, filter: Option<Json>)
    | Recall(agent: Uuid, ids: seq<Uuid>)
    | Branch(agent: Uuid, parent: string, name: string)
    | Merge(agent: Uuid, source: string, target: string, strategy: string)
    | Diff(agent: Uuid, branchA: string, branchB: string)
    | Sync(agent: Uuid)
    | Reflect(agent: Uuid, jobType: string, dryRun: bool)
    | Raw(sql: string, params: seq<Json>, entityType: string)

  datatype QueryStep =
    | CoreRead(sql: string)
    | CoreWrite(sql: string)
    | VectorSearch(collection: string, topK: Usize)
    | VectorUpsert(collection: string)
    | SyncPush
    | SyncPull
    | BranchOp(branchName: string)
    | ReflectJob(jobType: string)
    | GuardCheck(action: string)
    | Parallel(steps: seq<QueryStep>)
    | Sequential(steps: seq<QueryStep>)

  predicate IsLeaf(step: QueryStep) {
    !step.Parallel? && !step.Sequential?
  }

  /** The leaves of a step, in the order in which the executor comes to them. */
  function Leaves(step: QueryStep): seq<QueryStep>
    decreases step, 1
  {
    if IsLeaf(step) then [step] else AllLeaves(step.steps)
  }

  function AllLeaves(steps: seq<QueryStep>): seq<QueryStep>
    decreases steps, 0
  {
    if steps == [] then [] else Leaves(steps[0]) + AllLeaves(steps[1..])
  }

  datatype QueryResultData = MemoryEntries(rows: seq<Json>) | Unit
}
