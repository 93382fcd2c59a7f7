/** Decomposition of a query into the steps that carry it out. */
module QueryPlanner {
  import opened Wrappers
  import opened QueryTypes

  /** `k * 2` on a `usize`, wrapping as a release build does. */
  function Doubled(k: Usize): Usize {
    (k * 2) % USIZE_LIMIT
  }

  function Plan(query: Query): seq<QueryStep> {
    match query
    case Remember(_, _, _, _, _) =>
      [GuardCheck("memory.write"),
       Parallel([CoreWrite("INSERT INTO memory_records ..."), VectorUpsert("memories")])]
    case Search(_, _, semantic, topK, _) =>
      if semantic then
        [GuardCheck("memory.read"),
         VectorSearch("memories", Doubled(topK)),
         CoreRead("SELECT * FROM memory_records WHERE id IN (...)"),
         GuardCheck("memory.read.row_level")]
      else
        [GuardCheck("memory.read"), CoreRead("SELECT * FROM memory_records WHERE content LIKE ?")]
    case Recall(_, _) =>
      [GuardCheck("memory.read"), CoreRead("SELECT * FROM memory_records WHERE id IN (...)")]
    case Branch(_, _, _) =>
      [GuardCheck("branch.create"), CoreRead("PRAGMA wal_checkpoint(TRUNCATE)"), BranchOp("")]
    case Merge(_, _, target, _) =>
      [GuardCheck("branch.merge"), BranchOp(target + ".preview"),
       GuardCheck("branch.merge.conflict_resources"), BranchOp(target)]
    case Diff(_, _, _) => [GuardCheck("branch.diff"), BranchOp("diff")]
    case Sync(_) => [GuardCheck("sync"), SyncPush, SyncPull]
    case Reflect(_, jobType, _) => [GuardCheck("reflect"), ReflectJob(jobType)]
    case Raw(sql, _, _) => [GuardCheck("raw_sql"), CoreRead(sql)]
  }
}
