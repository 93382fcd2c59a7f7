# ClawDB verification model

ClawDB wraps a core SQL engine, a vector engine, a branch engine, a sync hub, a guard and a
reflection service behind one API. This project models the parts of it where several of those engines
have to agree, and proves what can be relied on when any of their calls may fail at any time and any
number of requests are in flight:

- **Transactions** (`Tx*`, `Coordinator`). The two-phase commit over a core transaction, a buffered
  vector write set and a branch snapshot, as a state machine whose steps are single engine calls and
  critical sections, interleaved over any number of transactions (`TxProtocol`). `TxInvariant` and
  `TxSafety` hold the invariants, `TxTheorems` the guarantees for every run, `TxTrace` a monitor that
  states the legal order of one transaction's engine calls on the calls alone, `TxAtomicity` the
  exact limits of vector atomicity, and `TxProgress` that every request ends and who keeps whom out. `TxManager` is the manager as a class updated in place: a ghost
  copy of the machine runs along with it, and its invariant says that the real fields, the engines' call
  history and the store are what a run of the machine produces, so every theorem applies to it.
- **Queries** (`Query*`). The planner's plans, the optimiser's two in-place passes, the recursive
  executor and its retry loop. The engines are an arbitrary environment: which components are started,
  how each call changes the world behind them, what it answers, and which errors are transient.
  `QueryAnswers` says what each plan asks of whom and what comes back, `QueryTheorems` proves the shape of every execution, the normal form, preservation of meaning and
  guard ordering; `QueryRetries` characterises exactly what a retry can repeat, `QueryEquivalence` exactly
  when optimising can be noticed, and `QueryGuards` what a guard's answer is worth.
- **Staged transactions** (`MemoryTypes`, `Staged*`). The server's map of pending transactions that the HTTP and the
  gRPC front end share, the replay of a staged list into an engine transaction, the deferred vector
  upserts, and the engine's writes outside transactions, again as an interleaved machine
  (`StagedProtocol`, `StagedInvariant`, `StagedTheorems`, and `StagedIndex` for how far the vector index
  agrees with the core) and as the classes that run it (`StagedServer`).
- **Sessions** (`Session*`). Expiry, refresh, revocation, purging, persisting and restoring under a clock
  that never goes back, with refreshes, file writes and restores interleaved with everything else.
- **Scopes and search** (`Scopes`, `Search`). The scope order behind every permission check, and the
  oversampled, filtered search against the search a caller would expect.

Assumptions: identifiers are fresh when they are given out; no context is handed to `commit_simple` whose
public id its owner has set to that of a two-phase transaction; a component's availability is fixed for a
manager's lifetime; an engine call succeeds or fails as a whole (a failed COMMIT has not committed, a
dropped engine transaction is undone); the vector engine answers a search with a prefix of its ranking
and with the metadata it was given;
in `OptimisingPreservesMeaning` the core engine answers a `;`-joined read like its reads in sequence.

Where the code and its documentation disagree, the model follows the code:

- The manager's documentation calls the vector writes of a commit atomic
  (`clawdb/src/transaction/manager.rs:10`, `:92`, `:413`). A failed phase 2 does not take back the
  upserts it has applied (`:286-299`, `:357-387`). `VectorWritesAreAtomicExactlyWhen` gives the exact
  condition, and `VectorWritesAreSerialisable` what holds instead.
- The log is documented as listing a commit's write set, but the buffer has been moved out by then when
  a vector engine is present (`:288`, `:271-275`): `LoggedExactlyOnce` states what the entry contains, and
  `LogListsTheWritesExactlyWhen` when that is the write set.
- `TransactionLog` promises a window of `max_entries`; with a capacity of zero it still keeps one entry
  (`CapacityBound`).
- `begin_simple` is documented as conflict-tracked; its write set is never registered, so conflicts with
  it are found from its own side only (`SimpleBlocksNobody`).
- A refresh that is waiting for the guard writes its session back even if the session has been revoked
  meanwhile, and so does a restore from a file that still lists it; `RevocationIsFinal` gives the exact
  condition under which a revocation is final.
- A refresh is there to extend a session, but of two refreshes under way the one that read the clock first
  can be the last to insert, and then shortens it (`clawdb/src/session/manager.rs:239-248`):
  `RefreshShortensExactlyWhen`, with a run in `RefreshCanShorten`.
- `delete_memory` and `update_memory` do not reach the vector index, and a memory can be indexed after it
  was deleted: `IndexIsCurrentExactlyWhen`, with runs in `IndexedAfterDeletion` and `IndexedBefore`.
- The optimiser is there to preserve a plan's meaning, but a group of steps shares one retry budget, so an
  optimised plan can fail where the plan succeeds: `OptimisingIsUnnoticedExactlyWhen` and, for the one plan
  of the planner that is concerned, `OptimisedSyncCanFail`.
- A search filter is matched against the fields that the engine puts around a memory's metadata, not against
  that metadata (`clawdb/src/engine.rs:363-368`, `:1078-1083`, `:432-436`): `OwnMetadataIsNested`.
- The `memory_id` that the gRPC front end answers with when it stages a memory is not that memory's
  identifier: `ReceiptsAreNoMemories`.
- `Parallel` steps are executed one after another, and a guard check fails only when its call does: its
  decision is not looked at (`clawdb/src/query/executor.rs:97-102`, `:143-152`): `NestingIsInvisible` and
  `GuardAnswersAreIgnored`.

## Model

| member | source | states |
|---|---|---|
| `Coordinator.TransactionCoordinator.Register` | clawdb/src/transaction/coordinator.rs:55-65 | the table gains (or replaces) one record with an empty write set and the current time; nothing else changes |
| `Coordinator.TransactionCoordinator.ExtendWriteSet` | clawdb/src/transaction/coordinator.rs:71-76 | the keys go to the end of the transaction's write set; every other record, and an unknown id, are left alone |
| `Coordinator.TransactionCoordinator.Prepare` | clawdb/src/transaction/coordinator.rs:83-107 | succeeds exactly when no key that another transaction has registered is among its own or the additional ones; an error names a transaction that shares such a key |
| `Coordinator.TransactionCoordinator.Deregister` | clawdb/src/transaction/coordinator.rs:115-120 | the record is gone and no other is touched |
| `Coordinator.TransactionCoordinator.StaleTransactions` | clawdb/src/transaction/coordinator.rs:128-137 | lists exactly the transactions open for longer than the threshold, each once, with its own session |
| `Coordinator.BlockingIsSymmetric` | clawdb/src/transaction/coordinator.rs:91-105 | between registered transactions without additional writes, blocking is mutual |
| `Coordinator.DeregisteringUnblocks` | clawdb/src/transaction/coordinator.rs:83-120 | ending other transactions never creates a conflict: what still blocks afterwards blocked before, and the other way round |
| `TxLog.TransactionLog.Append` | clawdb/src/transaction/log.rs:32-38 | after any sequence of appends the log is the last `max_entries` (at least one) entries of everything ever appended |
| `TxLog.TransactionLog.Snapshot` | clawdb/src/transaction/log.rs:41-48 | returns the longest suffix of the history that fits the window, in order |
| `TxLog.TransactionLog.Len` | clawdb/src/transaction/log.rs:51-53 | the length of that window |
| `TxLog.CapacityBound` | clawdb/src/transaction/log.rs:24-38 | the advertised bound holds for every history if and only if the capacity is not zero |
| `TxTheorems.ConcurrentCommitsAreDisjoint` | clawdb/src/transaction/manager.rs:199-265 | in every interleaving, two transactions that are both between a successful prepare and their deregistration have disjoint registered write sets |
| `TxTheorems.VectorWritesAreSerialisable` | clawdb/src/transaction/manager.rs:199-299 | whenever nobody is between prepare and deregistration, the vector store equals what the transactions would have left had each applied its upserts alone, in the order in which they left the coordinator |
| `TxSafety.LastWriteWins` | clawdb/src/transaction/manager.rs:286-299 | of any sequence of upserts the last one of a record decides its text and metadata |
| `TxSafety.UnnamedIsLeftAlone` | clawdb/src/transaction/manager.rs:286-299 | a record that none of the upserts names keeps what it had |
| `TxTheorems.NobodyOverwrites` | clawdb/src/transaction/manager.rs:211-265 | until a prepared transaction is deregistered, every record it has upserted still has its own last value |
| `TxTheorems.CallsFollowTheProtocol` | clawdb/src/transaction/manager.rs:149-387 | in every run each transaction's engine calls follow: begin, optional snapshot, then upserts, COMMIT, snapshot deletion, or a failure or rollback request, ROLLBACK, restore; absent engines are never called |
| `TxTrace.MonitorCounts` | clawdb/src/transaction/manager.rs:149-387 | in an accepted trace COMMIT succeeds at most once, ROLLBACK is issued at most once, a snapshot is created, deleted and restored at most once each, deletion follows the commit and restoration the rollback |
| `TxTheorems.CommitExcludesUndo` | clawdb/src/transaction/manager.rs:282-387 | no transaction is both committed and rolled back or restored; each created snapshot is exactly one of held, delete-attempted, restore-attempted |
| `TxTheorems.SnapshotIsTakenAndUsed` | clawdb/src/transaction/manager.rs:165-176 | in every run a published transaction has asked for exactly one snapshot if there is a branch engine and for none otherwise; one that was taken is held while the transaction is active, handed back to be deleted exactly once by a commit, and to be restored exactly once by an undoing |
| `TxTheorems.CommittedMeans` | clawdb/src/transaction/manager.rs:267-323 | a committed transaction has committed the core when there is one, had no fault, holds no snapshot, and its successful upserts followed by what is left in its buffer are all it ever buffered, in order |
| `TxTheorems.RolledBackMeans` | clawdb/src/transaction/manager.rs:243-261 | an undone transaction never committed the core, is not logged, and the vector store gained exactly a prefix of its buffer, empty unless phase 2 had begun |
| `TxTheorems.PhaseTwoFailsExactlyWhen` | clawdb/src/transaction/manager.rs:243-312 | in every run a transaction that has passed the gate is rolled back or being rolled back if and only if exactly one of its upserts or its COMMIT was refused; more than one never is |
| `TxTheorems.FaultsAtRest` | clawdb/src/transaction/manager.rs:243-312 | once its lock is free, a transaction has had such a refused call if and only if a failed commit has undone it |
| `TxTheorems.LoggedExactlyOnce` | clawdb/src/transaction/manager.rs:267-276 | a transaction at rest is logged if and only if it is committed, never twice, and upserted ids followed by logged ids are the buffered ids in buffering order |
| `TxTheorems.LogListsTheWritesExactlyWhen` | clawdb/src/transaction/manager.rs:267-276 | the entry lists the ids that the transaction wrote if and only if there is no vector engine or it wrote nothing |
| `TxTheorems.StatusMovesForward` | clawdb/src/transaction/manager.rs:199-355 | along every run a status moves only forward through Active, Committing, RollingBack, terminal, and a terminal status never changes |
| `TxTheorems.TablesAgreeAtRest` | clawdb/src/transaction/manager.rs:178-180 | whenever no transaction lock is held the coordinator knows exactly the manager's active transactions and the open simple ones |
| `TxTheorems.WriteSetIsBuffer` | clawdb/src/transaction/manager.rs:414-431 | for a transaction whose lock is free the registered write set is the ids of all it buffered, in order; while it is active, of its current buffer |
| `TxTheorems.StaleHandleIsInert` | clawdb/src/transaction/manager.rs:199-208 | a commit, rollback or buffer request through a handle whose transaction has left the map changes nothing |
| `TxTheorems.SimpleBlocksNobody` | clawdb/src/transaction/manager.rs:455-463 | in every run a simple transaction blocks nobody, whatever it has recorded |
| `TxTheorems.LastOneIsFree` | clawdb/src/transaction/coordinator.rs:83-107 | once every other two-phase transaction has left the coordinator, prepare cannot fail |
| `TxTheorems.FailedRollbackStillBlocks` | clawdb/src/transaction/manager.rs:335-385 | after a failed restore the transaction refuses commits and writes and still blocks everyone whose write set meets what it had buffered |
| `TxTheorems.RetriedRollbackSucceeds` | clawdb/src/transaction/manager.rs:335-387 | in every run that goes on with another rollback, whatever anybody else does in between and whatever the engines answer: it can always take its next step, ends after four, has then left both tables as rolled back, and has made no engine call, so neither ROLLBACK nor restore again |
| `TxProgress.EveryRequestEnds` | clawdb/src/transaction/manager.rs:199-431 | in every run, whoever holds a transaction's lock can take its next step whatever the others do, and gives the lock back after at most one step of its own to buffer, four to roll back, and seven more than there are buffered operations to commit |
| `TxProgress.EveryBeginEnds` | clawdb/src/transaction/manager.rs:149-184 | in every run a begin can always take its next step, and within four of them has published the transaction or refused it |
| `TxProgress.WritesOnlyGrow` | clawdb/src/transaction/coordinator.rs:55-76 | in every run the registered write set of a transaction that is registered before and after was only appended to in between |
| `TxProgress.OverlapKeepsOut` | clawdb/src/transaction/coordinator.rs:83-107 | once the write sets of two registered transactions overlap, in every continuation in which both are still registered each is blocked and neither has passed the gate since |
| `TxProgress.OnlyUndoingParts` | clawdb/src/transaction/manager.rs:199-387 | one of two such transactions that had not passed the gate leaves the coordinator before the other only by being rolled back, having written nothing |
| `TxSafety.RunKeepsInv` | clawdb/src/transaction/manager.rs:149-487 | the joint invariant of tables, traces, store, retirement order and log holds in every reachable state |
| `TxAtomicity.VectorWritesAreAtomicExactlyWhen` | clawdb/src/transaction/manager.rs:282-312 | every rolled-back transaction that buffered `ops` has written none of them if and only if there is no vector engine, nothing buffered, or a single operation and no core engine |
| `TxAtomicity.TrivialIsAtomic` | clawdb/src/transaction/manager.rs:282-312 | in those cases no run whatever leaves an upsert of an undone transaction behind |
| `TxAtomicity.LeavesSomething` | clawdb/src/transaction/manager.rs:243-299 | otherwise there is a run of this transaction alone in which one call is refused and no other, after which it is rolled back and some of its upserts remain |
| `TxManager.TransactionManager.constructor` | clawdb/src/transaction/manager.rs:126-138 | starts with empty tables and an empty log, agreeing with the protocol's initial state |
| `TxManager.TransactionManager.Begin` | clawdb/src/transaction/manager.rs:149-184 | fails only when the core refuses BEGIN, and then publishes nothing and has made no other call; otherwise the calls made for it are BEGIN if there is a core and one snapshot request if there is a branch engine, whose answer is the snapshot it holds, and it is active and registered with an empty write set |
| `TxManager.TransactionManager.CommitTx` | clawdb/src/transaction/manager.rs:199-280 | refuses unknown ids, other states and conflicts without changing anything; otherwise the id leaves the map, and either it is committed with one log entry and the whole buffer applied, or rolled back with the log unchanged and a prefix of the buffer applied; the latter if and only if exactly one upsert or COMMIT made for it was refused |
| `TxManager.TransactionManager.ApplyPhase2` | clawdb/src/transaction/manager.rs:282-324 | the store gains the applied upserts and nothing else; success means all of the buffer when there is a vector engine, and a failure leaves the transaction about to be rolled back |
| `TxManager.TransactionManager.DoRollback` | clawdb/src/transaction/manager.rs:357-387 | core flag, buffer and snapshot are spent whatever the engines answer, the store is untouched, the calls are ROLLBACK if the core transaction is open and then the restore of the snapshot if there is one, and it fails if and only if that restore was refused |
| `TxManager.TransactionManager.RollbackTx` | clawdb/src/transaction/manager.rs:335-355 | makes exactly the calls of one rollback and never touches store or log; fails on a listed transaction that is not finished if and only if the restore of its snapshot was refused, and then leaves it listed as rolling back; retrying one of those succeeds without an engine call |
| `TxManager.TransactionManager.TimeoutStale` | clawdb/src/transaction/manager.rs:394-409 | a transaction that was younger when its record was looked at keeps its status; an older one is still listed if and only if it held a snapshot, there is a branch engine, and the calls made since include a refused restore of that snapshot for it; the count is of the older ones without such a refusal |
| `TxManager.TransactionManager.BufferVectorUpsert` | clawdb/src/transaction/manager.rs:414-431 | succeeds exactly for an active transaction, whose buffer and registered write set grow by the same operation at the end |
| `TxManager.TransactionManager.BeginSimple` | clawdb/src/transaction/manager.rs:455-463 | a fresh context, registered with an empty write set |
| `TxManager.TransactionManager.CommitSimple` | clawdb/src/transaction/manager.rs:466-487 | whatever its owner has made of the status and the writes of the context, unless its id is that of a two-phase transaction: succeeds exactly when it is active and its private writes meet no other registered write set; then it is deregistered and logged with all its writes, else nothing changes |
| `TxManager.TransactionContext.RecordWrite` | clawdb/src/transaction/context.rs:58-60 | appends to the context's own write set only |
| `TxManager.TransactionContext.RecordRead` | clawdb/src/transaction/context.rs:63-65 | appends to the context's read set only |
| `QueryOptimizer.QueryPlan.MergeAdjacentCoreReads` | clawdb/src/query/optimizer.rs:21-34 | the in-place loop leaves exactly the list in which every maximal run of adjacent reads is one joined read |
| `QueryOptimizer.QueryPlan.PromoteParallel` | clawdb/src/query/optimizer.rs:37-49 | the in-place loop leaves exactly the list in which independent neighbours are paired from the left |
| `QueryOptimizer.QueryPlan.Optimise` | clawdb/src/query/optimizer.rs:15-18 | the two passes in order, on the plan's own steps |
| `QueryExecutor.QueryExecutor.ExecuteStep` | clawdb/src/query/executor.rs:90-155 | runs a step recursively: engine state, visited leaves and accumulated rows are those of the step's specification |
| `QueryExecutor.QueryExecutor.ExecuteAll` | clawdb/src/query/executor.rs:143-152 | children run one after another and the first error stops them, rows gathered before it being kept |
| `QueryExecutor.QueryExecutor.ExecuteWithRetries` | clawdb/src/query/executor.rs:42-64 | at most three attempts, a retry only after a transient error, rows of failed attempts staying in the accumulator |
| `QueryExecutor.QueryExecutor.Execute` | clawdb/src/query/executor.rs:29-87 | the whole loop: the first step given up ends it with its error and no rows, otherwise the payload is made of all accumulated rows; when no call fails these are the answers of the core reads and vector searches in order, and without any a sync, reflection or remember delivers the unit and every other query an empty list |
| `QueryExecutor.ExecutionAnswers` | clawdb/src/query/executor.rs:29-155 | for every plan, engine and state in which no call fails: the execution succeeds, leaves the world as calling the flattened leaves once each in order does, and its rows are what the core reads and the vector searches among them answer, and nothing else |
| `QueryExecutor.VisitYields` | clawdb/src/query/executor.rs:97-141 | whatever fails elsewhere, only a core read or a vector search that succeeds contributes rows, and it contributes all that it answers |
| `QueryAnswers.PlannedAnswer` | clawdb/src/query/planner.rs:26-127 | when no call fails, remember, sync and reflection deliver the unit, and every other query the list of what its plan has read |
| `QueryAnswers.SemanticSearchDelivers` | clawdb/src/query/planner.rs:68-75 | when no call fails, a semantic search delivers the vector engine's hits followed by the core's rows |
| `QueryAnswers.EveryLeafNeedsItsComponent` | clawdb/src/query/executor.rs:96-142 | in every execution a leaf whose component is not started fails naming that component, and a branch operation with its component started succeeds without a row |
| `QueryAnswers.GuardFitsTheWork` | clawdb/src/query/planner.rs:26-127 | the action of the leading check fits every leaf of the plan: memory writes and upserts are checked as a memory write, vector searches as a memory read, and so on; later checks ask about a part of it, and only a raw query is checked as one |
| `QueryAnswers.PlanDoesTheWork` | clawdb/src/query/planner.rs:26-127 | behind its checks each plan holds exactly the leaves that its query needs, in order: a semantic search asks for twice the wanted number as the machine word doubles it, a merge previews its target first, a raw query runs its own statement |
| `QueryAnswers.LaterChecks` | clawdb/src/query/planner.rs:68-108 | only a semantic search, after all that it reads, and a merge, between preview and merge, check the guard again |
| `QueryTheorems.RunStepShape` | clawdb/src/query/executor.rs:90-155 | one attempt visits the step's leaves in order and either completes all of them or stops at the one that failed |
| `QueryTheorems.AttemptsShape` | clawdb/src/query/executor.rs:43-64 | the attempts at a step are transiently failed prefixes and then one run that settles it; a transient error is final only after the third |
| `QueryTheorems.ExecutionShape` | clawdb/src/query/executor.rs:42-68 | every execution tries the top-level steps in order, each at most three times, and on success ends each with one complete run |
| `QueryTheorems.MergeNormalises` | clawdb/src/query/optimizer.rs:21-34 | merging leaves no two adjacent reads and changes nothing when there were none |
| `QueryTheorems.PromoteNormalises` | clawdb/src/query/optimizer.rs:37-49 | pairing leaves no two adjacent independent steps, keeps reads apart, and changes nothing when there was nothing to pair |
| `QueryTheorems.FixedExactlyWhenNormal` | clawdb/src/query/optimizer.rs:15-49 | the result is always in normal form, optimising is idempotent, and a plan is left alone if and only if it is in normal form |
| `QueryTheorems.RunIsHalved` | clawdb/src/query/optimizer.rs:37-49 | a maximal run of n independent steps becomes (n + 1) / 2 steps, independently of what follows it |
| `QueryTheorems.RunIsMerged` | clawdb/src/query/optimizer.rs:21-34 | a maximal run of reads becomes one read whose text is theirs in order, separated by a semicolon and a space |
| `QueryTheorems.OnlyVectorAndSyncPair` | clawdb/src/query/optimizer.rs:51-59 | two steps are paired if and only if each is a vector search, a vector upsert, a sync push or a sync pull |
| `QueryTheorems.OptimisedPlan` | clawdb/src/query/planner.rs:114-120 | of all plans only that of a sync is changed by optimising, its push and pull becoming one step |
| `QueryTheorems.MergingAgrees` | clawdb/src/query/optimizer.rs:21-34 | for every engine that answers joined reads in turn, merging changes neither the world left behind, nor the error, nor the rows |
| `QueryTheorems.PairingIsInvisible` | clawdb/src/query/optimizer.rs:37-49 | without retries a paired plan visits the same leaves with the same outcomes, and its flattened leaves are the same list |
| `QueryTheorems.OptimisingPreservesMeaning` | clawdb/src/query/optimizer.rs:15-49 | unless the plan meets a transient error, executing the optimised plan leaves the same world, fails with the same error or returns the same rows |
| `QueryEquivalence.OptimisingIsUnnoticedExactlyWhen` | clawdb/src/query/optimizer.rs:15-49 | with retries: the optimised plan agrees with the plan for every engine that answers joined reads in turn and every pattern of transient failures if and only if the plan is in normal form |
| `QueryEquivalence.PairingIsUnnoticedExactlyWhen` | clawdb/src/query/optimizer.rs:37-49 | pairing alone agrees with the plan for every engine and every failure pattern if and only if no two independent steps are adjacent |
| `QueryEquivalence.OptimisingCanFail` | clawdb/src/query/executor.rs:42-64 | for every plan that optimising changes there is an engine that fails exactly three statements, all transiently, under which the plan succeeds as it is and gives up once optimised |
| `QueryEquivalence.FlakyFailsThree` | clawdb/src/query/executor.rs:42-64 | the engine of `OptimisingCanFail` refuses three statements and no other |
| `QueryEquivalence.OptimisedSyncCanFail` | clawdb/src/query/planner.rs:114-120 | this happens to the planner's own plan of a sync |
| `QueryEquivalence.OnlySyncChanges` | clawdb/src/query/planner.rs:26-127 | and to no other: a plan is in normal form if and only if it is not that of a sync |
| `QueryEquivalence.FailsOnBatchesReads` | clawdb/src/query/optimizer.rs:21-34 | the failing engines of these results do answer every `;`-joined read like its parts in turn |
| `QueryTheorems.GuardsStayInPlace` | clawdb/src/query/optimizer.rs:21-59 | optimising works on each side of a guard check separately, so no leaf moves across one |
| `QueryTheorems.NothingPassesAGuard` | clawdb/src/query/executor.rs:42-68 | in every execution, optimised or not, nothing behind a guard check is visited before the check's last visit has completed without error |
| `QueryTheorems.PlansOpenWithAGuard` | clawdb/src/query/planner.rs:57-127 | every plan begins with a guard check, before and after optimising |
| `QueryTheorems.GuardComesFirst` | clawdb/src/query/executor.rs:42-102 | whatever the query and whichever calls fail, no other leaf is visited before the leading guard check has completed |
| `QueryGuards.GuardAnswersAreIgnored` | clawdb/src/query/executor.rs:97-102 | engines that differ only in what their successful guard checks answer give the same visits, world, error and rows |
| `QueryRetries.NestingIsInvisible` | clawdb/src/query/executor.rs:143-152 | a plan runs exactly as the flat list of its leaves does |
| `QueryRetries.CompletedExactlyOnce` | clawdb/src/query/executor.rs:42-64 | when no leaf of a kind stands before an engine call in the same top-level step, a successful execution completes the leaves of that kind exactly as one complete run does, whatever failed on the way |
| `QueryRetries.LeavesAreSettled` | clawdb/src/query/executor.rs:42-64 | a plan of leaf steps only satisfies that condition for every kind of leaf |
| `QueryRetries.RowsExactlyOnce` | clawdb/src/query/executor.rs:42-87 | for such plans the rows of a successful execution are each leaf's rows once, in order |
| `QueryRetries.RepeatedOtherwise` | clawdb/src/query/executor.rs:42-64 | for all other plans a single transient failure makes a successful execution complete more leaves of that kind than any complete run has |
| `QueryRetries.GivingUpTakesThreeFailures` | clawdb/src/query/executor.rs:42-64 | for every engine, plan and state: an execution that ends with a transient error has seen at least three calls fail |
| `QueryRetries.TwoFailuresAreSurvived` | clawdb/src/query/executor.rs:42-64 | so an execution in which at most two calls failed, all transiently, succeeds, whatever the engine and the plan |
| `QueryRetries.OneFailureIsSurvived` | clawdb/src/query/executor.rs:42-64 | in particular an engine that fails one call transiently never makes an execution fail, whichever call it is |
| `QueryRetries.PlansAreSettledForRows` | clawdb/src/query/planner.rs:26-127 | no plan can repeat rows or pushes, and only that of a `remember` can repeat its insert |
| `QueryRetries.OptimisedPlansAreSettledForRows` | clawdb/src/query/optimizer.rs:37-49 | no optimised plan can repeat rows, and only that of a sync can repeat its push |
| `QueryRetries.PairingMayUnsettle` | clawdb/src/query/optimizer.rs:37-59 | pairing keeps a plan from repeating leaves of a kind if and only if the plan did and no such leaf stands at an even offset of a maximal run of independent steps without being its last |
| `QueryRetries.PairingRepeats` | clawdb/src/query/optimizer.rs:37-49 | where one does, a single transient failure makes the paired plan complete it more often than the unpaired one, both succeeding |
| `MemoryTypes.MemoryTypeIgnoresSpaceAndCase` | clawdb/src/engine.rs:1138-1146 | white space around a type's name does not matter, and two names that differ only in the case of ASCII letters are the same type |
| `MemoryTypes.ParsesExactlyTheNames` | clawdb/src/engine.rs:1138-1146 | a text is of the episodic, working or procedural type if and only if it is that name but for surrounding white space and the case of ASCII letters |
| `MemoryTypes.NamesParse` | clawdb/src/engine.rs:1138-1146 | every type's own name is parsed as that type |
| `MemoryTypes.TrimmedIsTheMiddle` | clawdb/src/engine.rs:1139 | trimming takes away white space at both ends, all of it, and nothing else |
| `MemoryTypes.EntryShows` | clawdb/src/engine.rs:1070-1084 | record and entry of an item carry its content, its tags, its metadata, the given identifier and the type that its text names |
| `StagedInvariant.RunKeepsInv` | clawdb-server/src/http/router.rs:689-822 | in every run of both front ends and of the engine's other writes: pending and taken ids are apart, inserts follow the staged list, and core history, index and authorship agree |
| `StagedTheorems.AllOrNothing` | clawdb/src/engine.rs:1062-1109 | until the engine commits, nothing of a transaction is in core or index; afterwards all of its staged items are in the core's history, in staging order; a rollback inserts nothing |
| `StagedTheorems.InsertedAtMostOnce` | clawdb-server/src/http/router.rs:756-796 | no staged item is ever given two identifiers, and a transaction that has inserted anything is not pending |
| `StagedTheorems.ConsumedForGood` | clawdb-server/src/grpc/service.rs:1784-1901 | once a commit or rollback has taken an id, no later request finds it, its list and kind never change, a commit is never withdrawn, and its outcome is final |
| `StagedTheorems.IndexFollowsCore` | clawdb/src/engine.rs:1076-1101 | everything indexed was committed before with the record the index shows; a transaction's entries are its pending upserts that went through, in order, one per insert |
| `StagedIndex.CoreHoldsExactly` | clawdb/src/engine.rs:522-546 | the core holds a memory that was ever committed if and only if no request has deleted it since, and then with the committed record but for the content of the last update |
| `StagedIndex.IndexIsCurrentExactlyWhen` | clawdb/src/engine.rs:342-394 | every indexed memory is in the core if and only if none was deleted after its commit, and the index shows what the core holds if and only if, besides, no last update left another content |
| `StagedIndex.IndexedAfterDeletion` | clawdb/src/engine.rs:360-383 | a run in which a memory is deleted between its insert and its upsert, and indexed when the core no longer has it |
| `StagedIndex.IndexedBefore` | clawdb/src/engine.rs:522-546 | runs in which an indexed memory is deleted or changed and the index keeps what it had |
| `StagedIndex.DeletionIsFinal` | clawdb/src/engine.rs:522-532 | a deleted memory never returns to the core, and nothing ever leaves the index |
| `StagedTheorems.OnlyWritersInsert` | clawdb/src/engine.rs:907-912 | a transaction whose session was not granted memory writes never inserts, commits or indexes anything |
| `StagedTheorems.ReceiptsAreNoMemories` | clawdb-server/src/grpc/service.rs:1696-1721 | an identifier answered when an item was staged is never that of any memory, inserted, committed or indexed, then or later |
| `StagedServer.ClawDb.Authorize` | clawdb/src/engine.rs:1013-1044 | an invalid session is refused first; a valid one is accepted exactly when a granted scope covers an accepted one |
| `StagedServer.ClawDb.Transaction` | clawdb/src/engine.rs:907-919 | opens exactly when the session is valid and may write and the core begins; the new transaction holds nothing |
| `StagedServer.ClawDb.RememberTyped` | clawdb/src/engine.rs:342-394 | succeeds exactly when authorised and inserted, a refusal naming session, scopes or engine; the core then holds the content, tags and type of the item; the index follows when the vector engine accepts, and its refusal is not an error |
| `StagedServer.ClawDb.DeleteMemory` | clawdb/src/engine.rs:522-532 | removes the memory from the core and leaves the index alone |
| `StagedServer.ClawDb.UpdateMemory` | clawdb/src/engine.rs:535-546 | changes the content in the core and leaves the index alone |
| `StagedServer.ClawTransaction.RememberTyped` | clawdb/src/engine.rs:1062-1086 | one insert and one pending upsert for the same id, both at the end of their lists and carrying the content, tags, metadata and type of the item, or neither |
| `StagedServer.ClawTransaction.Commit` | clawdb/src/engine.rs:1089-1102 | fails exactly when the core does, changing nothing; else all inserts are in the core and the index gains the upserts that were accepted, in order |
| `StagedServer.ClawTransaction.Rollback` | clawdb/src/engine.rs:1105-1108 | core and index stay as they are |
| `StagedServer.AppState.StageItem` | clawdb-server/src/http/router.rs:711-727 | an unknown id changes nothing; a pending one gains the item at the end of its list |
| `StagedServer.AppState.CommitPending` | clawdb-server/src/http/router.rs:756-796 | consumes the id whatever happens; succeeds exactly when the session may write and every needed call succeeds; then the core gains a record of each staged item under a new id and the index an entry of each that the vector engine accepted, in order, with content, tags, metadata and type of that item; else nothing changes and the error says why |
| `StagedServer.AppState.RollbackPending` | clawdb-server/src/http/router.rs:798-822 | consumes the id whatever happens, reports success exactly when all three calls succeed, and changes neither core nor index |
| `StagedServer.AppState.Remember` | clawdb/src/engine.rs:342-394 | a write outside transactions is a step of the same protocol and leaves the pending map alone |
| `StagedServer.AppState.DeleteMemory` | clawdb/src/engine.rs:522-532 | a deletion is a step of the same protocol |
| `StagedServer.AppState.UpdateMemory` | clawdb/src/engine.rs:535-546 | an update is a step of the same protocol |
| `StagedServer.HttpRouter.BeginTransaction` | clawdb-server/src/http/router.rs:689-703 | the map gains the fresh id with an empty list and the caller's session |
| `StagedServer.HttpRouter.TxRemember` | clawdb-server/src/http/router.rs:705-728 | stages a semantic memory without tags or metadata |
| `StagedServer.HttpRouter.TxRememberTyped` | clawdb-server/src/http/router.rs:730-754 | stages the body, its type being semantic when it names none |
| `StagedServer.HttpRouter.CommitTransaction` | clawdb-server/src/http/router.rs:756-796 | does what the abstract commit of a staged transaction does |
| `StagedServer.HttpRouter.RollbackTransaction` | clawdb-server/src/http/router.rs:798-822 | does what the abstract rollback does |
| `StagedServer.GrpcService.BeginTx` | clawdb-server/src/grpc/service.rs:1647-1677 | an unauthenticated request changes nothing; otherwise as over HTTP |
| `StagedServer.GrpcService.TxRemember` | clawdb-server/src/grpc/service.rs:1679-1722 | an id that does not parse changes nothing; otherwise as over HTTP, answering with a fresh identifier that is recorded for that item |
| `StagedServer.GrpcService.TxRememberTyped` | clawdb-server/src/grpc/service.rs:1724-1782 | an id or metadata that does not parse changes nothing, blank metadata is null; otherwise as over HTTP, answering with a fresh identifier that is recorded for that item |
| `StagedServer.GrpcService.CommitTx` | clawdb-server/src/grpc/service.rs:1784-1850 | an id that does not parse changes nothing; otherwise the same abstract commit as over HTTP |
| `StagedServer.GrpcService.RollbackTx` | clawdb-server/src/grpc/service.rs:1852-1901 | an id that does not parse changes nothing; otherwise the same abstract rollback as over HTTP |
| `StagedServer.BlankIsTrimmedAway` | clawdb-server/src/grpc/service.rs:1741-1743 | metadata counts as absent exactly when all its characters are white space |
| `SessionTypes.PersistThenRestore` | clawdb/src/session/store.rs:123-161 | a file written at t1 and read at t2 or later brings back exactly the sessions live at t2, over whatever the store holds |
| `SessionTypes.RestoredIsOverlay` | clawdb/src/session/store.rs:146-161 | restoring any file that lists some sessions puts those of them that are still live over what the store holds |
| `SessionTypes.ContextRoundTrip` | clawdb/src/session/manager.rs:64-109 | a context survives conversion to a session and back if and only if its expiry is representable or happens to be an hour away |
| `SessionTypes.SessionRoundTrip` | clawdb/src/session/manager.rs:64-109 | a session survives conversion to a context and back if and only if it holds nothing that a context cannot |
| `SessionProtocol.RunKeepsInv` | clawdb/src/session/manager.rs:151-251 | in every run, with restores and restarts, no stored session, no copy being refreshed and nothing on file expires later than an hour from now |
| `SessionProtocol.RefreshNeverShortensItsCopy` | clawdb/src/session/manager.rs:229-251 | whatever happened since, a completed refresh gives the session an expiry no earlier than the one it had read |
| `SessionProtocol.RefreshShortensExactlyWhen` | clawdb/src/session/manager.rs:229-251 | but it shortens the expiry that the store then holds if and only if somebody else has last written the session, with a later expiry, between its reading of the clock and its insertion |
| `SessionProtocol.RefreshCanShorten` | clawdb/src/session/manager.rs:229-251 | this happens: of two refreshes of one session, the one that read the clock first inserts last and takes five seconds away |
| `SessionProtocol.RevocationIsFinal` | clawdb/src/session/manager.rs:229-262 | a revoked session stays away in every continuation if and only if no refresh of it is in flight, no restore has still to insert it, and no file, written or being written, lists it unexpired |
| `SessionProtocol.RevokeAllInterleaved` | clawdb/src/session/manager.rs:283-295 | among any other requests: when an agent's sessions have been listed and each of them was later removed at a moment when nothing could bring it back, none of those listed is left, whatever the agent has gained meanwhile |
| `SessionProtocol.PurgingIsInvisible` | clawdb/src/session/store.rs:55-105 | dropping all purges from a run leaves a run in which every later lookup finds the same session or fails as well |
| `SessionProtocol.PurgeChangesTheReason` | clawdb/src/session/store.rs:55-105 | a purge changes the answer to a lookup exactly for sessions that had expired by then, from expired to unknown |
| `SessionManager.SessionStore.Insert` | clawdb/src/session/store.rs:40-42 | inserts or replaces under the session's own id |
| `SessionManager.SessionStore.Lookup` | clawdb/src/session/store.rs:55-65 | finds exactly the live sessions, and tells expired from unknown |
| `SessionManager.SessionStore.Remove` | clawdb/src/session/store.rs:70-72 | removes and returns the session if there is one |
| `SessionManager.SessionStore.ListForAgent` | clawdb/src/session/store.rs:77-84 | exactly the agent's live sessions, each once |
| `SessionManager.SessionStore.IdsForAgent` | clawdb/src/session/store.rs:87-93 | exactly the ids of the agent's sessions, live or expired, each once |
| `SessionManager.SessionStore.PurgeExpired` | clawdb/src/session/store.rs:100-105 | keeps exactly the live sessions and counts the others |
| `SessionManager.SessionStore.LiveCount` | clawdb/src/session/store.rs:113-116 | the number of live sessions |
| `SessionManager.SessionStore.PersistTo` | clawdb/src/session/store.rs:123-141 | unless encoding or writing fails, the file lists exactly the live sessions, each once |
| `SessionManager.SessionStore.RestoreFrom` | clawdb/src/session/store.rs:146-161 | a missing file changes nothing and an unreadable one is an error that changes nothing; otherwise the contexts still live are inserted in order and counted |
| `SessionManager.SessionManager.Create` | clawdb/src/session/manager.rs:151-197 | fails only for want of a guard token and then stores nothing; otherwise the session is found for exactly the next hour |
| `SessionManager.SessionManager.Validate` | clawdb/src/session/manager.rs:209-222 | the guard is asked first; then the answer is the store's lookup for the token's session |
| `SessionManager.SessionManager.Refresh` | clawdb/src/session/manager.rs:229-251 | only token and expiry change, the expiry never to an earlier time; every failure leaves the store alone |
| `SessionManager.SessionManager.Revoke` | clawdb/src/session/manager.rs:257-276 | the session is gone whatever the guard says, an unknown one is reported, and no continuation of the run brings it back if and only if no file lists it unexpired |
| `SessionManager.SessionManager.RevokeAllForAgent` | clawdb/src/session/manager.rs:283-295 | exactly the agent's sessions are gone, and their number is returned |
| `SessionManager.SessionManager.Invalidate` | clawdb/src/session/manager.rs:320-322 | removes without asking the guard |
| `SessionManager.SessionManager.PruneExpired` | clawdb/src/session/manager.rs:333-335 | keeps exactly the live sessions |
| `SessionManager.SessionManager.Persist` | clawdb/src/session/store.rs:123-141 | the file at the path lists the live sessions, as a step of the same protocol |
| `SessionManager.SessionManager.Restore` | clawdb/src/session/store.rs:146-161 | restoring is a sequence of steps of the same protocol, one for each session inserted |
| `Scopes.ScopesAreOrdered` | clawdb/src/engine.rs:1203-1209 | scope matching is reflexive, transitive and antisymmetric on all strings, with `*` above everything |
| `Scopes.ScopeCoversExactly` | clawdb/src/engine.rs:1203-1209 | a family covers itself and what goes on after its colon, and a scope that is neither a family nor `*` covers itself alone |
| `Scopes.AcceptsIsMonotone` | clawdb/src/engine.rs:1013-1030 | replacing granted scopes by ones that cover them never takes a permission away |
| `Scopes.WiderEntriesAreRedundant` | clawdb/src/engine.rs:1023-1030 | accepting in addition a scope that covers an accepted one admits nobody new |
| `Scopes.FallbacksAreRedundant` | clawdb/src/engine.rs:342-418 | the `memory:*` and `*` entries of the memory operations' lists are implied by their own scopes |
| `Scopes.HasScopeIsStricter` | clawdb/src/session/context.rs:45-47 | the context's exact check implies the engine's, and they differ only through a granted family scope |
| `Search.Window` | clawdb/src/engine.rs:427-432 | never below k, three times k when that fits the machine word and the largest word otherwise |
| `Search.WindowedSearch` | clawdb/src/engine.rs:428-445 | filtering a window of the ranking yields a prefix of the ideal result, and all of it if and only if the window holds k matches or none lies beyond it |
| `Search.UnfilteredSearchIsExact` | clawdb/src/engine.rs:428-445 | without a filter the result is always the ranking's first k |
| `Search.FiltersCombine` | clawdb/src/engine.rs:1148-1155 | a filter is the conjunction of its parts |
| `Search.OnlyObjectsFilter` | clawdb/src/engine.rs:1148-1155 | a filter that is no object, or an empty one, accepts everything; a proper one rejects metadata that is no object |
| `Search.OneFieldFilter` | clawdb/src/engine.rs:1148-1155 | a filter with one field accepts metadata if and only if that is an object with the same value under the same key |
| `Search.FilterAsksForItsFields` | clawdb/src/engine.rs:1148-1155 | a filter with any number of fields accepts metadata if and only if it has every one of them with its value |
| `Search.ObjectMatchesItself` | clawdb/src/engine.rs:1148-1155 | every object matches itself as a filter, and after changing the value asked for under one key only if it has that value there |
| `Search.OneFieldOfRecord` | clawdb/src/engine.rs:1157-1174 | on the full-text path a field of the filter is compared with the record's own identifier, content, type or tags |
| `Search.OwnMetadataIsNested` | clawdb/src/engine.rs:1076-1084 | the metadata that a caller stored with a memory is one field of what a semantic filter sees: a filter on a field inside it does not find the memory, and one on `metadata` only with all of it |
| `Search.FullTextKnowsFourFields` | clawdb/src/engine.rs:1157-1174 | on the full-text path a filter on any field but id, content, memory type and tags finds nothing |
| `Search.Retain` | clawdb/src/engine.rs:432-436 | the filtering loop keeps exactly the matching items, in order |
| `Search.SearchWithOptions` | clawdb/src/engine.rs:409-464 | errors in their order of precedence; at most k hits, a prefix of the ideal result, exactly it without a filter or on the full-text path, and otherwise if and only if the window sufficed; every semantic hit is one of the ranking and carries each field of the filter with its value, every full-text hit is a matching record that satisfies the filter |

## Left out

- TxManager.TransactionManager.CommitTx: does not model the dimension check, which compares with an expected size of zero and so never fails, nor the events it emits.
- TxManager.TransactionManager.CommitSimple: excludes a context whose id is that of a two-phase transaction; committing one would take that transaction out of the coordinator while it is open.
- QueryTheorems.OptimisingPreservesMeaning: is stated for plans that meet no transient error; `OptimisingIsUnnoticedExactlyWhen` says for which plans nothing more is needed.
- QueryPlanner.Plan: carries neither the time estimate nor the guard flag of a plan, which nothing reads but the result's metadata.
- StagedServer.AppState.CommitPending: is the one body behind both front ends, whose handlers repeat it word for word; responses are reduced to success, not found, invalid argument or an engine error.
- StagedServer.AppState.Remember: shows one request at a time; the interleavings of requests are covered by the runs of `StagedProtocol`.
- StagedServer.AppState.constructor: starts from an empty core and an empty index.
- StagedServer.ClawDb.UpdateMemory: takes updating or deleting an unknown memory as a success that changes nothing; claw-core is not part of this model.
- SessionManager.SessionStore.Walk: returns the sessions in an arbitrary order, as a concurrent map does, and sees one consistent state.
- SessionManager.SessionManager.RevokeAllForAgent: runs alone; `RevokeAllInterleaved` covers other requests in between, but sessions created after the listing stay, as they do in the code.
- A time that passes between a session request's reading of the clock and its use of the reading is modelled for creating and refreshing a session and for purging; the other requests read the clock in the step that uses it.
- SessionProtocol.RunKeepsInv: covers files that the store itself has written; a file that somebody else writes or edits is not part of this model.
- SessionManager.SessionStore.PersistTo: does not say what a failed write leaves in the file; the protocol takes it to be what was there before.
- SessionTypes.ContextRoundTrip: works in whole seconds.
- The interleaving of one manager's requests is modelled in the protocol modules; the classes run one request at a time.
- Cancelled requests (a task dropped between two awaits) and process crashes.
- Isolation levels and read sets of simple transactions beyond recording them: nothing reads them.
- Metrics, tracing, event emission, rate limiting, TLS, configuration, the CLI, plugins, and start-up wiring.
- The internals of the core, vector, branch, sync, guard and reflection engines: their calls are oracles.
- `query/router.rs`: direct dispatch of a query to one component, without plan or retries.
- Handlers outside the transaction routes, which pass a request on to one engine call.
- JSON text and UUID parsing: parameters of the gRPC service.
- The score and the metadata-derived fields of a search hit.
- Stray text after the closing brace of some source files (`clawdb/src/transaction/manager.rs:490-515`, `clawdb/src/transaction/coordinator.rs:146-157`, `clawdb/src/session/store.rs:170-176`).
- Integer overflow of timestamps and counters; only the planner's doubled and the search's tripled result count are modelled at machine width.
