/** The records that the transaction coordinator, log, manager and protocol share. */
module TxTypes {
  import opened Wrappers

  /** One vector upsert buffered by a transaction. */
  datatype VectorOp = VectorOp(collection: string, id: string, text: string, metadata: Json)

  /** What the coordinator keeps for each registered transaction. */
  datatype TxRecord = TxRecord(session: Uuid, writeSet: seq<string>, startedAt: nat)

  type Registry = map<Uuid, TxRecord>

  datatype LogEntry = LogEntry(tx: Uuid, session: Uuid, writeSet: seq<string>)

  datatype Status = Active | Committing | RollingBack | Committed | RolledBack

  predicate Terminal(status: Status) {
    status == Committed || status == RolledBack
  }

  /** Which engines the lifecycle manager holds; fixed for the manager's lifetime. */
  datatype Engines = Engines(core: bool, vector: bool, branch: bool)

  /** The record identifiers of `ops`, in order: the keys that conflict detection compares. */
  function Ids(ops: seq<VectorOp>): (ids: seq<string>)
    ensures |ids| == |ops| && forall i :: 0 <= i < |ops| ==> ids[i] == ops[i].id
  {
    seq(|ops|, i requires 0 <= i < |ops| => ops[i].id)
  }

  predicate Overlap(a: seq<string>, b: seq<string>) {
    exists k :: k in a && k in b
  }

  // ---------------------------------------------------------------- foreign calls

  datatype Call =
    | CoreBegin
    | SnapshotCreate(snap: Uuid)
    | VectorUpsert(op: VectorOp)
    | CoreCommit
    | SnapshotDelete(snap: Uuid)
    | CoreRollback
    | SnapshotRestore(snap: Uuid)

  /** A call to an engine together with whether the engine reported success. */
  datatype Event = Event(call: Call, ok: bool)

  // ---------------------------------------------------------------- the vector store

  datatype Key = Key(collection: string, id: string)

  datatype Payload = Payload(text: string, metadata: Json)

  type Store = map<Key, Payload>

  function Upserted(store: Store, op: VectorOp): Store {
    store[Key(op.collection, op.id) := Payload(op.text, op.metadata)]
  }

  /** `store` after the upserts `ops`, applied one after another. */
  function Written(store: Store, ops: seq<VectorOp>): Store {
    if ops == [] then store
    else Upserted(Written(store, ops[..|ops| - 1]), ops[|ops| - 1])
  }
}
