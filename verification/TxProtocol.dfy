/**
 * The two-phase-commit protocol as interleaved steps.
 *
 * A step is one engine call or one critical section of the manager's shared tables.  Any number of
 * transactions are in flight; whoever holds a transaction's lock is represented by that
 * transaction's program counter, and `Idle` means that the lock is free.
 */
module TxProtocol {
  import opened Wrappers
  import opened TxTypes
  import opened Coordinator

  datatype Pc =
    // `begin`, before the identifier is published
    | BeginCore | BeginSnapshot | BeginRegister | BeginInsert
    // `begin` failed; the identifier was never published
    | Refused
    | Idle
    // `buffer_vector_upsert`, after the push
    | Extend(key: string)
    // `commit`
    | Prepare | Upsert(rest: seq<VectorOp>) | CommitCore | DropSnapshot
    // the rollback, `automatic` when a failed phase 2 started it
    | UndoCore(automatic: bool) | UndoSnapshot(automatic: bool)
    // both endings
    | Deregister | Remove | AppendLog

  /**
   * One transaction.  `trace`, `buffered`, `applied` and `prepared` record its past: its engine
   * calls, every operation ever buffered, the upserts that succeeded, whether the gate let it pass.
   */
  datatype Tx = Tx(
    session: Uuid, startedAt: nat, status: Status, coreBegun: bool, buffer: seq<VectorOp>,
    snapshot: Option<Uuid>, pc: Pc,
    trace: seq<Event>, buffered: seq<VectorOp>, applied: seq<VectorOp>, prepared: bool)

  datatype SimplePc = Open | Checked | Unregistered | Closed

  /**
   * A simple transaction: its owner's context, whose writes nobody else sees before `commit_simple`.
   * It is `registered` when `begin_simple` made it; a context that its owner made, or made active
   * again, is not.
   */
  datatype Simple = Simple(session: Uuid, writeSet: seq<string>, registered: bool, pc: SimplePc)

  /** A transaction that has left the coordinator, with the upserts it applied. */
  datatype Retired = Retired(tx: Uuid, applied: seq<VectorOp>)

  datatype State = State(
    txs: map<Uuid, Tx>, simples: map<Uuid, Simple>, active: set<Uuid>, registry: Registry,
    log: seq<LogEntry>, store: Store, retired: seq<Retired>)

  datatype Request = Buffer(op: VectorOp) | Commit | Rollback

  datatype Label =
    | Start(tx: Uuid, session: Uuid, now: nat)
    | Enter(tx: Uuid, request: Request)
    | Advance(tx: Uuid, ok: bool, snap: Uuid)
    | StartSimple(tx: Uuid, session: Uuid, now: nat)
    | Declare(tx: Uuid, session: Uuid, writeSet: seq<string>)
    | AdvanceSimple(tx: Uuid)
    | Reopen(tx: Uuid)

  function Initial(store: Store): State {
    State(map[], map[], {}, map[], [], store, [])
  }

  predicate Enabled(s: State, l: Label) {
    match l
    case Start(tx, _, _) => tx !in s.txs && tx !in s.simples
    case Enter(tx, _) => tx in s.txs && s.txs[tx].pc.Idle?
    case Advance(tx, _, _) => tx in s.txs && !s.txs[tx].pc.Idle? && !s.txs[tx].pc.Refused?
    case StartSimple(tx, _, _) => tx !in s.txs && tx !in s.simples
    case Declare(tx, _, _) => tx in s.simples && s.simples[tx].pc.Open?
    case AdvanceSimple(tx) => tx in s.simples && !s.simples[tx].pc.Closed?
    case Reopen(tx) => tx !in s.txs && (tx in s.simples ==> s.simples[tx].pc.Closed?)
  }

  /**
   * A task that holds the handle obtains the lock.  The handle may be stale: it is enough that the
   * transaction was once published.  A request that its status rules out changes nothing.
   */
  function Entered(t: Tx, request: Request): Tx {
    match request
    case Buffer(op) =>
      if t.status != Active then t
      else t.(buffer := t.buffer + [op], buffered := t.buffered + [op], pc := Extend(op.id))
    case Commit => if t.status != Active then t else t.(pc := Prepare)
    case Rollback => if Terminal(t.status) then t else t.(status := RollingBack, pc := UndoCore(false))
  }

  /** The engine call that the next step of `t` makes, if it makes one. */
  function Issued(c: Engines, t: Tx, ok: bool, snap: Uuid): (calls: seq<Event>)
    ensures |calls| <= 1
  {
    match t.pc
    case BeginCore => if c.core then [Event(CoreBegin, ok)] else []
    case BeginSnapshot => if c.branch then [Event(SnapshotCreate(snap), ok)] else []
    case Upsert(rest) => if rest != [] then [Event(VectorUpsert(rest[0]), ok)] else []
    case CommitCore => if t.coreBegun && c.core then [Event(CoreCommit, ok)] else []
    case DropSnapshot => if t.snapshot.Some? && c.branch then [Event(SnapshotDelete(t.snapshot.value), ok)] else []
    case UndoCore(_) => if t.coreBegun && c.core then [Event(CoreRollback, ok)] else []
    case UndoSnapshot(_) => if t.snapshot.Some? && c.branch then [Event(SnapshotRestore(t.snapshot.value), ok)] else []
    case _ => []
  }

  /** What the next step does to the transaction's own record, `ok` being the outcome of its call. */
  function Moved(c: Engines, t: Tx, ok: bool, snap: Uuid): (t': Tx)
    ensures t'.session == t.session && t'.buffered == t.buffered && t'.prepared == t.prepared
    ensures !t'.pc.Extend?
  {
    match t.pc
    case BeginCore => if c.core && !ok then t.(pc := Refused) else t.(coreBegun := c.core, pc := BeginSnapshot)
    case BeginSnapshot => t.(snapshot := if c.branch && ok then Some(snap) else None, pc := BeginRegister)
    case BeginRegister => t.(pc := BeginInsert)
    case BeginInsert => t.(pc := Idle)
    case Extend(_) => t.(pc := Idle)
    case Upsert(rest) =>
      if rest == [] then t.(pc := CommitCore)
      else if ok then t.(applied := t.applied + [rest[0]], pc := Upsert(rest[1..]))
      else t.(status := RollingBack, pc := UndoCore(true))
    case CommitCore =>
      if !t.coreBegun || !c.core then t.(pc := DropSnapshot)
      else if ok then t.(coreBegun := false, pc := DropSnapshot)
      else t.(status := RollingBack, pc := UndoCore(true))
    case DropSnapshot => t.(snapshot := None, status := Committed, pc := Deregister)
    case UndoCore(automatic) => t.(coreBegun := false, buffer := [], pc := UndoSnapshot(automatic))
    case UndoSnapshot(automatic) =>
      if t.snapshot.Some? && c.branch && !ok && !automatic then t.(snapshot := None, pc := Idle)
      else t.(snapshot := None, status := RolledBack, pc := Deregister)
    case Deregister => t.(pc := Remove)
    case Remove => t.(pc := if t.status == Committed then AppendLog else Idle)
    case AppendLog => t.(pc := Idle)
    case Prepare | Idle | Refused => t
  }

  function Local(c: Engines, t: Tx, ok: bool, snap: Uuid): Tx {
    Moved(c, t, ok, snap).(trace := t.trace + Issued(c, t, ok, snap))
  }

  /** The gate's two outcomes; the buffer is taken out of the record when there is an engine to write it to. */
  function Gated(c: Engines, t: Tx, blocked: bool): Tx {
    if blocked then t.(pc := Idle)
    else if c.vector then t.(status := Committing, prepared := true, buffer := [], pc := Upsert(t.buffer))
    else t.(status := Committing, prepared := true, pc := Upsert([]))
  }

  /** The next step of `t`, `blocked` being the coordinator's answer when the step asks for it. */
  function Next(c: Engines, t: Tx, blocked: bool, ok: bool, snap: Uuid): Tx {
    if t.pc.Prepare? then Gated(c, t, blocked) else Local(c, t, ok, snap)
  }

  // What the step of `t` at its program counter does to each table that the transactions share.

  function ActiveAfter(active: set<Uuid>, tx: Uuid, pc: Pc): set<Uuid> {
    match pc
    case BeginInsert => active + {tx}
    case Remove => active - {tx}
    case _ => active
  }

  function RegistryAfter(registry: Registry, tx: Uuid, t: Tx): Registry {
    match t.pc
    case BeginRegister => registry[tx := TxRecord(t.session, [], t.startedAt)]
    case Extend(key) =>
      if tx in registry then registry[tx := registry[tx].(writeSet := registry[tx].writeSet + [key])] else registry
    case Deregister => registry - {tx}
    case _ => registry
  }

  function LogAfter(log: seq<LogEntry>, tx: Uuid, t: Tx): seq<LogEntry> {
    if t.pc.AppendLog? then log + [LogEntry(tx, t.session, Ids(t.buffer))] else log
  }

  function StoreAfter(store: Store, pc: Pc, ok: bool): Store {
    if pc.Upsert? && pc.rest != [] && ok then Upserted(store, pc.rest[0]) else store
  }

  function RetiredAfter(retired: seq<Retired>, tx: Uuid, t: Tx): seq<Retired> {
    if t.pc.Deregister? then retired + [Retired(tx, t.applied)] else retired
  }

  function Advanced(c: Engines, s: State, tx: Uuid, ok: bool, snap: Uuid): State
    requires tx in s.txs
  {
    var t := s.txs[tx];
    State(
      s.txs[tx := Next(c, t, Blocked(s.registry, tx, []), ok, snap)],
      s.simples,
      ActiveAfter(s.active, tx, t.pc),
      RegistryAfter(s.registry, tx, t),
      LogAfter(s.log, tx, t),
      StoreAfter(s.store, t.pc, ok),
      RetiredAfter(s.retired, tx, t))
  }

  /** `commit_simple` reaches the coordinator and the log, never another transaction, the map or the store. */
  function AdvancedSimple(s: State, tx: Uuid): (s': State)
    requires tx in s.simples
    ensures s'.txs == s.txs && s'.active == s.active && s'.store == s.store && s'.retired == s.retired
  {
    var t := s.simples[tx];
    match t.pc
    case Open =>
      if Blocked(s.registry, tx, t.writeSet) then s
      else s.(simples := s.simples[tx := t.(pc := Checked)])
    case Checked => s.(simples := s.simples[tx := t.(pc := Unregistered)], registry := s.registry - {tx})
    case Unregistered =>
      s.(simples := s.simples[tx := t.(pc := Closed)], log := s.log + [LogEntry(tx, t.session, t.writeSet)])
    case Closed => s
  }

  function NewTx(session: Uuid, now: nat): Tx {
    Tx(session, now, Active, false, [], None, BeginCore, [], [], [], false)
  }

  function Apply(c: Engines, s: State, l: Label): State
    requires Enabled(s, l)
  {
    match l
    case Start(tx, session, now) => s.(txs := s.txs[tx := NewTx(session, now)])
    case Enter(tx, request) => s.(txs := s.txs[tx := Entered(s.txs[tx], request)])
    case Advance(tx, ok, snap) => Advanced(c, s, tx, ok, snap)
    case StartSimple(tx, session, now) =>
      s.(simples := s.simples[tx := Simple(session, [], true, Open)],
         registry := s.registry[tx := TxRecord(session, [], now)])
    case Declare(tx, session, writeSet) =>
      s.(simples := s.simples[tx := s.simples[tx].(session := session, writeSet := writeSet)])
    case Reopen(tx) => s.(simples := s.simples[tx := Simple(0, [], false, Open)])
    case AdvanceSimple(tx) => AdvancedSimple(s, tx)
  }

  /** The state after the run `labels`, or `None` when some label was not enabled. */
  function Run(c: Engines, s: State, labels: seq<Label>): Option<State> {
    if labels == [] then Some(s)
    else
      var before := Run(c, s, labels[..|labels| - 1]);
      var l := labels[|labels| - 1];
      if before.Some? && Enabled(before.value, l) then Some(Apply(c, before.value, l)) else None
  }
}
