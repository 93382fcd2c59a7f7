/**
 * The transaction manager as the program runs it: objects updated in place, one request at a time.
 *
 * A ghost copy of the protocol's state goes along with the real fields.  `Valid` says that the copy
 * was reached by a run of the protocol and that the fields agree with it, so whatever holds of every
 * run holds of the manager; each method's run extends the previous one.
 */
module TxManager {
  import opened Wrappers
  import opened TxTypes
  import opened Coordinator
  import opened TxLog
  import opened TxProtocol
  import opened TxTrace
  import opened TxInvariant
  import opened TxSafety
  import opened TxTheorems

  datatype TxError =
    | NotFound
    | WrongStatus(status: Status)
    | Conflict(with: Uuid)
    | CoreBeginFailed
    | PhaseTwoFailed
    | RestoreFailed

  /** An engine call made on behalf of a transaction. */
  datatype TaggedEvent = TaggedEvent(tx: Uuid, event: Event)

  /** The calls in `calls` that were made for `tx`. */
  function TraceOf(calls: seq<TaggedEvent>, tx: Uuid): seq<Event> {
    if calls == [] then []
    else
      var last := calls[|calls| - 1];
      TraceOf(calls[..|calls| - 1], tx) + (if last.tx == tx then [last.event] else [])
  }

  /**
   * The calls of a rollback: ROLLBACK when the core's transaction is open, then the restore of
   * `snapshot` when there is one to restore, `ok` being the answer to that.
   */
  predicate Undid(calls: seq<TaggedEvent>, tx: Uuid, core: bool, snapshot: Option<Uuid>, ok: bool) {
    var n := if core then 1 else 0;
    && |calls| == n + (if snapshot.Some? then 1 else 0)
    && (core ==> calls[0].tx == tx && calls[0].event.call == CoreRollback)
    && if snapshot.Some? then calls[n] == TaggedEvent(tx, Event(SnapshotRestore(snapshot.value), ok)) else ok
  }

  /** Among `calls` is a refused restore of `snapshot` for `tx`. */
  predicate RestoreRefused(calls: seq<TaggedEvent>, tx: Uuid, snapshot: Option<Uuid>) {
    snapshot.Some? && TaggedEvent(tx, Event(SnapshotRestore(snapshot.value), false)) in calls
  }

  lemma UndidNothing(calls: seq<TaggedEvent>, tx: Uuid, ok: bool)
    ensures Undid(calls, tx, false, None, ok) ==> ok && calls == []
  {
  }

  lemma UndidRefused(calls: seq<TaggedEvent>, tx: Uuid, core: bool, snapshot: Option<Uuid>, ok: bool)
    requires Undid(calls, tx, core, snapshot, ok)
    ensures RestoreRefused(calls, tx, snapshot) <==> !ok
    ensures forall e | e in calls :: e.tx == tx
  {
  }

  /** The core, vector and branch engines: `answer` decides whether a call succeeds, after any history. */
  class EngineSet {
    const has: Engines
    const answer: (seq<TaggedEvent>, Call) -> bool
    const nextSnapshot: seq<TaggedEvent> -> Uuid
    var calls: seq<TaggedEvent>
    var store: Store

    constructor (
      has: Engines, answer: (seq<TaggedEvent>, Call) -> bool, nextSnapshot: seq<TaggedEvent> -> Uuid, store: Store)
      ensures this.has == has && this.answer == answer && this.nextSnapshot == nextSnapshot
      ensures calls == [] && this.store == store
    {
      this.has, this.answer, this.nextSnapshot := has, answer, nextSnapshot;
      this.calls, this.store := [], store;
    }

    method Invoke(tx: Uuid, call: Call) returns (ok: bool)
      modifies this
      ensures ok == answer(old(calls), call)
      ensures calls == old(calls) + [TaggedEvent(tx, Event(call, ok))]
      ensures store == if call.VectorUpsert? && ok then Upserted(old(store), call.op) else old(store)
      ensures forall t :: TraceOf(calls, t) ==
                          if t == tx then TraceOf(old(calls), t) + [Event(call, ok)] else TraceOf(old(calls), t)
    {
      ok := answer(calls, call);
      ghost var before := calls;
      calls := calls + [TaggedEvent(tx, Event(call, ok))];
      assert calls[..|before|] == before;
      if call.VectorUpsert? && ok {
        store := Upserted(store, call.op);
      }
    }
  }

  /**
   * The calls of a `begin` that has published its transaction: BEGIN when there is a core, then one
   * request for a snapshot when there is a branch engine; `snapshot` is what that request returned.
   */
  predicate BeganWith(has: Engines, trace: seq<Event>, snapshot: Option<Uuid>) {
    var begun := if has.core then [Event(CoreBegin, true)] else [];
    if has.branch then
      && |trace| == |begun| + 1 && trace[..|begun|] == begun
      && var last := trace[|begun|];
      && last.call.SnapshotCreate? && snapshot == if last.ok then Some(last.call.snap) else None
    else trace == begun && snapshot == None
  }

  /** The protocol's step past the branch engine, and what it adds to the calls of a `begin`. */
  lemma SnapshotStep(c: Engines, t: Tx)
    requires t.pc == BeginSnapshot
    ensures forall ok, snap :: var asked := Local(c, t, ok, snap);
              && asked == t.(snapshot := if c.branch && ok then Some(snap) else None, pc := BeginRegister,
                             trace := asked.trace)
              && (BeganWith(c.(branch := false), t.trace, None) ==> BeganWith(c, asked.trace, asked.snapshot))
    ensures !c.branch ==> Issued(c, t, true, 0) == []
  {
    forall ok, snap
      ensures BeganWith(c.(branch := false), t.trace, None) ==>
                BeganWith(c, Local(c, t, ok, snap).trace, if c.branch && ok then Some(snap) else None)
    {
      var call := Event(SnapshotCreate(snap), ok);
      assert t.trace + [] == t.trace;
      assert (t.trace + [call])[..|t.trace|] == t.trace && (t.trace + [call])[|t.trace|] == call;
    }
  }

  class TxState {
    const id: Uuid
    const session: Uuid
    const startedAt: nat
    var status: Status
    var coreBegun: bool
    var buffer: seq<VectorOp>
    var snapshot: Option<Uuid>

    constructor (id: Uuid, session: Uuid, now: nat)
      ensures this.id == id && this.session == session && startedAt == now
      ensures status == Active && !coreBegun && buffer == [] && snapshot == None
    {
      this.id, this.session, startedAt := id, session, now;
      status, coreBegun, buffer, snapshot := Active, false, [], None;
    }

    ghost predicate Shows(t: Tx)
      reads this
    {
      session == t.session && startedAt == t.startedAt && status == t.status && coreBegun == t.coreBegun
      && buffer == t.buffer && snapshot == t.snapshot
    }
  }

  /** What `begin_simple` hands to its caller, who alone knows what it writes. */
  class TransactionContext {
    const id: Uuid
    const session: Uuid
    var status: Status
    var writeSet: seq<string>
    var readSet: seq<string>

    constructor (id: Uuid, session: Uuid)
      ensures this.id == id && this.session == session && status == Active && writeSet == [] && readSet == []
    {
      this.id, this.session := id, session;
      status, writeSet, readSet := Active, [], [];
    }

    method RecordWrite(key: string)
      modifies this`writeSet
      ensures writeSet == old(writeSet) + [key]
    {
      writeSet := writeSet + [key];
    }

    method RecordRead(key: string)
      modifies this`readSet
      ensures readSet == old(readSet) + [key]
    {
      readSet := readSet + [key];
    }
  }

  class TransactionManager {
    const engines: EngineSet
    const coordinator: TransactionCoordinator
    const log: TransactionLog
    var active: map<Uuid, TxState>

    ghost const base: Store
    ghost var machine: State
    ghost var run: seq<Label>

    /** The ghost copy was reached by a run, and the shared tables agree with it. */
    ghost predicate Sync()
      reads this, engines, coordinator, log
    {
      && Run(engines.has, Initial(base), run) == Some(machine)
      && coordinator.active == machine.registry
      && log.Valid() && log.history == machine.log
      && engines.store == machine.store
      && active.Keys == machine.active
      && (forall tx :: TraceOf(engines.calls, tx) == if tx in machine.txs then machine.txs[tx].trace else [])
    }

    /** Everybody but `tx` is at rest, and the other objects in the map show what the ghost copy says. */
    ghost predicate OthersRest(tx: Uuid)
      reads this, active.Values
    {
      && (forall o | o in active :: o in machine.txs && active[o].id == o)
      && (forall o | o in active && o != tx :: active[o].Shows(machine.txs[o]) && machine.txs[o].pc.Idle?)
      && (forall o | o in machine.txs && o != tx :: machine.txs[o].pc.Idle? || machine.txs[o].pc.Refused?)
      && (forall o | o in machine.simples :: machine.simples[o].pc.Open? || machine.simples[o].pc.Closed?)
    }

    ghost predicate Valid()
      reads this, engines, coordinator, log, active.Values
    {
      && Sync()
      && AtRest(machine)
      && (forall o | o in active ::
            o in machine.txs && active[o].id == o && active[o].Shows(machine.txs[o]) && machine.txs[o].pc.Idle?)
    }

    constructor (engines: EngineSet)
      requires engines.calls == []
      ensures Valid() && fresh(coordinator) && fresh(log) && this.engines == engines
      ensures active == map[] && coordinator.active == map[] && log.history == [] && log.maxEntries == 8192
    {
      this.engines := engines;
      coordinator := new TransactionCoordinator();
      log := new TransactionLog(8192);
      active := map[];
      base := engines.store;
      machine := Initial(engines.store);
      run := [];
    }

    /** The protocol takes one step. */
    ghost method Step(l: Label)
      requires Run(engines.has, Initial(base), run) == Some(machine) && Enabled(machine, l)
      modifies this`machine, this`run
      ensures Run(engines.has, Initial(base), run) == Some(machine)
      ensures machine == Apply(engines.has, old(machine), l) && run == old(run) + [l]
    {
      ghost var before := run;
      machine, run := Apply(engines.has, machine, l), run + [l];
      assert run[..|before|] == before;
    }

    /** `state` is up to date, and so is everything that the transactions share. */
    ghost predicate Ready(state: TxState)
      reads this, engines, coordinator, log, state
    {
      Sync() && state.id in machine.txs && state.Shows(machine.txs[state.id])
    }

    /** The run went on, and among the tables only the protocol's record of `tx` and the store changed. */
    twostate predicate OnlyChanged(tx: Uuid)
      reads this
    {
      && old(run) <= run
      && tx in old(machine).txs && tx in machine.txs
      && machine == old(machine).(txs := old(machine).txs[tx := machine.txs[tx]], store := machine.store)
    }

    /** Makes the engine call that the protocol's next step for `tx` consists of. */
    method Ask(tx: Uuid, call: Call) returns (ok: bool)
      requires Sync() && tx in machine.txs && Alone(machine.txs[tx].pc) && !call.VectorUpsert?
      requires forall ok :: Issued(engines.has, machine.txs[tx], ok, 0) == [Event(call, ok)]
      modifies this`machine, this`run, engines
      ensures Sync() && OnlyChanged(tx) && engines.store == old(engines.store)
      ensures machine.txs[tx] == Local(engines.has, old(machine).txs[tx], ok, 0)
      ensures engines.calls == old(engines.calls) + [TaggedEvent(tx, Event(call, ok))]
    {
      hide Run, Moved, Issued, TraceOf, Window, Initial;
      ok := engines.Invoke(tx, call);
      Step(Advance(tx, ok, 0));
      StepsAlone(engines.has, old(machine), tx, ok, 0);
    }

    /** The protocol's next step for `tx` calls no engine. */
    ghost method Skip(tx: Uuid)
      requires Sync() && tx in machine.txs && Alone(machine.txs[tx].pc)
      requires Issued(engines.has, machine.txs[tx], true, 0) == []
      modifies this`machine, this`run
      ensures Sync() && OnlyChanged(tx) && engines.store == old(engines.store)
      ensures machine.txs[tx] == Local(engines.has, old(machine).txs[tx], true, 0)
    {
      hide Run, Moved, Issued, TraceOf, Window, Initial;
      Step(Advance(tx, true, 0));
      StepsAlone(engines.has, old(machine), tx, true, 0);
    }

    // ---------------------------------------------------------------- phase 2

    /** One buffered upsert, reported to the protocol. */
    method UpsertOne(state: TxState, op: VectorOp, ghost rest: seq<VectorOp>) returns (ok: bool)
      requires Ready(state) && machine.txs[state.id].pc == Upsert([op] + rest)
      modifies this`machine, this`run, engines
      ensures Sync() && OnlyChanged(state.id)
      ensures engines.store == if ok then Upserted(old(engines.store), op) else old(engines.store)
      ensures var t, t' := old(machine).txs[state.id], machine.txs[state.id];
              if ok then t' == t.(applied := t.applied + [op], pc := Upsert(rest), trace := t'.trace)
              else t' == t.(status := RollingBack, pc := UndoCore(true), trace := t'.trace)
    {
      hide Run, Local, TraceOf, Window, Initial, Blocked, Upserted;
      ghost var t := machine.txs[state.id];
      LocalUpsert(engines.has, t);
      ok := engines.Invoke(state.id, VectorUpsert(op));
      Step(Advance(state.id, ok, 0));
      assert t.pc.rest[0] == op && t.pc.rest[1..] == rest;
    }

    /** The buffer is being applied, and `todo` is what remains of it. */
    ghost predicate Applying(state: TxState, todo: seq<VectorOp>)
      reads this, engines, coordinator, log, state
    {
      Ready(state) && machine.txs[state.id].pc == Upsert(todo)
    }

    /** Upserts `ops` in order, stopping at the first failure. */
    method ApplyBuffer(state: TxState, ops: seq<VectorOp>) returns (ok: bool)
      requires Applying(state, ops) && machine.txs[state.id].applied == []
      modifies this`machine, this`run, engines
      ensures Sync() && OnlyChanged(state.id)
      ensures var t, t' := old(machine).txs[state.id], machine.txs[state.id];
              && t'.applied <= ops && engines.store == Written(old(engines.store), t'.applied)
              && if ok then t' == t.(applied := ops, pc := Upsert([]), trace := t'.trace)
                 else t' == t.(applied := t'.applied, status := RollingBack, pc := UndoCore(true), trace := t'.trace)
    {
      hide Sync, Written, Upserted, Run, TraceOf, Blocked, Local, Initial;
      assert ops[0..] == ops && Written(engines.store, ops[..0]) == engines.store by { WrittenNothing(engines.store); }
      var i := 0;
      while i < |ops|
        invariant 0 <= i <= |ops|
        invariant Applying(state, ops[i..]) && OnlyChanged(state.id)
        invariant engines.store == Written(old(engines.store), ops[..i])
        invariant machine.txs[state.id] == old(machine).txs[state.id].(
                    applied := ops[..i], pc := Upsert(ops[i..]), trace := machine.txs[state.id].trace)
      {
        TakeOne(old(engines.store), ops, i);
        ok := UpsertOne(state, ops[i], ops[i + 1..]);
        if !ok {
          return;
        }
        i := i + 1;
      }
      assert ops[..i] == ops;
      return true;
    }

    method CommitCoreOf(state: TxState) returns (ok: bool)
      requires Ready(state) && machine.txs[state.id].pc == CommitCore
      modifies this`machine, this`run, engines, state`coreBegun
      ensures Sync() && OnlyChanged(state.id) && engines.store == old(engines.store)
      ensures var t, t' := old(machine).txs[state.id], machine.txs[state.id];
              && state.coreBegun == t'.coreBegun
              && if ok then
                   t' == t.(coreBegun := t.coreBegun && !engines.has.core, pc := DropSnapshot, trace := t'.trace)
                 else t' == t.(status := RollingBack, pc := UndoCore(true), trace := t'.trace)
    {
      hide Sync;
      ok := true;
      if state.coreBegun && engines.has.core {
        ok := Ask(state.id, CoreCommit);
        if ok {
          state.coreBegun := false;
        }
      } else {
        Skip(state.id);
      }
    }

    method DropSnapshotOf(state: TxState)
      requires Ready(state) && machine.txs[state.id].pc == DropSnapshot
      modifies this`machine, this`run, engines, state`snapshot
      ensures Sync() && OnlyChanged(state.id) && engines.store == old(engines.store) && state.snapshot == None
      ensures var t, t' := old(machine).txs[state.id], machine.txs[state.id];
              t' == t.(snapshot := None, status := Committed, pc := Deregister, trace := t'.trace)
    {
      hide Sync;
      if state.snapshot.Some? && engines.has.branch {
        var _ := Ask(state.id, SnapshotDelete(state.snapshot.value));
      } else {
        Skip(state.id);
      }
      state.snapshot := None;
    }

    /** `prepare` has let the transaction pass, and its buffer is still in the record. */
    ghost predicate Passed(state: TxState)
      reads this, engines, coordinator, log, state
    {
      && Sync() && state.id in machine.txs
      && var t := machine.txs[state.id];
      && t.status == Committing && t.applied == [] && t.prepared
      && t.buffered == state.buffer
      && t.buffer == (if engines.has.vector then [] else state.buffer)
      && t.pc == Upsert(if engines.has.vector then state.buffer else [])
      && state.Shows(t.(buffer := state.buffer))
    }

    /** Takes the buffer out of the record and applies it, when there is a vector engine to apply it to. */
    method DrainBuffer(state: TxState) returns (ok: bool)
      requires Passed(state)
      modifies this`machine, this`run, engines, state`buffer
      ensures Sync() && OnlyChanged(state.id)
      ensures engines.store == Written(old(engines.store), machine.txs[state.id].applied)
      ensures var t, t' := old(machine).txs[state.id], machine.txs[state.id];
              && state.buffer == t.buffer && t'.applied <= old(state.buffer)
              && (ok ==> t'.applied == if engines.has.vector then old(state.buffer) else [])
              && if ok then t' == t.(applied := t'.applied, pc := CommitCore, trace := t'.trace)
                 else t' == t.(applied := t'.applied, status := RollingBack, pc := UndoCore(true), trace := t'.trace)
    {
      hide Sync, Written;
      WrittenNothing(engines.store);
      ok := true;
      if state.buffer != [] && engines.has.vector {
        var buffer := state.buffer;
        state.buffer := [];
        ok := ApplyBuffer(state, buffer);
      }
      if ok {
        Skip(state.id);
      }
    }

    /** COMMIT and, once it succeeded, the snapshot's deletion, whose failure is not fatal. */
    method CommitAndDrop(state: TxState) returns (ok: bool)
      requires Ready(state) && machine.txs[state.id].pc == CommitCore
      modifies this`machine, this`run, engines, state
      ensures Sync() && OnlyChanged(state.id) && engines.store == old(engines.store)
      ensures state.status == old(state.status)
      ensures var t, t' := old(machine).txs[state.id], machine.txs[state.id];
              && state.Shows(t'.(status := state.status))
              && t'.applied == t.applied && t'.buffer == t.buffer && t'.prepared == t.prepared
              && if ok then t'.pc == Deregister && t'.status == Committed
                 else t'.pc == UndoCore(true) && t'.status == RollingBack
    {
      hide Sync;
      ok := CommitCoreOf(state);
      if ok {
        DropSnapshotOf(state);
      }
    }

    /**
     * Phase 2: the buffered upserts, COMMIT, the snapshot's deletion.  On failure the upserts that
     * succeeded stay in the store.
     */
    method ApplyPhase2(state: TxState) returns (ok: bool)
      requires Passed(state)
      modifies this`machine, this`run, engines, state
      ensures Sync() && OnlyChanged(state.id)
      ensures state.status == old(state.status)
              && engines.store == Written(old(engines.store), machine.txs[state.id].applied)
      ensures var t := machine.txs[state.id];
              && state.Shows(t.(status := state.status))
              && t.prepared && t.applied <= old(state.buffer)
              && (ok ==> t.applied == if engines.has.vector then old(state.buffer) else [])
              && if ok then t.pc == Deregister && t.status == Committed && t.buffer == old(machine).txs[state.id].buffer
                 else t.pc == UndoCore(true) && t.status == RollingBack
    {
      hide Sync, Written;
      ok := DrainBuffer(state);
      if ok {
        ok := CommitAndDrop(state);
      }
    }

    // ---------------------------------------------------------------- rollback

    /** The calls made since. */
    twostate function NewCalls(): seq<TaggedEvent>
      reads engines
    {
      if |old(engines.calls)| <= |engines.calls| then engines.calls[|old(engines.calls)|..] else []
    }

    /** The snapshot that a rollback of `state` can restore. */
    function Restorable(state: TxState): Option<Uuid>
      reads state
    {
      if engines.has.branch then state.snapshot else None
    }

    method RollbackCore(state: TxState, ghost automatic: bool)
      requires Ready(state) && machine.txs[state.id].pc == UndoCore(automatic)
      modifies this`machine, this`run, engines, state
      ensures Ready(state) && OnlyChanged(state.id) && engines.store == old(engines.store)
      ensures var t, t' := old(machine).txs[state.id], machine.txs[state.id];
              t' == t.(coreBegun := false, buffer := [], pc := UndoSnapshot(automatic), trace := t'.trace)
      ensures old(engines.calls) <= engines.calls
      ensures Undid(NewCalls(), state.id, old(state.coreBegun) && engines.has.core, None, true)
      ensures state.snapshot == old(state.snapshot) && state.status == old(state.status)
    {
      hide Sync;
      if state.coreBegun && engines.has.core {
        var _ := Ask(state.id, CoreRollback);
      } else {
        Skip(state.id);
      }
      state.coreBegun := false;
      state.buffer := [];
    }

    method RestoreSnapshot(state: TxState, ghost automatic: bool) returns (ok: bool)
      requires Ready(state) && machine.txs[state.id].pc == UndoSnapshot(automatic)
      modifies this`machine, this`run, engines, state`snapshot
      ensures Sync() && OnlyChanged(state.id) && engines.store == old(engines.store) && state.snapshot == None
      ensures var t, t' := old(machine).txs[state.id], machine.txs[state.id];
              t' == if ok || automatic
                    then t.(snapshot := None, status := RolledBack, pc := Deregister, trace := t'.trace)
                    else t.(snapshot := None, pc := Idle, trace := t'.trace)
      ensures old(engines.calls) <= engines.calls
      ensures Undid(NewCalls(), state.id, false, old(Restorable(state)), ok)
    {
      hide Sync;
      ok := true;
      if state.snapshot.Some? && engines.has.branch {
        ok := Ask(state.id, SnapshotRestore(state.snapshot.value));
      } else {
        Skip(state.id);
      }
      state.snapshot := None;
    }

    method DoRollback(state: TxState, ghost automatic: bool) returns (ok: bool)
      requires Ready(state) && machine.txs[state.id].pc == UndoCore(automatic)
      modifies this`machine, this`run, engines, state
      ensures Sync() && OnlyChanged(state.id) && engines.store == old(engines.store)
      ensures state.status == old(state.status) && !state.coreBegun && state.buffer == [] && state.snapshot == None
      ensures var t, t' := old(machine).txs[state.id], machine.txs[state.id];
              t' == t.(coreBegun := false, buffer := [], snapshot := None, trace := t'.trace,
                       status := if ok || automatic then RolledBack else t.status,
                       pc := if ok || automatic then Deregister else Idle)
      ensures old(engines.calls) <= engines.calls
      ensures Undid(NewCalls(), state.id, old(state.coreBegun) && engines.has.core, old(Restorable(state)), ok)
    {
      hide Run, Sync;
      RollbackCore(state, automatic);
      ok := RestoreSnapshot(state, automatic);
    }

    // ---------------------------------------------------------------- the requests

    twostate lemma OthersStillRest(state: TxState)
      requires old(OthersRest(state.id)) && active == old(active) && state.id in machine.txs
      requires machine.txs == old(machine).txs[state.id := machine.txs[state.id]]
               && machine.simples == old(machine).simples
      requires forall o | o in active && active[o] != state :: unchanged(active[o])
      ensures OthersRest(state.id)
    {
      assert forall o | o in active :: active[o].id == o;
    }

    /** What `Sync` says of the shared tables. */
    lemma SyncMeans()
      requires Sync()
      ensures Run(engines.has, Initial(base), run) == Some(machine)
      ensures coordinator.active == machine.registry && log.Valid() && log.history == machine.log
      ensures engines.store == machine.store && active.Keys == machine.active
    {
      hide Run, TraceOf, Window;
    }

    /** The run went on without an engine call, and the tables still agree with it. */
    twostate lemma StillSync()
      requires old(Sync()) && Run(engines.has, Initial(base), run) == Some(machine)
      requires engines.calls == old(engines.calls) && engines.store == machine.store
      requires coordinator.active == machine.registry && log.Valid() && log.history == machine.log
      requires active.Keys == machine.active && old(machine).txs.Keys <= machine.txs.Keys
      requires forall tx | tx in machine.txs ::
                 machine.txs[tx].trace == if tx in old(machine).txs then old(machine).txs[tx].trace else []
      ensures Sync()
    {
      hide Run, TraceOf, Window;
    }

    twostate lemma LeaverRests(state: TxState)
      requires old(OthersRest(state.id)) && active == old(active) - {state.id} && state.id in machine.txs
      requires machine.txs == old(machine).txs[state.id := machine.txs[state.id]]
      requires machine.simples == old(machine).simples
      requires forall o | o in old(active) && old(active)[o] != state :: unchanged(old(active)[o])
      ensures OthersRest(state.id)
    {
      assert forall o | o in old(active) :: old(active)[o].id == o;
    }

    /** At rest, everybody but any one transaction rests. */
    lemma AllOthersRest(id: Uuid)
      requires Valid()
      ensures Sync() && OthersRest(id) && (id in active ==> id in machine.txs)
    {
      hide Sync;
    }

    method LeaveCoordinator(state: TxState)
      requires Ready(state) && machine.txs[state.id].pc == Deregister
      modifies this`machine, this`run, coordinator
      ensures Ready(state) && old(run) <= run && coordinator.active == old(coordinator.active) - {state.id}
      ensures machine.txs == old(machine).txs[state.id := old(machine).txs[state.id].(pc := Remove)]
      ensures machine.simples == old(machine).simples && machine.active == old(machine).active
      ensures machine.log == old(machine).log && machine.store == old(machine).store
    {
      hide Run, Sync, TraceOf, Window, Apply, Enabled, Initial;
      SyncMeans();
      DeregisterStep(engines.has, machine, state.id);
      coordinator.Deregister(state.id);
      Step(Advance(state.id, true, 0));
      StillSync();
    }

    method LeaveMap(state: TxState)
      requires Ready(state) && machine.txs[state.id].pc == Remove
      modifies this
      ensures Ready(state) && old(run) <= run && active == old(active) - {state.id}
      ensures var t := old(machine).txs[state.id];
              machine.txs == old(machine).txs[state.id := t.(pc := if t.status == Committed then AppendLog else Idle)]
      ensures machine.simples == old(machine).simples && machine.registry == old(machine).registry
      ensures machine.log == old(machine).log && machine.store == old(machine).store
    {
      hide Run, Sync, TraceOf, Window, Apply, Enabled, Initial;
      SyncMeans();
      RemoveStep(engines.has, machine, state.id);
      active := active - {state.id};
      Step(Advance(state.id, true, 0));
      StillSync();
    }

    /** Deregisters the transaction and takes it out of the map. */
    method Leave(state: TxState)
      requires Ready(state) && OthersRest(state.id) && machine.txs[state.id].pc == Deregister
      modifies this, coordinator
      ensures Ready(state) && OthersRest(state.id) && old(run) <= run
      ensures active == old(active) - {state.id} && coordinator.active == old(coordinator.active) - {state.id}
      ensures machine.log == old(machine).log && machine.store == old(machine).store
      ensures var t := old(machine).txs[state.id];
              machine.txs == old(machine).txs[state.id := t.(pc := if t.status == Committed then AppendLog else Idle)]
    {
      hide Sync, OthersRest;
      LeaveCoordinator(state);
      LeaveMap(state);
      LeaverRests(state);
    }

    ghost method StepGate(tx: Uuid)
      requires Run(engines.has, Initial(base), run) == Some(machine)
      requires tx in machine.txs && machine.txs[tx].pc.Idle? && machine.txs[tx].status == Active
      modifies this`machine, this`run
      ensures Run(engines.has, Initial(base), run) == Some(machine) && old(run) <= run
      ensures machine == if Blocked(old(machine).registry, tx, []) then old(machine)
                         else GatedState(engines.has, old(machine), tx)
    {
      hide Run, Blocked, Advanced;
      GateRun(engines.has, machine, tx);
      Step(Enter(tx, Commit));
      Step(Advance(tx, true, 0));
    }

    /** Phase 1: succeeds exactly when no registered transaction blocks this one. */
    method Gate(state: TxState) returns (r: Result<(), Uuid>)
      requires Ready(state) && machine.txs[state.id].pc == Idle && state.status == Active
      modifies this`machine, this`run, state`status
      ensures Sync() && old(run) <= run
      ensures r.Ok? <==> !Blocked(coordinator.active, state.id, [])
      ensures r.Err? ==>
                Blocks(coordinator.active, r.error, state.id, []) && machine == old(machine) && state.status == Active
      ensures r.Ok? ==> Passed(state) && OnlyChanged(state.id)
    {
      hide Run, Sync, TraceOf, Window, Blocked, Blocks, Initial;
      SyncMeans();
      ActiveHasOnlyBuffered(engines.has, base, run, machine, state.id);
      r := coordinator.Prepare(state.id, []);
      hide GatedState;
      GatedMeans(engines.has, machine, state.id);
      StepGate(state.id);
      StillSync();
      if r.Ok? {
        state.status := Committing;
      }
    }

    method Record(state: TxState)
      requires Ready(state) && OthersRest(state.id) && machine.txs[state.id].pc == AppendLog
      modifies this`machine, this`run, log
      ensures Ready(state) && OthersRest(state.id) && old(run) <= run
      ensures machine.log == old(machine).log + [LogEntry(state.id, state.session, Ids(state.buffer))]
      ensures machine.txs == old(machine).txs[state.id := old(machine).txs[state.id].(pc := Idle)]
      ensures machine.simples == old(machine).simples && machine.store == old(machine).store
    {
      hide Run, Sync, OthersRest, TraceOf, Window, Ids, Apply, Enabled, Initial;
      SyncMeans();
      AppendStep(engines.has, machine, state.id);
      log.Append(LogEntry(state.id, state.session, Ids(state.buffer)));
      Step(Advance(state.id, true, 0));
      StillSync();
      OthersStillRest(state);
    }

    twostate lemma NewcomerRests(state: TxState)
      requires old(OthersRest(state.id)) && Ready(state)
      requires active == old(active)[state.id := state] && machine.simples == old(machine).simples
      requires machine.txs == old(machine).txs[state.id := machine.txs[state.id]]
      requires forall o | o in old(active) && old(active)[o] != state :: unchanged(old(active)[o])
      ensures OthersRest(state.id)
    {
      hide Sync;
      assert forall o | o in old(active) :: old(active)[o].id == o;
    }

    lemma AllRest(state: TxState)
      requires Sync() && OthersRest(state.id) && state.id in machine.txs
      requires machine.txs[state.id].pc == Refused ==> state.id !in active
      requires machine.txs[state.id].pc != Refused ==>
                 machine.txs[state.id].pc == Idle && state.Shows(machine.txs[state.id])
      requires state.id in active ==> active[state.id] == state
      ensures Valid()
    {
      hide Sync;
    }

    /** After a successful phase 2: out of both tables, then into the log. */
    method Finish(state: TxState)
      requires Sync() && OthersRest(state.id) && state.id in active && active[state.id] == state
      requires state.id in machine.txs && state.Shows(machine.txs[state.id].(status := state.status))
      requires machine.txs[state.id].pc == Deregister && machine.txs[state.id].status == Committed
      modifies this, coordinator, log, state`status
      ensures Valid() && old(run) <= run && active == old(active) - {state.id}
      ensures machine.txs == old(machine).txs[state.id := old(machine).txs[state.id].(pc := Idle)]
      ensures machine.log == old(machine).log + [LogEntry(state.id, state.session, Ids(state.buffer))]
      ensures machine.store == old(machine).store
    {
      hide Run, Sync, Valid, Ids, OthersRest, TraceOf, Window, Initial, AtRest;
      state.status := Committed;
      OthersStillRest(state);
      Leave(state);
      Record(state);
      AllRest(state);
    }

    /** After a failed phase 2: rolled back as far as it goes, and out of both tables whatever the outcome. */
    method GiveUp(state: TxState)
      requires Sync() && OthersRest(state.id) && state.id in active && active[state.id] == state
      requires state.id in machine.txs && state.Shows(machine.txs[state.id].(status := state.status))
      requires machine.txs[state.id].pc == UndoCore(true) && machine.txs[state.id].status == RollingBack
      modifies this, coordinator, engines, state
      ensures Valid() && old(run) <= run && active == old(active) - {state.id}
      ensures state.id in machine.txs && machine.txs[state.id].status == RolledBack
      ensures machine.txs[state.id].applied == old(machine).txs[state.id].applied
      ensures machine.txs[state.id].prepared == old(machine).txs[state.id].prepared
      ensures machine.log == old(machine).log && engines.store == old(engines.store)
    {
      hide Sync, Valid, OthersRest;
      state.status := RollingBack;
      var _ := DoRollback(state, true);
      state.status := RolledBack;
      OthersStillRest(state);
      Leave(state);
      AllRest(state);
    }

    /** At rest, exactly the transactions undone by a failed commit have had a refused upsert or COMMIT. */
    lemma FaultsSeen(tx: Uuid)
      requires Valid() && tx in machine.txs
      ensures Count(TraceOf(engines.calls, tx), PhaseTwoFault) ==
              One(machine.txs[tx].prepared && machine.txs[tx].status == RolledBack)
      ensures tx in active ==> Count(TraceOf(engines.calls, tx), PhaseTwoFault) == 0
    {
      hide Run, Count, TraceOf, Window;
      FaultsAtRest(engines.has, base, run, machine, tx);
      OpenWhileListed();
    }

    /** A transaction that a request finds in the map. */
    lemma AtHand(tx: Uuid)
      requires Valid() && tx in active
      ensures Ready(active[tx]) && OthersRest(tx) && active[tx].id == tx && machine.txs[tx].pc == Idle
    {
      hide Sync;
    }

    /** Phase 2 and whichever ending it leads to. */
    method CommitPassed(state: TxState) returns (ok: bool)
      requires Passed(state) && OthersRest(state.id) && state.id in active && active[state.id] == state
      modifies this, coordinator, log, engines, state
      ensures Valid() && old(run) <= run && active == old(active) - {state.id}
      ensures state.id in machine.txs && machine.txs[state.id].applied <= old(state.buffer)
      ensures Count(TraceOf(engines.calls, state.id), PhaseTwoFault) == One(!ok)
      ensures engines.store == Written(old(engines.store), machine.txs[state.id].applied)
      ensures machine.txs[state.id].status == if ok then Committed else RolledBack
      ensures ok ==> machine.txs[state.id].applied == if engines.has.vector then old(state.buffer) else []
      ensures machine.log == old(machine).log + if !ok then [] else
                [LogEntry(state.id, state.session, if engines.has.vector then [] else Ids(old(state.buffer)))]
    {
      hide Sync, Valid, OthersRest, Written, Count, TraceOf;
      ok := ApplyPhase2(state);
      OthersStillRest(state);
      if ok {
        Finish(state);
      } else {
        GiveUp(state);
      }
      FaultsSeen(state.id);
    }

    /** The object that a request for `tx` locks. */
    function Handle(tx: Uuid): set<TxState>
      reads this
    {
      if tx in active then {active[tx]} else {}
    }

    /** Commits `tx`: either everything below its `Ok`, or one of the errors with exactly what it leaves. */
    method CommitTx(tx: Uuid) returns (r: Result<(), TxError>)
      requires Valid()
      modifies this, coordinator, log, engines, Handle(tx)
      ensures Valid() && old(run) <= run
      ensures r == Err(NotFound) <==> tx !in old(active)
      ensures r.Err? && r.error.WrongStatus? ==> tx in old(active) && old(active[tx].status) == r.error.status != Active
      ensures r.Err? && r.error.Conflict? ==> Blocks(old(coordinator.active), r.error.with, tx, [])
      ensures tx in old(active) && old(active[tx].status) == Active ==>
                (r.Err? && r.error.Conflict? <==> Blocked(old(coordinator.active), tx, []))
      ensures r.Err? && r.error != PhaseTwoFailed ==> machine == old(machine)
      ensures r.Ok? || r.error == PhaseTwoFailed ==>
                && tx in old(active) && active == old(active) - {tx} && tx in machine.txs
                && machine.txs[tx].applied <= old(active[tx].buffer)
                && engines.store == Written(old(engines.store), machine.txs[tx].applied)
      ensures r.Ok? ==>
                && machine.txs[tx].status == Committed
                && machine.txs[tx].applied == (if engines.has.vector then old(active[tx].buffer) else [])
                && log.history == old(log.history) +
                     [LogEntry(tx, old(active[tx]).session,
                               if engines.has.vector then [] else Ids(old(active[tx].buffer)))]
      ensures r == Err(PhaseTwoFailed) ==> machine.txs[tx].status == RolledBack && log.history == old(log.history)
      ensures tx in old(active) ==>
                Count(TraceOf(engines.calls, tx), PhaseTwoFault) == One(r == Err(PhaseTwoFailed))
    {
      hide Run, Written, Ids, Blocked, Blocks, Passed, Count, TraceOf, Valid, Sync, OthersRest;
      if tx !in active {
        return Err(NotFound);
      }
      var state := active[tx];
      AtHand(tx);
      FaultsSeen(tx);
      SyncMeans();
      if state.status != Active {
        return Err(WrongStatus(state.status));
      }
      var gate := Gate(state);
      OthersStillRest(state);
      if gate.Err? {
        AllRest(state);
        return Err(Conflict(gate.error));
      }
      var ok := CommitPassed(state);
      AllOthersRest(tx);
      SyncMeans();
      r := if ok then Ok(()) else Err(PhaseTwoFailed);
    }

    method StartRollback(state: TxState)
      requires Ready(state) && machine.txs[state.id].pc == Idle && !Terminal(state.status)
      modifies this`machine, this`run, state`status
      ensures Ready(state) && OnlyChanged(state.id) && machine.store == old(machine).store
      ensures machine.txs[state.id] == old(machine).txs[state.id].(status := RollingBack, pc := UndoCore(false))
      ensures old(state.status) == RollingBack ==> !state.coreBegun && state.snapshot == None
    {
      hide Run, TraceOf, Window;
      RollingBackIsSpent(engines.has, base, run, machine, state.id);
      Step(Enter(state.id, Rollback));
      state.status := RollingBack;
    }

    /** Undoes a transaction that is already marked as rolling back. */
    method FinishRollback(state: TxState) returns (ok: bool)
      requires Ready(state) && OthersRest(state.id) && state.id in active && active[state.id] == state
      requires machine.txs[state.id].pc == UndoCore(false) && state.status == RollingBack
      modifies this, coordinator, engines, state
      ensures Valid() && old(run) <= run && state.id in machine.txs
      ensures engines.store == old(engines.store) && machine.log == old(machine).log
      ensures if ok then machine.txs[state.id].status == RolledBack && active == old(active) - {state.id}
                         && coordinator.active == old(coordinator.active) - {state.id}
              else state.status == RollingBack && active == old(active) && coordinator.active == old(coordinator.active)
      ensures old(engines.calls) <= engines.calls
      ensures Undid(NewCalls(), state.id, old(state.coreBegun) && engines.has.core, old(Restorable(state)), ok)
    {
      hide Sync, Valid, OthersRest;
      ok := DoRollback(state, false);
      OthersStillRest(state);
      if ok {
        state.status := RolledBack;
        OthersStillRest(state);
        Leave(state);
      }
      AllRest(state);
    }

    /**
     * Rolls `tx` back.  When the snapshot cannot be restored the transaction stays in both tables,
     * and the next attempt succeeds without asking the engines anything.
     */
    method RollbackTx(tx: Uuid) returns (r: Result<(), TxError>)
      requires Valid()
      modifies this, coordinator, engines, Handle(tx)
      ensures Valid() && old(run) <= run
      ensures engines.store == old(engines.store) && log.history == old(log.history)
      ensures r == Err(NotFound) <==> tx !in old(active)
      ensures r.Err? && r.error != RestoreFailed ==> machine == old(machine) && active == old(active)
      ensures r.Err? && r.error != RestoreFailed && tx in active ==> Terminal(active[tx].status)
      ensures r == Err(RestoreFailed) ==>
                && tx in active && active == old(active) && coordinator.active == old(coordinator.active)
                && active[tx].status == RollingBack
      ensures old(engines.calls) <= engines.calls
      ensures r.Ok? || r.error == RestoreFailed ==>
                && tx in old(active)
                && Undid(NewCalls(), tx, old(active[tx].coreBegun) && engines.has.core,
                         old(Restorable(active[tx])), r.Ok?)
      ensures r.Err? && r.error != RestoreFailed ==> engines.calls == old(engines.calls)
      ensures r.Ok? ==>
                && tx in machine.txs && machine.txs[tx].status == RolledBack
                && active == old(active) - {tx} && coordinator.active == old(coordinator.active) - {tx}
      ensures tx in old(active) && old(active[tx].status) == RollingBack ==>
                r.Ok? && engines.calls == old(engines.calls)
    {
      hide Run, Sync, Valid, OthersRest, Undid, TraceOf, Window, Initial, AtRest, RestoreRefused;
      if tx !in active {
        return Err(NotFound);
      }
      AtHand(tx);
      SyncMeans();
      var state := active[tx];
      if Terminal(state.status) {
        return Err(WrongStatus(state.status));
      }
      StartRollback(state);
      OthersStillRest(state);
      var ok := FinishRollback(state);
      UndidNothing(NewCalls(), tx, ok);
      AllOthersRest(tx);
      SyncMeans();
      r := if ok then Ok(()) else Err(RestoreFailed);
    }

    // ---------------------------------------------------------------- begin and buffer

    /** BEGIN on the core, when there is one. */
    method BeginCoreOf(state: TxState) returns (ok: bool)
      requires Ready(state) && machine.txs[state.id].pc == BeginCore && !state.coreBegun
      modifies this`machine, this`run, engines, state`coreBegun
      ensures Sync() && OnlyChanged(state.id) && engines.store == old(engines.store)
      ensures var t, t' := old(machine).txs[state.id], machine.txs[state.id];
              && t'.trace == t.trace + (if engines.has.core then [Event(CoreBegin, ok)] else [])
              && if ok then
                   t' == t.(coreBegun := engines.has.core, pc := BeginSnapshot, trace := t'.trace) && state.Shows(t')
                 else t'.pc == Refused && engines.has.core
    {
      hide Sync;
      ok := true;
      if engines.has.core {
        ok := Ask(state.id, CoreBegin);
        state.coreBegun := ok;
      } else {
        Skip(state.id);
      }
    }

    /** The branch snapshot; a failure to take one is not fatal. */
    method TakeSnapshot(state: TxState)
      requires Ready(state) && machine.txs[state.id].pc == BeginSnapshot && state.snapshot == None
      modifies this`machine, this`run, engines, state`snapshot
      ensures Ready(state) && OnlyChanged(state.id) && engines.store == old(engines.store)
      ensures var t, t' := old(machine).txs[state.id], machine.txs[state.id];
              && t' == t.(snapshot := t'.snapshot, pc := BeginRegister, trace := t'.trace)
              && (BeganWith(engines.has.(branch := false), t.trace, None) ==>
                    BeganWith(engines.has, t'.trace, state.snapshot))
    {
      hide Sync, Local, Issued, Moved, BeganWith;
      SnapshotStep(engines.has, machine.txs[state.id]);
      if engines.has.branch {
        var snap := engines.nextSnapshot(engines.calls);
        var ok := AskSnapshot(state.id, snap);
        state.snapshot := if ok then Some(snap) else None;
      } else {
        Skip(state.id);
      }
    }

    method AskSnapshot(tx: Uuid, snap: Uuid) returns (ok: bool)
      requires Sync() && tx in machine.txs && machine.txs[tx].pc == BeginSnapshot && engines.has.branch
      modifies this`machine, this`run, engines
      ensures Sync() && OnlyChanged(tx) && engines.store == old(engines.store)
      ensures machine.txs[tx] == Local(engines.has, old(machine).txs[tx], ok, snap)
    {
      hide Run, Moved, TraceOf, Window, Initial;
      ok := engines.Invoke(tx, SnapshotCreate(snap));
      Step(Advance(tx, ok, snap));
      StepsAlone(engines.has, old(machine), tx, ok, snap);
    }

    method Publish(state: TxState)
      requires Ready(state) && machine.txs[state.id].pc == BeginRegister
      modifies this, coordinator
      ensures Ready(state) && old(run) <= run && engines.store == old(engines.store)
      ensures var t := old(machine).txs[state.id];
              && machine.txs == old(machine).txs[state.id := t.(pc := Idle)]
              && active == old(active)[state.id := state]
              && coordinator.active == old(coordinator.active)[state.id := TxRecord(state.session, [], state.startedAt)]
      ensures machine.simples == old(machine).simples && machine.log == old(machine).log
    {
      hide Run, Sync, TraceOf, Window, Apply, Enabled, Initial;
      SyncMeans();
      RegisterStep(engines.has, machine, state.id);
      coordinator.Register(state.id, state.session, state.startedAt);
      Step(Advance(state.id, true, 0));
      InsertStep(engines.has, machine, state.id);
      active := active[state.id := state];
      Step(Advance(state.id, true, 0));
      StillSync();
    }

    lemma NewIsShown(state: TxState)
      requires state.status == Active && !state.coreBegun && state.buffer == [] && state.snapshot == None
      ensures state.Shows(NewTx(state.session, state.startedAt))
    {
    }

    ghost method StepStart(state: TxState)
      requires Sync() && state.id !in machine.txs && state.id !in machine.simples
      requires state.Shows(NewTx(state.session, state.startedAt))
      modifies this`machine, this`run
      ensures Ready(state) && old(run) <= run
      ensures machine == old(machine).(txs := old(machine).txs[state.id := NewTx(state.session, state.startedAt)])
    {
      hide Run, Sync, TraceOf, Window, Advanced, AdvancedSimple, Entered, Initial;
      SyncMeans();
      Step(Start(state.id, state.session, state.startedAt));
      StillSync();
    }

    lemma TraceIs(tx: Uuid)
      requires Valid() && tx in machine.txs
      ensures TraceOf(engines.calls, tx) == machine.txs[tx].trace
    {
      hide Run, TraceOf, Window;
    }

    /** BEGIN, snapshot, registration; the shared tables change only when BEGIN succeeds. */
    method Launch(state: TxState) returns (ok: bool)
      requires Ready(state) && OthersRest(state.id) && state.id !in active
      requires machine.txs[state.id] == NewTx(state.session, state.startedAt)
      modifies this, coordinator, engines, state
      ensures Valid() && old(run) <= run && engines.store == old(engines.store) && machine.log == old(machine).log
      ensures state.id in machine.txs
      ensures if ok then
                && active == old(active)[state.id := state] && state.status == Active && state.buffer == []
                && BeganWith(engines.has, machine.txs[state.id].trace, state.snapshot)
                && coordinator.active ==
                     old(coordinator.active)[state.id := TxRecord(state.session, [], state.startedAt)]
              else
                && active == old(active) && coordinator.active == old(coordinator.active)
                && engines.has.core && machine.txs[state.id].trace == [Event(CoreBegin, false)]
    {
      hide Run, Sync, Valid, OthersRest, NewTx;
      NewStands(state);
      ok := BeginCoreOf(state);
      if ok {
        Enlist(state);
        NewcomerRests(state);
      } else {
        OthersStillRest(state);
      }
      AllRest(state);
    }

    lemma NewStands(state: TxState)
      ensures var t := NewTx(state.session, state.startedAt);
              t.pc == BeginCore && t.status == Active && !t.coreBegun && t.snapshot == None && t.buffer == []
              && t.trace == []
    {
    }

    /** Snapshot and registration. */
    method Enlist(state: TxState)
      requires Ready(state) && machine.txs[state.id].pc == BeginSnapshot && state.snapshot == None
      modifies this, coordinator, engines, state`snapshot
      ensures Ready(state) && old(run) <= run && engines.store == old(engines.store)
      ensures machine.txs == old(machine).txs[state.id := machine.txs[state.id]] && machine.txs[state.id].pc == Idle
      ensures BeganWith(engines.has.(branch := false), old(machine).txs[state.id].trace, None) ==>
                BeganWith(engines.has, machine.txs[state.id].trace, state.snapshot)
      ensures active == old(active)[state.id := state]
      ensures coordinator.active == old(coordinator.active)[state.id := TxRecord(state.session, [], state.startedAt)]
      ensures machine.simples == old(machine).simples && machine.log == old(machine).log
    {
      hide Run, Sync;
      TakeSnapshot(state);
      Publish(state);
    }

    /** Begins a transaction under the new identifier `tx`; nothing is registered when BEGIN fails. */
    method Begin(tx: Uuid, session: Uuid, now: nat) returns (r: Result<(), TxError>)
      requires Valid() && tx !in machine.txs && tx !in machine.simples
      modifies this, coordinator, engines
      ensures Valid() && old(run) <= run
      ensures engines.store == old(engines.store) && log.history == old(log.history)
      ensures r.Err? ==>
                r.error == CoreBeginFailed && active == old(active) && coordinator.active == old(coordinator.active)
      ensures r.Ok? ==>
                && tx in active && fresh(active[tx]) && active == old(active)[tx := active[tx]]
                && active[tx].status == Active && active[tx].buffer == [] && active[tx].session == session
                && coordinator.active == old(coordinator.active)[tx := TxRecord(session, [], now)]
                && BeganWith(engines.has, TraceOf(engines.calls, tx), active[tx].snapshot)
      ensures r.Err? ==> TraceOf(engines.calls, tx) == [Event(CoreBegin, false)]
    {
      hide Run, Sync, Valid, OthersRest, NewTx, BeganWith, TraceOf;
      var state := new TxState(tx, session, now);
      AllOthersRest(tx);
      SyncMeans();
      label created:
      NewIsShown(state);
      StepStart(state);
      OthersStillRest@created(state);
      var ok := Launch(state);
      TraceIs(tx);
      r := if ok then Ok(()) else Err(CoreBeginFailed);
    }

    /** Buffers one upsert and extends the registered write set by its id. */
    method BufferVectorUpsert(tx: Uuid, op: VectorOp) returns (r: Result<(), TxError>)
      requires Valid()
      modifies this`machine, this`run, coordinator, Handle(tx)
      ensures Valid() && old(run) <= run
      ensures r == Err(NotFound) <==> tx !in active
      ensures r.Ok? <==> tx in active && old(active[tx].status) == Active
      ensures r.Err? ==> machine == old(machine)
      ensures r.Ok? ==>
                && active[tx].buffer == old(active[tx].buffer) + [op] && tx in old(coordinator.active)
                && coordinator.active == old(coordinator.active)[tx :=
                     old(coordinator.active[tx]).(writeSet := old(coordinator.active[tx].writeSet) + [op.id])]
    {
      hide Run, Sync, OthersRest, TraceOf, Window, Local, Initial;
      if tx !in active {
        return Err(NotFound);
      }
      var state := active[tx];
      if state.status != Active {
        return Err(WrongStatus(state.status));
      }
      AllOthersRest(tx);
      SyncMeans();
      state.buffer := state.buffer + [op];
      coordinator.ExtendWriteSet(tx, [op.id]);
      StepBuffer(tx, op);
      StillSync();
      OthersStillRest(state);
      AllRest(state);
      return Ok(());
    }

    ghost method StepBuffer(tx: Uuid, op: VectorOp)
      requires Run(engines.has, Initial(base), run) == Some(machine)
      requires tx in machine.txs && machine.txs[tx].pc.Idle? && machine.txs[tx].status == Active
      modifies this`machine, this`run
      ensures Run(engines.has, Initial(base), run) == Some(machine) && old(run) <= run
      ensures tx in machine.txs && tx in old(machine).registry
      ensures var t := old(machine).txs[tx];
              machine == old(machine).(
                txs := old(machine).txs[tx := t.(buffer := t.buffer + [op], buffered := t.buffered + [op])],
                registry := old(machine).registry[tx :=
                  old(machine).registry[tx].(writeSet := old(machine).registry[tx].writeSet + [op.id])])
    {
      hide Run, Local, Blocked, Apply;
      BufferRun(engines.has, machine, tx, op);
      ActiveIsRegistered(engines.has, base, run, machine, tx);
      Step(Enter(tx, Buffer(op)));
      Step(Advance(tx, true, 0));
    }

    // ---------------------------------------------------------------- simple transactions

    /** Registers `id`, which is fresh, with an empty write set. */
    method BeginSimple(id: Uuid, session: Uuid, now: nat) returns (ctx: TransactionContext)
      requires Valid() && id !in machine.txs && id !in machine.simples
      modifies this`machine, this`run, coordinator
      ensures Valid() && old(run) <= run && fresh(ctx)
      ensures ctx.id == id && ctx.session == session && ctx.status == Active && ctx.writeSet == []
      ensures coordinator.active == old(coordinator.active)[id := TxRecord(session, [], now)]
    {
      hide Run, TraceOf, Window;
      ctx := new TransactionContext(id, session);
      coordinator.Register(id, session, now);
      Step(StartSimple(id, session, now));
    }

    /** The protocol is shown the context that is about to be committed, whoever made it. */
    ghost method Present(id: Uuid, session: Uuid, writes: seq<string>)
      requires Run(engines.has, Initial(base), run) == Some(machine) && id !in machine.txs
      requires AtRest(machine)
      modifies this`machine, this`run
      ensures Run(engines.has, Initial(base), run) == Some(machine) && old(run) <= run
      ensures id in machine.simples && machine.simples[id].pc == Open
      ensures machine.simples[id].session == session && machine.simples[id].writeSet == writes
      ensures machine == old(machine).(simples := old(machine).simples[id := machine.simples[id]])
    {
      hide Run;
      if id !in machine.simples || machine.simples[id].pc.Closed? {
        Step(Reopen(id));
      }
      Step(Declare(id, session, writes));
    }

    /** The three steps of a simple commit that the gate lets pass. */
    ghost method PassSimple(id: Uuid)
      requires Run(engines.has, Initial(base), run) == Some(machine)
      requires id in machine.simples && machine.simples[id].pc == Open
      requires !Blocked(machine.registry, id, machine.simples[id].writeSet)
      modifies this`machine, this`run
      ensures Run(engines.has, Initial(base), run) == Some(machine) && old(run) <= run
      ensures var t := old(machine).simples[id];
              machine == old(machine).(
                simples := old(machine).simples[id := t.(pc := Closed)], registry := old(machine).registry - {id},
                log := old(machine).log + [LogEntry(id, t.session, t.writeSet)])
    {
      hide Run, Blocked;
      Step(AdvanceSimple(id));
      Step(AdvanceSimple(id));
      Step(AdvanceSimple(id));
    }

    /**
     * Checked against the registered write sets of all others, though its own was never registered;
     * on success it leaves the coordinator and is logged with everything that it recorded.  Status and
     * writes are what the context's owner has made them; its identifier is not that of another transaction.
     */
    method CommitSimple(ctx: TransactionContext) returns (r: Result<(), TxError>)
      requires Valid() && ctx.id !in machine.txs
      modifies this`machine, this`run, coordinator, log, ctx`status
      ensures Valid() && old(run) <= run
      ensures r.Ok? <==> old(ctx.status) == Active && !Blocked(old(coordinator.active), ctx.id, ctx.writeSet)
      ensures old(ctx.status) != Active ==> r == Err(WrongStatus(old(ctx.status)))
      ensures r.Err? && old(ctx.status) == Active ==>
                r.error.Conflict? && Blocks(coordinator.active, r.error.with, ctx.id, ctx.writeSet)
      ensures if r.Ok? then
                && ctx.status == Committed && coordinator.active == old(coordinator.active) - {ctx.id}
                && log.history == old(log.history) + [LogEntry(ctx.id, ctx.session, ctx.writeSet)]
              else ctx.status == old(ctx.status) && unchanged(coordinator) && unchanged(log)
    {
      hide Run, Sync, TraceOf, Window, Blocked, Blocks, Apply, Enabled, AtRest, Initial;
      if ctx.status != Active {
        return Err(WrongStatus(ctx.status));
      }
      SyncMeans();
      Present(ctx.id, ctx.session, ctx.writeSet);
      SimpleRests(old(machine), machine, ctx.id);
      var checked := coordinator.Prepare(ctx.id, ctx.writeSet);
      if checked.Err? {
        StillSync();
        return Err(Conflict(checked.error));
      }
      ctx.status := Committed;
      coordinator.Deregister(ctx.id);
      log.Append(LogEntry(ctx.id, ctx.session, ctx.writeSet));
      PassSimple(ctx.id);
      StillSync();
      SimpleRests(old(machine), machine, ctx.id);
      return Ok(());
    }

    // ---------------------------------------------------------------- timeouts

    function Holdings(): map<Uuid, Holding>
      reads this, active.Values
    {
      map tx | tx in active :: Holding(active[tx].status, Restorable(active[tx]))
    }

    method SweepOne(tx: Uuid) returns (gone: bool)
      requires Valid()
      modifies this, coordinator, engines, Handle(tx)
      ensures Valid() && old(run) <= run
      ensures engines.store == old(engines.store) && log.history == old(log.history)
      ensures old(engines.calls) <= engines.calls
      ensures Swept(old(Holdings()), Holdings(), {tx}, NewCalls())
      ensures active.Keys == old(active).Keys - (if gone then {tx} else {}) && (gone ==> tx in old(active))
      ensures forall o | o in active :: active[o] == old(active)[o]
    {
      hide Valid, Written, Blocked, Undid, Swept;
      OwnIds();
      var r := RollbackTx(tx);
      OpenWhileListed();
      gone := r.Ok?;
      if tx in old(active) {
        SweptOne(old(Holdings()), Holdings(), tx, old(active[tx].coreBegun) && engines.has.core, NewCalls(), gone);
      } else {
        assert NewCalls() == [] && Holdings() == old(Holdings());
        SweptNobody(Holdings(), tx);
      }
    }

    /** Tries to roll back each of `stale` in turn; `done` is the set of those tried. */
    method Sweep(stale: seq<(Uuid, Uuid)>) returns (count: nat, ghost done: set<Uuid>)
      requires Valid() && forall i, j | 0 <= i < j < |stale| :: stale[i].0 != stale[j].0
      modifies this, coordinator, engines, active.Values
      ensures Valid() && old(run) <= run
      ensures engines.store == old(engines.store) && log.history == old(log.history)
      ensures old(engines.calls) <= engines.calls
      ensures done == set j | 0 <= j < |stale| :: stale[j].0
      ensures Swept(old(Holdings()), Holdings(), done, NewCalls())
      ensures count == |old(active).Keys| - |active.Keys|
      ensures forall o | o in active :: o in old(active) && active[o] == old(active)[o]
    {
      hide Valid, Holdings, Swept;
      SweptNothing(Holdings());
      assert engines.calls[|engines.calls|..] == [];
      count, done := 0, {};
      for i := 0 to |stale|
        invariant Valid() && old(run) <= run
        invariant engines.store == old(engines.store) && log.history == old(log.history)
        invariant old(engines.calls) <= engines.calls
        invariant done == set j | 0 <= j < i :: stale[j].0
        invariant Swept(old(Holdings()), Holdings(), done, engines.calls[|old(engines.calls)|..])
        invariant count == |old(active).Keys| - |active.Keys|
        invariant forall o | o in active :: o in old(active) && active[o] == old(active)[o]
      {
        ghost var before, made := Holdings(), engines.calls;
        var gone := SweepOne(stale[i].0);
        assert made[|old(engines.calls)|..] + engines.calls[|made|..] == engines.calls[|old(engines.calls)|..];
        SweptNext(old(Holdings()), before, Holdings(), done, stale[i].0,
                  made[|old(engines.calls)|..], engines.calls[|made|..]);
        done := done + {stale[i].0};
        if gone {
          count := count + 1;
        }
      }
    }

    /** The sweep of `timeout_stale`, on what it looks at. */
    method SweepStale(now: Uuid -> nat, olderThan: nat) returns (count: nat)
      requires Valid()
      modifies this, coordinator, engines, active.Values
      ensures Valid() && old(run) <= run
      ensures engines.store == old(engines.store) && log.history == old(log.history)
      ensures old(engines.calls) <= engines.calls
      ensures forall tx | tx in active :: tx in old(active) && active[tx] == old(active)[tx]
      ensures old(active).Keys <= old(coordinator.active).Keys
      ensures TimedOut(old(Holdings()), Holdings(), old(coordinator.active), now, olderThan, NewCalls())
      ensures count == |TimedOutFor(old(Holdings()), old(coordinator.active), now, olderThan, NewCalls())|
    {
      hide Valid, Swept, Run, RestoreRefused, TimedOut, TimedOutFor, Sync, OthersRest, TraceOf, Window, Restorable;
      ListedIsRegistered();
      var stale := coordinator.StaleTransactions(now, olderThan);
      ghost var done: set<Uuid>;
      count, done := Sweep(stale);
      OpenWhileListed();
      SweptStale(old(Holdings()), Holdings(), old(coordinator.active), stale, done, now, olderThan, NewCalls());
      ThoseAreGone(old(Holdings()), Holdings(), old(coordinator.active), now, olderThan, NewCalls());
      assert Holdings().Keys == active.Keys && old(Holdings()).Keys == old(active).Keys;
    }

    /**
     * Rolls back every transaction that was open for longer than `olderThan` when its record was looked
     * at, trying each once.  The others are left alone.  An older one is still there, waiting for its
     * rollback to be retried, exactly when the restore of its snapshot was refused; the count is of
     * those that are gone.
     */
    method TimeoutStale(now: Uuid -> nat, olderThan: nat) returns (count: nat)
      requires Valid()
      modifies this, coordinator, engines, active.Values
      ensures Valid() && old(run) <= run
      ensures engines.store == old(engines.store) && log.history == old(log.history)
      ensures old(engines.calls) <= engines.calls
      ensures active.Keys <= old(active).Keys && forall tx | tx in active :: active[tx] == old(active)[tx]
      ensures old(active).Keys <= old(coordinator.active).Keys
      ensures forall tx | tx in old(active) ::
                if now(tx) - old(coordinator.active)[tx].startedAt > olderThan then
                  && (tx in active <==> RestoreRefused(NewCalls(), tx, old(Restorable(active[tx]))))
                  && (tx in active ==> active[tx].status == RollingBack)
                else tx in active && active[tx].status == old(active[tx].status)
      ensures count == |TimedOutFor(old(Holdings()), old(coordinator.active), now, olderThan, NewCalls())|
    {
      hide Valid, RestoreRefused, Restorable, TimedOutFor;
      count := SweepStale(now, olderThan);
    }

    lemma ListedIsRegistered()
      requires Valid()
      ensures active.Keys <= coordinator.active.Keys
    {
      hide Run, TraceOf, Window;
      TablesAgreeAtRest(engines.has, base, run, machine);
    }

    lemma OwnIds()
      requires Valid()
      ensures forall tx | tx in active :: active[tx].id == tx
    {
    }

    lemma OpenWhileListed()
      requires Valid()
      ensures forall tx | tx in active :: !Terminal(active[tx].status)
    {
      RunKeepsInv(engines.has, base, run);
      hide Run, AllTx, RegistryFits, WriteSetsFit, Disjoint, StoreFits, RetiredFits, LogFits, TraceOf, Window;
    }
  }

  /** What a sweep looks at: a transaction's status and the snapshot that can be restored. */
  datatype Holding = Holding(status: Status, snapshot: Option<Uuid>)

  /**
   * What a sweep over `done` does while it makes `calls`: of those in `done` exactly the ones whose
   * restore was refused stay, and these are not active any more.
   */
  predicate Swept(before: map<Uuid, Holding>, after: map<Uuid, Holding>, done: set<Uuid>, calls: seq<TaggedEvent>) {
    && after.Keys <= before.Keys
    && (forall o | o in before && o !in done :: o in after && after[o] == before[o])
    && (forall o | o in before && o in done :: o in after <==> RestoreRefused(calls, o, before[o].snapshot))
    && (forall o | o in after && o in done :: after[o].status == RollingBack || Terminal(after[o].status))
    && (forall e | e in calls :: e.tx in done)
  }

  /** After a sweep over the stale ones the others are as they were. */
  lemma SweptStale(
    before: map<Uuid, Holding>, after: map<Uuid, Holding>, registry: Registry, stale: seq<(Uuid, Uuid)>,
    done: set<Uuid>, now: Uuid -> nat, olderThan: nat, calls: seq<TaggedEvent>)
    requires before.Keys <= registry.Keys
    requires Swept(before, after, done, calls) && forall o | o in after :: !Terminal(after[o].status)
    requires done == set j | 0 <= j < |stale| :: stale[j].0
    requires forall i | 0 <= i < |stale| ::
               stale[i].0 in registry && now(stale[i].0) - registry[stale[i].0].startedAt > olderThan
    requires forall tx | tx in registry && now(tx) - registry[tx].startedAt > olderThan ::
               exists i :: 0 <= i < |stale| && stale[i].0 == tx
    ensures TimedOut(before, after, registry, now, olderThan, calls)
  {
    hide RestoreRefused;
    IsStale(registry, stale, done, now, olderThan);
  }

  /** What became of those open for longer than `olderThan`, and of the others. */
  predicate TimedOut(
    before: map<Uuid, Holding>, after: map<Uuid, Holding>, registry: Registry,
    now: Uuid -> nat, olderThan: nat, calls: seq<TaggedEvent>)
    requires before.Keys <= registry.Keys
  {
    && after.Keys <= before.Keys
    && forall tx | tx in before ::
         if now(tx) - registry[tx].startedAt > olderThan then
           && (tx in after <==> RestoreRefused(calls, tx, before[tx].snapshot))
           && (tx in after ==> after[tx].status == RollingBack)
         else tx in after && after[tx] == before[tx]
  }

  /** Those open for longer than `olderThan` whose restore was not refused. */
  function TimedOutFor(
    held: map<Uuid, Holding>, registry: Registry, now: Uuid -> nat, olderThan: nat, calls: seq<TaggedEvent>): set<Uuid>
    requires held.Keys <= registry.Keys
  {
    set tx | tx in held && now(tx) - registry[tx].startedAt > olderThan && !RestoreRefused(calls, tx, held[tx].snapshot)
  }

  lemma ThoseAreGone(
    before: map<Uuid, Holding>, after: map<Uuid, Holding>, registry: Registry,
    now: Uuid -> nat, olderThan: nat, calls: seq<TaggedEvent>)
    requires before.Keys <= registry.Keys && TimedOut(before, after, registry, now, olderThan, calls)
    ensures |TimedOutFor(before, registry, now, olderThan, calls)| == |before.Keys| - |after.Keys|
  {
    hide RestoreRefused;
    assert TimedOutFor(before, registry, now, olderThan, calls) == before.Keys - after.Keys;
    FewerBy(before.Keys, after.Keys);
  }

  lemma IsStale(registry: Registry, stale: seq<(Uuid, Uuid)>, done: set<Uuid>, now: Uuid -> nat, olderThan: nat)
    requires done == set j | 0 <= j < |stale| :: stale[j].0
    requires forall i | 0 <= i < |stale| ::
               stale[i].0 in registry && now(stale[i].0) - registry[stale[i].0].startedAt > olderThan
    requires forall tx | tx in registry && now(tx) - registry[tx].startedAt > olderThan ::
               exists i :: 0 <= i < |stale| && stale[i].0 == tx
    ensures forall tx | tx in registry :: tx in done <==> now(tx) - registry[tx].startedAt > olderThan
  {
  }

  lemma SweptOne(
    before: map<Uuid, Holding>, after: map<Uuid, Holding>, tx: Uuid, core: bool, calls: seq<TaggedEvent>, ok: bool)
    requires tx in before && Undid(calls, tx, core, before[tx].snapshot, ok)
    requires after.Keys == before.Keys - (if ok then {tx} else {})
    requires forall o | o in after && o != tx :: after[o] == before[o]
    requires !ok ==> after[tx].status == RollingBack
    ensures Swept(before, after, {tx}, calls)
  {
    hide Undid, RestoreRefused;
    UndidRefused(calls, tx, core, before[tx].snapshot, ok);
  }

  lemma SweptNobody(held: map<Uuid, Holding>, tx: Uuid)
    requires tx !in held
    ensures Swept(held, held, {tx}, [])
  {
  }

  lemma SweptNothing(held: map<Uuid, Holding>)
    ensures Swept(held, held, {}, [])
  {
  }

  lemma SweptNext(
    a: map<Uuid, Holding>, b: map<Uuid, Holding>, c: map<Uuid, Holding>, done: set<Uuid>, tx: Uuid,
    first: seq<TaggedEvent>, second: seq<TaggedEvent>)
    requires Swept(a, b, done, first) && Swept(b, c, {tx}, second) && tx !in done
    ensures Swept(a, c, done + {tx}, first + second)
  {
    forall o | o in a && o in done + {tx}
      ensures o in c <==> RestoreRefused(first + second, o, a[o].snapshot)
    {
      RefusedInBoth(first, second, o, a[o].snapshot);
      if o == tx {
        RefusedByOwn(first, o, a[o].snapshot);
      } else {
        RefusedByOwn(second, o, a[o].snapshot);
      }
    }
  }

  lemma RefusedInBoth(first: seq<TaggedEvent>, second: seq<TaggedEvent>, tx: Uuid, snapshot: Option<Uuid>)
    ensures RestoreRefused(first + second, tx, snapshot)
       <==> RestoreRefused(first, tx, snapshot) || RestoreRefused(second, tx, snapshot)
  {
  }

  lemma RefusedByOwn(calls: seq<TaggedEvent>, tx: Uuid, snapshot: Option<Uuid>)
    requires forall e | e in calls :: e.tx != tx
    ensures !RestoreRefused(calls, tx, snapshot)
  {
  }

  lemma FewerBy<T>(a: set<T>, b: set<T>)
    requires b <= a
    ensures |a - b| == |a| - |b|
  {
    assert a == b + (a - b);
  }

  /** The two steps that buffer an operation. */
  lemma BufferRun(c: Engines, s: State, tx: Uuid, op: VectorOp)
    requires tx in s.txs && s.txs[tx].pc.Idle? && s.txs[tx].status == Active
    ensures var t := s.txs[tx].(buffer := s.txs[tx].buffer + [op], buffered := s.txs[tx].buffered + [op]);
            var entered := s.(txs := s.txs[tx := t.(pc := Extend(op.id))]);
            && Apply(c, s, Enter(tx, Buffer(op))) == entered && Enabled(entered, Advance(tx, true, 0))
            && Apply(c, entered, Advance(tx, true, 0)) == s.(
                 txs := s.txs[tx := t],
                 registry := if tx in s.registry
                             then s.registry[tx := s.registry[tx].(writeSet := s.registry[tx].writeSet + [op.id])]
                             else s.registry)
  {
    hide Blocked;
    var t := s.txs[tx].(buffer := s.txs[tx].buffer + [op], buffered := s.txs[tx].buffered + [op]);
    assert t.trace + [] == t.trace;
    assert Local(c, t.(pc := Extend(op.id)), true, 0) == t;
  }

  lemma ActiveIsRegistered(c: Engines, base: Store, run: seq<Label>, s: State, tx: Uuid)
    requires Run(c, Initial(base), run) == Some(s) && tx in s.txs && s.txs[tx].pc.Idle? && s.txs[tx].status == Active
    ensures tx in s.registry
  {
    hide Run, Inv, AllTx, LogFits, MapFits, WriteSetsFit;
    ReachedIsSound(c, base, run, s);
  }

  /** A transaction whose rollback failed has nothing left to undo. */
  lemma RollingBackIsSpent(c: Engines, base: Store, run: seq<Label>, s: State, tx: Uuid)
    requires Run(c, Initial(base), run) == Some(s) && tx in s.txs && s.txs[tx].pc.Idle?
    ensures s.txs[tx].status == RollingBack ==> !s.txs[tx].coreBegun && s.txs[tx].snapshot == None
  {
    hide Run, Inv, AllTx, Tables, LogFits, Accounted;
    ReachedIsSound(c, base, run, s);
    assert TxInv(c, s.txs[tx]);
  }

  /** `tx` past the gate, its buffer about to be applied when there is a vector engine. */
  function GatedState(c: Engines, s: State, tx: Uuid): State
    requires tx in s.txs
  {
    var t := s.txs[tx];
    s.(txs := s.txs[tx := t.(status := Committing, prepared := true, buffer := if c.vector then [] else t.buffer,
                             pc := Upsert(if c.vector then t.buffer else []))])
  }

  lemma GatedMeans(c: Engines, s: State, tx: Uuid)
    requires tx in s.txs
    ensures var t, t' := s.txs[tx], GatedState(c, s, tx).txs[tx];
            && GatedState(c, s, tx) == s.(txs := s.txs[tx := t'])
            && t' == t.(status := Committing, prepared := true, buffer := if c.vector then [] else t.buffer,
                        pc := Upsert(if c.vector then t.buffer else []))
  {
  }

  /** A commit's first two steps: back to where it was when blocked, into phase 2 otherwise. */
  lemma GateRun(c: Engines, s: State, tx: Uuid)
    requires tx in s.txs && s.txs[tx].pc.Idle? && s.txs[tx].status == Active
    ensures var t := s.txs[tx];
            var entered := s.(txs := s.txs[tx := t.(pc := Prepare)]);
            && Apply(c, s, Enter(tx, Commit)) == entered
            && Advanced(c, entered, tx, true, 0) ==
               if Blocked(s.registry, tx, []) then s else GatedState(c, s, tx)
  {
    hide Blocked;
    assert s.txs[tx := s.txs[tx].(pc := Prepare)][tx := s.txs[tx]] == s.txs;
  }

  lemma ActiveHasOnlyBuffered(c: Engines, base: Store, run: seq<Label>, s: State, tx: Uuid)
    requires Run(c, Initial(base), run) == Some(s) && tx in s.txs && s.txs[tx].status == Active
    ensures s.txs[tx].applied == [] && s.txs[tx].buffered == s.txs[tx].buffer
  {
    hide Run, Inv, AllTx, Tables, LogFits, Traced;
    ReachedIsSound(c, base, run, s);
    assert TxInv(c, s.txs[tx]);
  }

  lemma WrittenNothing(store: Store)
    ensures Written(store, []) == store
  {
  }

  lemma TakeOne(store: Store, ops: seq<VectorOp>, i: nat)
    requires i < |ops|
    ensures ops[i..] == [ops[i]] + ops[i + 1..]
    ensures ops[..i] + [ops[i]] == ops[..i + 1]
    ensures Written(store, ops[..i + 1]) == Upserted(Written(store, ops[..i]), ops[i])
  {
    assert ops[..i + 1][..i] == ops[..i];
  }

  // The protocol's step at each program counter of a commit and of a rollback, spelled out.

  lemma LocalUpsert(c: Engines, t: Tx)
    requires t.pc.Upsert?
    ensures t.pc.rest == [] ==> forall ok :: Local(c, t, ok, 0) == t.(pc := CommitCore)
    ensures t.pc.rest != [] ==>
              var op := t.pc.rest[0];
              && Local(c, t, true, 0) == t.(applied := t.applied + [op], pc := Upsert(t.pc.rest[1..]),
                                            trace := t.trace + [Event(VectorUpsert(op), true)])
              && Local(c, t, false, 0) == t.(status := RollingBack, pc := UndoCore(true),
                                             trace := t.trace + [Event(VectorUpsert(op), false)])
  {
    assert t.trace + [] == t.trace;
  }

  // The steps at which a transaction enters and leaves the shared tables.

  lemma RegisterStep(c: Engines, s: State, tx: Uuid)
    requires tx in s.txs && s.txs[tx].pc.BeginRegister?
    ensures Enabled(s, Advance(tx, true, 0))
    ensures var t := s.txs[tx];
            Apply(c, s, Advance(tx, true, 0)) == s.(
              txs := s.txs[tx := t.(pc := BeginInsert)],
              registry := s.registry[tx := TxRecord(t.session, [], t.startedAt)])
  {
    hide Blocked;
    assert s.txs[tx].trace + [] == s.txs[tx].trace;
  }

  lemma InsertStep(c: Engines, s: State, tx: Uuid)
    requires tx in s.txs && s.txs[tx].pc.BeginInsert?
    ensures Enabled(s, Advance(tx, true, 0))
    ensures Apply(c, s, Advance(tx, true, 0)) == s.(
              txs := s.txs[tx := s.txs[tx].(pc := Idle)], active := s.active + {tx})
  {
    hide Blocked;
    assert s.txs[tx].trace + [] == s.txs[tx].trace;
  }

  lemma DeregisterStep(c: Engines, s: State, tx: Uuid)
    requires tx in s.txs && s.txs[tx].pc.Deregister?
    ensures Enabled(s, Advance(tx, true, 0))
    ensures Apply(c, s, Advance(tx, true, 0)) == s.(
              txs := s.txs[tx := s.txs[tx].(pc := Remove)], registry := s.registry - {tx},
              retired := s.retired + [Retired(tx, s.txs[tx].applied)])
  {
    hide Blocked;
    assert s.txs[tx].trace + [] == s.txs[tx].trace;
  }

  lemma RemoveStep(c: Engines, s: State, tx: Uuid)
    requires tx in s.txs && s.txs[tx].pc.Remove?
    ensures Enabled(s, Advance(tx, true, 0))
    ensures var t := s.txs[tx];
            Apply(c, s, Advance(tx, true, 0)) == s.(
              txs := s.txs[tx := t.(pc := if t.status == Committed then AppendLog else Idle)],
              active := s.active - {tx})
  {
    hide Blocked;
    assert s.txs[tx].trace + [] == s.txs[tx].trace;
  }

  lemma AppendStep(c: Engines, s: State, tx: Uuid)
    requires tx in s.txs && s.txs[tx].pc.AppendLog?
    ensures Enabled(s, Advance(tx, true, 0))
    ensures var t := s.txs[tx];
            Apply(c, s, Advance(tx, true, 0)) == s.(
              txs := s.txs[tx := t.(pc := Idle)], log := s.log + [LogEntry(tx, t.session, Ids(t.buffer))])
  {
    hide Blocked, Ids;
    assert s.txs[tx].trace + [] == s.txs[tx].trace;
  }

  /** The program counters whose step leaves the shared tables alone. */
  predicate Alone(pc: Pc) {
    match pc
    case BeginCore | BeginSnapshot | CommitCore | DropSnapshot | UndoCore(_) | UndoSnapshot(_) => true
    case Upsert(rest) => rest == []
    case _ => false
  }

  lemma StepsAlone(c: Engines, s: State, tx: Uuid, ok: bool, snap: Uuid)
    requires tx in s.txs && Alone(s.txs[tx].pc)
    ensures Advanced(c, s, tx, ok, snap) == s.(txs := s.txs[tx := Local(c, s.txs[tx], ok, snap)])
  {
    hide Local;
  }

  /** Only the simple transaction `id` has changed, and it is open or closed. */
  lemma SimpleRests(before: State, after: State, id: Uuid)
    requires AtRest(before) && after.txs == before.txs && id in after.simples
    requires after.simples == before.simples[id := after.simples[id]]
    requires after.simples[id].pc.Open? || after.simples[id].pc.Closed?
    ensures AtRest(after)
  {
  }
}
