/** The guarantees of the two-phase-commit protocol, for every run and every failure pattern. */
module TxTheorems {
  import opened Wrappers
  import opened TxTypes
  import opened Coordinator
  import opened TxProtocol
  import opened TxTrace
  import opened TxInvariant
  import opened TxSafety

  ghost predicate Reached(c: Engines, base: Store, labels: seq<Label>, s: State) {
    Run(c, Initial(base), labels) == Some(s)
  }

  /** What every reached state satisfies, part by part. */
  lemma ReachedIsSound(c: Engines, base: Store, labels: seq<Label>, s: State)
    requires Reached(c, base, labels, s)
    ensures AllTx(c, s) && Tables(s) && LogFits(s)
    ensures forall tx | tx in s.txs :: TxInv(c, s.txs[tx])
  {
    RunKeepsInv(c, base, labels);
    InvGivesTx(c, base, s);
    hide Inv, Tables, TxInv, LogFits, Run;
  }

  lemma InvGivesTx(c: Engines, base: Store, s: State)
    requires Inv(c, base, s)
    ensures AllTx(c, s) && Tables(s) && LogFits(s)
  {
    hide AllTx, Tables, LogFits;
  }

  // ---------------------------------------------------------------- concurrency

  /** Two transactions that are both past `prepare` and still registered never write the same record. */
  lemma ConcurrentCommitsAreDisjoint(c: Engines, base: Store, labels: seq<Label>, s: State, a: Uuid, b: Uuid)
    requires Reached(c, base, labels, s)
    requires a in s.txs && b in s.txs && a != b && InFlight(s.txs[a]) && InFlight(s.txs[b])
    ensures a in s.registry && b in s.registry && !Overlap(s.registry[a].writeSet, s.registry[b].writeSet)
  {
    RunKeepsInv(c, base, labels);
    InFlightIsFrozen(c, s, a);
    InFlightIsFrozen(c, s, b);
  }

  lemma InFlightIsFrozen(c: Engines, s: State, tx: Uuid)
    requires AllTx(c, s) && Tables(s) && tx in s.txs && InFlight(s.txs[tx])
    ensures tx in s.registry && s.registry[tx].writeSet == Ids(s.txs[tx].buffered)
  {
    hide Traced;
    assert TxInv(c, s.txs[tx]);
    assert s.registry[tx].writeSet + Unextended(s.txs[tx]) == s.registry[tx].writeSet;
  }

  /**
   * Interleaved commits are serialisable on the vector store: whenever nobody is between `prepare`
   * and deregistration, the store is what the transactions would have left had each applied its
   * upserts alone, in the order in which they left the coordinator.  Failed commits are part of that
   * order, with the upserts they had applied: these are never taken back.
   */
  lemma VectorWritesAreSerialisable(c: Engines, base: Store, labels: seq<Label>, s: State)
    requires Reached(c, base, labels, s)
    requires forall tx | tx in s.txs :: !InFlight(s.txs[tx])
    ensures s.store == Serial(base, s.retired)
    ensures RetiredFits(s)
  {
    RunKeepsInv(c, base, labels);
    hide Run, AllTx, Tables, RetiredFits, LogFits, Disjoint, Serial;
    forall k
      ensures k in s.store <==> k in Serial(base, s.retired)
      ensures k in s.store ==> s.store[k] == Serial(base, s.retired)[k]
    {
      assert Untouched(s, k) && SameAt(s.store, Serial(base, s.retired), k);
    }
  }

  /** While `tx` is between `prepare` and deregistration, nobody overwrites what it has applied. */
  lemma NobodyOverwrites(c: Engines, base: Store, labels: seq<Label>, s: State, tx: Uuid, k: Key)
    requires Reached(c, base, labels, s)
    requires tx in s.txs && InFlight(s.txs[tx]) && k in Effect(s.txs[tx].applied)
    ensures k in s.store && s.store[k] == Effect(s.txs[tx].applied)[k]
  {
    RunKeepsInv(c, base, labels);
  }

  // ---------------------------------------------------------------- one transaction's calls

  /** Every transaction's engine calls follow the order that the monitor accepts. */
  lemma CallsFollowTheProtocol(c: Engines, base: Store, labels: seq<Label>, s: State, tx: Uuid)
    requires Reached(c, base, labels, s) && tx in s.txs
    ensures Watch(c, s.txs[tx].trace).Seen?
  {
    hide Inv, Run, AllTx, Tables, LogFits;
    ReachedIsSound(c, base, labels, s);
    assert TxInv(c, s.txs[tx]);
  }

  /** No run commits and undoes the same transaction, and a snapshot is used up at most once. */
  lemma CommitExcludesUndo(c: Engines, base: Store, labels: seq<Label>, s: State, tx: Uuid)
    requires Reached(c, base, labels, s) && tx in s.txs
    ensures var trace := s.txs[tx].trace;
            && Count(trace, CoreCommitOk) + Count(trace, CoreRolledBackAt) <= 1
            && Count(trace, CoreCommitOk) + Count(trace, SnapshotReturned) <= 1
            && Count(trace, CoreCommitOk) + Count(trace, PhaseTwoFault) <= 1
            && Count(trace, SnapshotTaken) ==
                 Count(trace, SnapshotDropped) + Count(trace, SnapshotReturned) + One(s.txs[tx].snapshot.Some?)
            && Count(trace, SnapshotTaken) <= 1
            && (c.core ==> Count(trace, SnapshotDropped) <= Count(trace, CoreCommitOk))
            && (c.core ==> Count(trace, SnapshotReturned) <= Count(trace, CoreRolledBackAt))
  {
    hide Inv, Run, Watch, Count, AllTx, Tables, LogFits;
    ReachedIsSound(c, base, labels, s);
    CallsFollowTheProtocol(c, base, labels, s, tx);
    MonitorCounts(c, s.txs[tx].trace);
    assert TxInv(c, s.txs[tx]);
  }

  /**
   * A committed transaction: the core is committed, every upsert that was tried succeeded, and the
   * upserted operations followed by those still in the buffer are the buffered ones, in order.
   */
  lemma CommittedMeans(c: Engines, base: Store, labels: seq<Label>, s: State, tx: Uuid)
    requires Reached(c, base, labels, s) && tx in s.txs && s.txs[tx].status == Committed
    ensures var t := s.txs[tx];
            && Upserts(t.trace) + t.buffer == t.buffered
            && (if c.vector then t.buffer == [] else Upserts(t.trace) == [])
            && Count(t.trace, CoreCommitOk) == One(c.core)
            && Count(t.trace, PhaseTwoFault) == 0
            && t.snapshot == None
  {
    hide Inv, Run, Watch, Count, AllTx, Tables, LogFits;
    ReachedIsSound(c, base, labels, s);
    CallsFollowTheProtocol(c, base, labels, s, tx);
    MonitorCounts(c, s.txs[tx].trace);
    assert TxInv(c, s.txs[tx]);
    assert s.txs[tx].applied + [] == s.txs[tx].applied;
  }

  /** An undone transaction: the core is not committed, and a prefix of the buffer reached the vector store. */
  lemma RolledBackMeans(c: Engines, base: Store, labels: seq<Label>, s: State, tx: Uuid)
    requires Reached(c, base, labels, s) && tx in s.txs
    requires s.txs[tx].status == RolledBack || s.txs[tx].status == RollingBack
    ensures var t := s.txs[tx];
            && Count(t.trace, CoreCommitOk) == 0
            && Upserts(t.trace) <= t.buffered
            && (Count(t.trace, PhaseTwoFault) == 0 && !t.prepared ==> Upserts(t.trace) == [])
            && (t.status == RolledBack ==> Count(t.trace, CoreRolledBackAt) == One(c.core))
            && !Logged(s.log, tx)
  {
    hide Inv, Run, Watch, Count, AllTx, Tables, LogFits, Logged;
    ReachedIsSound(c, base, labels, s);
    CallsFollowTheProtocol(c, base, labels, s, tx);
    MonitorCounts(c, s.txs[tx].trace);
    assert TxInv(c, s.txs[tx]);
    LoggedMeansFinished(s, tx);
  }

  /**
   * Every begin asks the branch engine for a snapshot, once, when there is such an engine.  A snapshot
   * that was taken is handed back exactly once: to be deleted by a commit, to be restored by an undoing.
   */
  lemma SnapshotIsTakenAndUsed(c: Engines, base: Store, labels: seq<Label>, s: State, tx: Uuid)
    requires Reached(c, base, labels, s) && tx in s.txs && !Opening(s.txs[tx]) && !s.txs[tx].pc.Refused?
    ensures var t := s.txs[tx];
            var taken := Count(t.trace, SnapshotTaken);
            && Count(t.trace, SnapshotAsked) == One(c.branch)
            && (t.status == Active ==>
                  t.snapshot.Some? == (taken == 1)
                  && Count(t.trace, SnapshotDropped) == 0 && Count(t.trace, SnapshotReturned) == 0)
            && (t.status == Committed ==>
                  Count(t.trace, SnapshotDropped) == taken && Count(t.trace, SnapshotReturned) == 0)
            && (t.status == RolledBack || (t.status == RollingBack && t.pc.Idle?) ==>
                  Count(t.trace, SnapshotReturned) == taken && Count(t.trace, SnapshotDropped) == 0)
  {
    hide Inv, Run, Watch, Count, AllTx, Tables, LogFits;
    ReachedIsSound(c, base, labels, s);
    CallsFollowTheProtocol(c, base, labels, s, tx);
    MonitorCounts(c, s.txs[tx].trace);
    assert TxInv(c, s.txs[tx]);
  }

  /**
   * Phase 2 is undone exactly when a call of it has failed: a transaction that has passed the gate is
   * rolled back, or about to be, if and only if one upsert or its COMMIT was refused.
   */
  lemma PhaseTwoFailsExactlyWhen(c: Engines, base: Store, labels: seq<Label>, s: State, tx: Uuid)
    requires Reached(c, base, labels, s) && tx in s.txs
    ensures var t := s.txs[tx];
            && (t.prepared && (t.status == RollingBack || t.status == RolledBack)
                <==> Count(t.trace, PhaseTwoFault) == 1)
            && Count(t.trace, PhaseTwoFault) <= 1
  {
    hide Inv, Run, Watch, Count, AllTx, Tables, LogFits;
    ReachedIsSound(c, base, labels, s);
    CallsFollowTheProtocol(c, base, labels, s, tx);
    MonitorCounts(c, s.txs[tx].trace);
    assert TxInv(c, s.txs[tx]);
  }

  /** Once no request is under way, exactly the transactions undone by a failed commit have had such a call. */
  lemma FaultsAtRest(c: Engines, base: Store, labels: seq<Label>, s: State, tx: Uuid)
    requires Reached(c, base, labels, s) && tx in s.txs && (s.txs[tx].pc.Idle? || s.txs[tx].pc.Refused?)
    ensures Count(s.txs[tx].trace, PhaseTwoFault) == One(s.txs[tx].prepared && s.txs[tx].status == RolledBack)
  {
    hide Inv, Run, Watch, Count, AllTx, Tables, LogFits;
    ReachedIsSound(c, base, labels, s);
    PhaseTwoFailsExactlyWhen(c, base, labels, s, tx);
    assert TxInv(c, s.txs[tx]);
  }

  lemma LoggedMeansFinished(s: State, tx: Uuid)
    requires LogFits(s) && Tables(s) && tx in s.txs
    ensures Logged(s.log, tx) ==> s.txs[tx].status == Committed && s.txs[tx].pc.Idle?
    ensures s.txs[tx].status == Committed && s.txs[tx].pc.Idle? ==> Logged(s.log, tx)
    ensures forall i, j | 0 <= i < j < |s.log| :: !(s.log[i].tx == tx == s.log[j].tx)
    ensures forall i | 0 <= i < |s.log| && s.log[i].tx == tx :: s.log[i].writeSet == Ids(s.txs[tx].buffer)
  {
    hide MapFits, WriteSetsFit, Registered, Enrolled, Ids;
    assert tx !in s.simples;
    assert Finished(s, tx) <==> s.txs[tx].status == Committed && s.txs[tx].pc.Idle?;
    assert forall i | 0 <= i < |s.log| :: Recorded(s, s.log[i]);
  }

  /** The log holds one entry for each transaction whose commit has returned, listing what was not upserted. */
  lemma LoggedExactlyOnce(c: Engines, base: Store, labels: seq<Label>, s: State, tx: Uuid)
    requires Reached(c, base, labels, s) && tx in s.txs && s.txs[tx].pc.Idle?
    ensures Logged(s.log, tx) <==> s.txs[tx].status == Committed
    ensures forall i, j | 0 <= i < j < |s.log| :: !(s.log[i].tx == tx == s.log[j].tx)
    ensures forall i | 0 <= i < |s.log| && s.log[i].tx == tx ::
              Ids(Upserts(s.txs[tx].trace)) + s.log[i].writeSet == Ids(s.txs[tx].buffered)
  {
    hide Inv, Run, AllTx, Tables, LogFits, Upserts, Count;
    ReachedIsSound(c, base, labels, s);
    LoggedMeansFinished(s, tx);
    if s.txs[tx].status == Committed {
      CommittedMeans(c, base, labels, s, tx);
      var t := s.txs[tx];
      IdsOfBoth(Upserts(t.trace), t.buffer);
    }
    hide Ids;
  }

  lemma IdsOfBoth(a: seq<VectorOp>, b: seq<VectorOp>)
    ensures Ids(a + b) == Ids(a) + Ids(b)
  {
  }

  /** The entry lists what the transaction wrote exactly when there was no engine to write it to, or nothing. */
  lemma LogListsTheWritesExactlyWhen(c: Engines, base: Store, labels: seq<Label>, s: State, tx: Uuid, i: nat)
    requires Reached(c, base, labels, s) && tx in s.txs && s.txs[tx].pc.Idle? && i < |s.log| && s.log[i].tx == tx
    ensures s.log[i].writeSet == Ids(s.txs[tx].buffered) <==> !c.vector || s.txs[tx].buffered == []
  {
    hide Run, Inv, Ids, Upserts, Count;
    LoggedExactlyOnce(c, base, labels, s, tx);
    assert Logged(s.log, tx);
    CommittedMeans(c, base, labels, s, tx);
    var t := s.txs[tx];
    assert |Ids(Upserts(t.trace)) + s.log[i].writeSet| == |Ids(t.buffered)|;
    assert Upserts(t.trace) == [] ==> Ids([]) + s.log[i].writeSet == s.log[i].writeSet;
  }

  // ---------------------------------------------------------------- status

  function Rank(status: Status): nat {
    match status
    case Active => 0
    case Committing => 1
    case RollingBack => 2
    case Committed | RolledBack => 3
  }

  predicate Forward(before: Status, after: Status) {
    Rank(before) <= Rank(after) && (Terminal(before) ==> after == before)
  }

  lemma StepMovesForward(c: Engines, s: State, l: Label, tx: Uuid)
    requires AllTx(c, s) && Enabled(s, l) && tx in s.txs
    ensures tx in Apply(c, s, l).txs && Forward(s.txs[tx].status, Apply(c, s, l).txs[tx].status)
  {
    hide TxInv, AdvancedSimple, Issued, Blocked;
    match l
    case Advance(t, ok, snap) => NextMovesForward(c, s.txs[t], Blocked(s.registry, t, []), ok, snap);
    case _ =>
  }

  lemma NextMovesForward(c: Engines, t: Tx, blocked: bool, ok: bool, snap: Uuid)
    requires TxInv(c, t) && !t.pc.Idle? && !t.pc.Refused?
    ensures Forward(t.status, Next(c, t, blocked, ok, snap).status)
  {
    hide Traced, Accounted, Issued;
  }

  /** Along a run no transaction is ever forgotten and no status moves backwards. */
  lemma {:induction false} StatusMovesForward(
    c: Engines, base: Store, labels: seq<Label>, s: State, more: seq<Label>, s': State, tx: Uuid)
    requires Reached(c, base, labels, s) && Reached(c, base, labels + more, s') && tx in s.txs
    ensures tx in s'.txs && Forward(s.txs[tx].status, s'.txs[tx].status)
  {
    hide Inv, Enabled, Apply, Forward;
    if more == [] {
      assert labels + more == labels;
      assert Forward(s.txs[tx].status, s.txs[tx].status) by { ForwardIsReflexive(s.txs[tx].status); }
    } else {
      var fewer, l := more[..|more| - 1], more[|more| - 1];
      assert (labels + more)[..|labels + more| - 1] == labels + fewer;
      var mid := Run(c, Initial(base), labels + fewer).value;
      StatusMovesForward(c, base, labels, s, fewer, mid, tx);
      RunKeepsInv(c, base, labels + fewer);
      InvGivesTx(c, base, mid);
      StepMovesForward(c, mid, l, tx);
      ForwardIsTransitive(s.txs[tx].status, mid.txs[tx].status, s'.txs[tx].status);
    }
  }

  lemma ForwardIsReflexive(a: Status)
    ensures Forward(a, a)
  {
  }

  lemma ForwardIsTransitive(a: Status, b: Status, d: Status)
    requires Forward(a, b) && Forward(b, d)
    ensures Forward(a, d)
  {
  }

  // ---------------------------------------------------------------- who can block whom

  /**
   * A transaction opened with `begin_simple` never blocks anybody, whatever it has written: its
   * registered write set stays empty, so conflicts with it are found from its own side only.
   */
  lemma SimpleBlocksNobody(
    c: Engines, base: Store, labels: seq<Label>, s: State, simple: Uuid, tx: Uuid, additional: seq<string>)
    requires Reached(c, base, labels, s) && simple in s.simples
    ensures !Blocks(s.registry, simple, tx, additional)
  {
    hide Inv, Run, AllTx, LogFits, MapFits, RegistryFits, Unextended, Ids, Blocks;
    ReachedIsSound(c, base, labels, s);
    if simple in s.registry {
      EmptyWriteSetNeverBlocks(s.registry, simple, tx, additional);
    } else {
      assert !Blocks(s.registry, simple, tx, additional) by { AbsentNeverBlocks(s.registry, simple, tx, additional); }
    }
  }

  lemma AbsentNeverBlocks(registry: Registry, absent: Uuid, tx: Uuid, additional: seq<string>)
    requires absent !in registry
    ensures !Blocks(registry, absent, tx, additional)
  {
  }

  /** Once every other two-phase transaction has left the coordinator, nothing blocks the last one. */
  lemma LastOneIsFree(c: Engines, base: Store, labels: seq<Label>, s: State, tx: Uuid, additional: seq<string>)
    requires Reached(c, base, labels, s)
    requires forall other | other in s.registry && other != tx :: other !in s.txs
    ensures !Blocked(s.registry, tx, additional)
  {
    hide Inv, Run, AllTx, LogFits, MapFits, WriteSetsFit, Blocks;
    ReachedIsSound(c, base, labels, s);
    forall other | other in s.registry
      ensures !Blocks(s.registry, other, tx, additional)
    {
      if other == tx {
        assert !Blocks(s.registry, other, tx, additional) by { NobodyBlocksItself(s.registry, tx, additional); }
      } else {
        assert other in s.simples;
        SimpleBlocksNobody(c, base, labels, s, other, tx, additional);
      }
    }
  }

  lemma NobodyBlocksItself(registry: Registry, tx: Uuid, additional: seq<string>)
    ensures !Blocks(registry, tx, tx, additional)
  {
  }

  // ---------------------------------------------------------------- the tables at rest

  /** Nobody is in the middle of a request. */
  predicate AtRest(s: State) {
    && (forall tx | tx in s.txs :: s.txs[tx].pc.Idle? || s.txs[tx].pc.Refused?)
    && (forall tx | tx in s.simples :: s.simples[tx].pc.Open? || s.simples[tx].pc.Closed?)
  }

  /** At rest the coordinator knows exactly the manager's transactions and the open simple ones. */
  lemma TablesAgreeAtRest(c: Engines, base: Store, labels: seq<Label>, s: State)
    requires Reached(c, base, labels, s) && AtRest(s)
    ensures forall tx :: tx in s.registry <==>
              tx in s.active || (tx in s.simples && s.simples[tx].registered && s.simples[tx].pc.Open?)
  {
    hide Inv, Run, AllTx, LogFits, Tables, AtRest;
    ReachedIsSound(c, base, labels, s);
    TablesAgree(s);
  }

  lemma TablesAgree(s: State)
    requires Tables(s) && AtRest(s)
    ensures forall tx :: tx in s.registry <==>
              tx in s.active || (tx in s.simples && s.simples[tx].registered && s.simples[tx].pc.Open?)
  {
    hide WriteSetsFit;
  }

  /**
   * The coordinator holds, for every transaction whose lock is free, the ids of all it buffered, in
   * buffering order; while it is active these are the ids of its buffer.
   */
  lemma WriteSetIsBuffer(c: Engines, base: Store, labels: seq<Label>, s: State, tx: Uuid)
    requires Reached(c, base, labels, s)
    requires tx in s.active && tx in s.txs && s.txs[tx].pc.Idle?
    ensures tx in s.registry && s.registry[tx].writeSet == Ids(s.txs[tx].buffered)
    ensures s.txs[tx].status == Active ==> s.registry[tx].writeSet == Ids(s.txs[tx].buffer)
  {
    hide Inv, Run, AllTx, LogFits, RegistryFits, WriteSetsFit, Ids;
    ReachedIsSound(c, base, labels, s);
    RestingWrites(c, s, tx);
  }

  lemma RestingWrites(c: Engines, s: State, tx: Uuid)
    requires AllTx(c, s) && Tables(s) && tx in s.txs && s.txs[tx].pc.Idle? && Registered(s.txs[tx])
    ensures tx in s.registry && s.registry[tx].writeSet == Ids(s.txs[tx].buffered)
    ensures s.txs[tx].status == Active ==> s.registry[tx].writeSet == Ids(s.txs[tx].buffer)
  {
    hide Traced;
    assert TxInv(c, s.txs[tx]);
    assert s.registry[tx].writeSet + Unextended(s.txs[tx]) == s.registry[tx].writeSet;
  }

  /** A handle whose transaction has left the map is of no effect: every request leaves its record alone. */
  lemma StaleHandleIsInert(c: Engines, base: Store, labels: seq<Label>, s: State, tx: Uuid, request: Request)
    requires Reached(c, base, labels, s)
    requires tx in s.txs && tx !in s.active && s.txs[tx].pc.Idle?
    ensures Apply(c, s, Enter(tx, request)) == s
  {
    hide Inv, Run, AllTx, LogFits, Tables, Entered;
    ReachedIsSound(c, base, labels, s);
    UnlistedRefuses(s, tx, request);
    assert s.txs[tx := s.txs[tx]] == s.txs;
  }

  lemma UnlistedRefuses(s: State, tx: Uuid, request: Request)
    requires Tables(s) && tx in s.txs && tx !in s.active && s.txs[tx].pc.Idle?
    ensures Entered(s.txs[tx], request) == s.txs[tx]
  {
    hide WriteSetsFit, RegistryFits;
    assert !Listed(s.txs[tx]);
  }

  // ---------------------------------------------------------------- a rollback that failed

  /**
   * After a failed snapshot restore the transaction refuses commits and writes, and still blocks
   * everybody whose write set meets what it had buffered.
   */
  lemma FailedRollbackStillBlocks(
    c: Engines, base: Store, labels: seq<Label>, s: State, tx: Uuid, other: Uuid, op: VectorOp)
    requires Reached(c, base, labels, s)
    requires tx in s.txs && s.txs[tx].pc.Idle? && s.txs[tx].status == RollingBack
    requires other in s.registry && other != tx && Overlap(s.registry[other].writeSet, Ids(s.txs[tx].buffered))
    ensures Entered(s.txs[tx], Commit) == s.txs[tx] && Entered(s.txs[tx], Buffer(op)) == s.txs[tx]
    ensures Blocks(s.registry, tx, other, [])
  {
    hide Inv, Run, AllTx, LogFits, Tables, Entered, Ids, Blocks, Registered;
    ReachedIsSound(c, base, labels, s);
    RollingBackRefuses(s.txs[tx], op);
    RestingWrites(c, s, tx);
    OverlapBlocks(s.registry, tx, other);
  }

  lemma OverlapBlocks(registry: Registry, tx: Uuid, other: Uuid)
    requires tx in registry && other in registry && tx != other
    requires Overlap(registry[other].writeSet, registry[tx].writeSet)
    ensures Blocks(registry, tx, other, [])
  {
    assert registry[other].writeSet + [] == registry[other].writeSet;
  }

  lemma RollingBackRefuses(t: Tx, op: VectorOp)
    requires t.status == RollingBack
    ensures Entered(t, Commit) == t && Entered(t, Buffer(op)) == t
    ensures t.pc.Idle? ==> Registered(t)
  {
  }

  /** How many steps of a run were taken by the request that holds the lock of `tx`. */
  function OwnSteps(labels: seq<Label>, tx: Uuid): nat {
    if labels == [] then 0
    else
      var l := labels[|labels| - 1];
      OwnSteps(labels[..|labels| - 1], tx) + (if l.Advance? && l.tx == tx then 1 else 0)
  }

  /** Where a retried rollback of `t` stands after `n` steps of its own. */
  function Retrying(t: Tx, n: nat): Tx {
    match n
    case 0 => t.(pc := UndoCore(false))
    case 1 => t.(pc := UndoSnapshot(false))
    case 2 => t.(status := RolledBack, pc := Deregister)
    case 3 => t.(status := RolledBack, pc := Remove)
    case _ => t.(status := RolledBack, pc := Idle)
  }

  /** A failed rollback has left nothing to undo. */
  predicate NothingToUndo(t: Tx) {
    t.status == RollingBack && t.pc.Idle? && !t.coreBegun && t.snapshot == None && t.buffer == []
  }

  lemma FailedRollbackIsSpent(c: Engines, t: Tx)
    requires TxInv(c, t) && t.pc.Idle? && t.status == RollingBack
    ensures NothingToUndo(t)
  {
    hide Watch;
  }

  /** With the snapshot gone and the core already rolled back, a rollback has nothing left to call. */
  lemma RetryStep(c: Engines, t: Tx, n: nat, blocked: bool, ok: bool, snap: Uuid)
    requires NothingToUndo(t) && n < 4
    ensures Next(c, Retrying(t, n), blocked, ok, snap) == Retrying(t, n + 1)
  {
    assert t.trace + [] == t.trace;
  }

  lemma RetryEnter(t: Tx, request: Request)
    requires NothingToUndo(t)
    ensures Entered(t, Rollback) == Retrying(t, 0)
    ensures Entered(Retrying(t, 4), request) == Retrying(t, 4)
  {
  }

  /** The transaction's own step, or anybody else's. */
  lemma RetryAmongOthers(c: Engines, s: State, l: Label, tx: Uuid, t: Tx, n: nat)
    requires Enabled(s, l) && NothingToUndo(t) && n <= 4 && tx in s.txs && s.txs[tx] == Retrying(t, n)
    ensures tx in Apply(c, s, l).txs
    ensures l.Advance? && l.tx == tx ==> n < 4 && Apply(c, s, l).txs[tx] == Retrying(t, n + 1)
    ensures !(l.Advance? && l.tx == tx) ==> Apply(c, s, l).txs[tx] == Retrying(t, n)
  {
    hide Entered, Next, AdvancedSimple, Blocked;
    match l {
      case Advance(other, ok, snap) =>
        if other == tx {
          RetryStep(c, t, n, Blocked(s.registry, tx, []), ok, snap);
        }
      case Enter(other, request) =>
        if other == tx {
          RetryEnter(t, request);
        }
      case _ =>
    }
  }

  lemma {:induction false} RetryRuns(
    c: Engines, base: Store, labels: seq<Label>, s: State, tx: Uuid, more: seq<Label>, s': State)
    requires Reached(c, base, labels, s) && tx in s.txs && NothingToUndo(s.txs[tx])
    requires Reached(c, base, labels + [Enter(tx, Rollback)] + more, s')
    ensures tx in s'.txs && OwnSteps(more, tx) <= 4 && s'.txs[tx] == Retrying(s.txs[tx], OwnSteps(more, tx))
    decreases |more|
  {
    var t, all := s.txs[tx], labels + [Enter(tx, Rollback)] + more;
    hide Enabled, Apply, Entered, Retrying, NothingToUndo;
    if more == [] {
      assert all[..|all| - 1] == labels;
      EnteredAt(c, s, tx, Rollback);
      RetryEnter(t, Rollback);
    } else {
      var fewer, l := more[..|more| - 1], more[|more| - 1];
      assert all[..|all| - 1] == labels + [Enter(tx, Rollback)] + fewer;
      var mid := Run(c, Initial(base), labels + [Enter(tx, Rollback)] + fewer).value;
      RetryRuns(c, base, labels, s, tx, fewer, mid);
      RetryAmongOthers(c, mid, l, tx, t, OwnSteps(fewer, tx));
    }
  }

  lemma EnteredAt(c: Engines, s: State, tx: Uuid, request: Request)
    requires Enabled(s, Enter(tx, request))
    ensures tx in Apply(c, s, Enter(tx, request)).txs
    ensures Apply(c, s, Enter(tx, request)).txs[tx] == Entered(s.txs[tx], request)
  {
    hide Entered;
  }

  /**
   * The next rollback of such a transaction succeeds in every run, whatever the engines answer and
   * whatever anybody else does in between: it takes four steps, calls no engine (so no second ROLLBACK
   * and no second restore), and leaves the transaction rolled back and in neither table.
   */
  lemma RetriedRollbackSucceeds(
    c: Engines, base: Store, labels: seq<Label>, s: State, tx: Uuid, more: seq<Label>, s': State)
    requires Reached(c, base, labels, s)
    requires tx in s.txs && s.txs[tx].pc.Idle? && s.txs[tx].status == RollingBack
    requires Reached(c, base, labels + [Enter(tx, Rollback)] + more, s')
    ensures tx in s'.txs && s'.txs[tx].trace == s.txs[tx].trace && s'.txs[tx].applied == s.txs[tx].applied
    ensures OwnSteps(more, tx) <= 4 && (s'.txs[tx].pc.Idle? <==> OwnSteps(more, tx) == 4)
    ensures OwnSteps(more, tx) < 4 ==> Enabled(s', Advance(tx, true, 0)) && Enabled(s', Advance(tx, false, 0))
    ensures s'.txs[tx].pc.Idle? ==>
              s'.txs[tx].status == RolledBack && tx !in s'.registry && tx !in s'.active && !Logged(s'.log, tx)
  {
    hide Run, Inv, AllTx, Tables, TxInv, Retrying, NothingToUndo, Count, Upserts, Logged;
    ReachedIsSound(c, base, labels, s);
    FailedRollbackIsSpent(c, s.txs[tx]);
    RetryRuns(c, base, labels, s, tx, more, s');
    RetryingMeans(s.txs[tx], OwnSteps(more, tx));
    ReachedIsSound(c, base, labels + [Enter(tx, Rollback)] + more, s');
    if s'.txs[tx].pc.Idle? {
      RolledBackMeans(c, base, labels + [Enter(tx, Rollback)] + more, s', tx);
      GoneFromTables(s', tx);
    }
  }

  lemma RetryingMeans(t: Tx, n: nat)
    requires n <= 4
    ensures var t' := Retrying(t, n);
            && t'.trace == t.trace && t'.applied == t.applied && !t'.pc.Refused?
            && (t'.pc.Idle? <==> n == 4) && (n == 4 ==> t'.status == RolledBack)
  {
  }

  lemma GoneFromTables(s: State, tx: Uuid)
    requires Tables(s) && tx in s.txs && s.txs[tx].pc.Idle? && s.txs[tx].status == RolledBack
    ensures tx !in s.registry && tx !in s.active
  {
    hide WriteSetsFit;
  }

  lemma RunNothing(c: Engines, s: State)
    ensures Run(c, s, []) == Some(s)
  {
  }

  lemma RunOne(c: Engines, s: State, labels: seq<Label>, l: Label, mid: State, s': State)
    requires Run(c, s, labels) == Some(mid) && Enabled(mid, l) && Apply(c, mid, l) == s'
    ensures Run(c, s, labels + [l]) == Some(s')
  {
    assert (labels + [l])[..|labels|] == labels;
  }
}
