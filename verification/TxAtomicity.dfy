/**
 * The vector writes of a transaction are meant to be applied atomically.  They are not taken back
 * when phase 2 fails; here is exactly when that cannot show.
 */
module TxAtomicity {
  import opened Wrappers
  import opened TxTypes
  import opened Coordinator
  import opened TxProtocol
  import opened TxTrace
  import opened TxInvariant
  import opened TxSafety
  import opened TxTheorems

  predicate GivenUp(t: Tx) {
    t.status == RollingBack || t.status == RolledBack
  }

  // ---------------------------------------------------------------- when nothing can be left behind

  /** Without a core to refuse the commit, only an upsert can fail, and it is not applied itself. */
  predicate Short(c: Engines, t: Tx) {
    !c.core && GivenUp(t) && t.applied != [] ==> |t.applied| < |t.buffered|
  }

  ghost predicate AllShort(c: Engines, s: State) {
    forall tx | tx in s.txs :: Short(c, s.txs[tx])
  }

  lemma EnteredIsShort(c: Engines, t: Tx, request: Request)
    requires TxInv(c, t) && Short(c, t) && t.pc.Idle?
    ensures Short(c, Entered(t, request))
  {
    hide Traced;
  }

  lemma NextIsShort(c: Engines, t: Tx, blocked: bool, ok: bool, snap: Uuid)
    requires TxInv(c, t) && Short(c, t) && !t.pc.Idle? && !t.pc.Refused?
    ensures Short(c, Next(c, t, blocked, ok, snap))
  {
    hide Traced, Issued;
  }

  lemma ShortStep(c: Engines, s: State, l: Label)
    requires AllTx(c, s) && AllShort(c, s) && Enabled(s, l)
    ensures AllShort(c, Apply(c, s, l))
  {
    hide TxInv, Short, AdvancedSimple, Entered, Next, Blocked;
    match l {
      case Start(tx, session, now) =>
        assert Short(c, NewTx(session, now)) by { NewIsShort(c, session, now); }
      case Enter(tx, request) =>
        EnteredIsShort(c, s.txs[tx], request);
      case Advance(tx, ok, snap) =>
        NextIsShort(c, s.txs[tx], Blocked(s.registry, tx, []), ok, snap);
      case _ =>
    }
  }

  lemma NewIsShort(c: Engines, session: Uuid, now: nat)
    ensures Short(c, NewTx(session, now))
  {
  }

  lemma {:induction false} RunKeepsShort(c: Engines, base: Store, labels: seq<Label>)
    requires Run(c, Initial(base), labels).Some?
    ensures AllShort(c, Run(c, Initial(base), labels).value)
  {
    if labels != [] {
      var front := labels[..|labels| - 1];
      RunKeepsShort(c, base, front);
      RunKeepsInv(c, base, front);
      InvGivesTx(c, base, Run(c, Initial(base), front).value);
      hide Inv, AllTx, AllShort, Apply, Enabled;
      ShortStep(c, Run(c, Initial(base), front).value, labels[|labels| - 1]);
    }
  }

  lemma {:induction false} NoEngineNoUpserts(c: Engines, trace: seq<Event>)
    requires !c.vector && Watch(c, trace).Seen?
    ensures Watch(c, trace).upserts == []
  {
    if trace != [] {
      NoEngineNoUpserts(c, trace[..|trace| - 1]);
    }
  }

  /** There is nothing to apply, or no engine to apply it, or one upsert that nothing can follow. */
  predicate Trivial(c: Engines, ops: seq<VectorOp>) {
    !c.vector || ops == [] || (|ops| == 1 && !c.core)
  }

  lemma TrivialIsAtomic(c: Engines, base: Store, labels: seq<Label>, s: State, tx: Uuid)
    requires Reached(c, base, labels, s) && tx in s.txs && GivenUp(s.txs[tx]) && Trivial(c, s.txs[tx].buffered)
    ensures s.txs[tx].applied == []
  {
    RunKeepsInv(c, base, labels);
    RunKeepsShort(c, base, labels);
    InvGivesTx(c, base, s);
    hide Inv, Run;
    assert TxInv(c, s.txs[tx]) && Short(c, s.txs[tx]);
    if !c.vector {
      NoEngineNoUpserts(c, s.txs[tx].trace);
    }
  }

  // ---------------------------------------------------------------- when something can

  /** A run of a single transaction, which now stands at `t`. */
  ghost predicate Solo(c: Engines, base: Store, labels: seq<Label>, s: State, t: Tx) {
    && Reached(c, base, labels, s)
    && s.txs == map[0 := t] && s.simples == map[] && s.registry.Keys <= {0}
  }

  lemma SoloStart(c: Engines, base: Store) returns (labels: seq<Label>, s: State)
    ensures Solo(c, base, labels, s, NewTx(0, 0))
  {
    var l := Start(0, 0, 0);
    labels, s := [l], Apply(c, Initial(base), l);
    assert [] + [l] == labels && s.txs == map[0 := NewTx(0, 0)];
    RunNothing(c, Initial(base));
    RunOne(c, Initial(base), [], l, Initial(base), s);
  }

  lemma SoloEnter(c: Engines, base: Store, before: seq<Label>, s: State, t: Tx, request: Request)
    returns (labels: seq<Label>, s': State)
    requires Solo(c, base, before, s, t) && t.pc.Idle?
    ensures Solo(c, base, labels, s', Entered(t, request))
  {
    hide Run, Entered;
    var l := Enter(0, request);
    labels, s' := before + [l], Apply(c, s, l);
    RunOne(c, Initial(base), before, l, s, s');
    assert s'.txs == map[0 := Entered(t, request)];
  }

  lemma SoloAdvance(c: Engines, base: Store, before: seq<Label>, s: State, t: Tx, ok: bool)
    returns (labels: seq<Label>, s': State)
    requires Solo(c, base, before, s, t) && !t.pc.Idle? && !t.pc.Refused?
    ensures Solo(c, base, labels, s', Next(c, t, false, ok, 0))
  {
    hide Run, Next;
    var l := Advance(0, ok, 0);
    labels, s' := before + [l], Apply(c, s, l);
    RunOne(c, Initial(base), before, l, s, s');
    assert !Blocked(s.registry, 0, []);
    assert s'.txs == map[0 := Next(c, t, false, ok, 0)];
  }

  predicate Refusal(e: Event) { !e.ok }

  /** How many of the transaction's calls were refused. */
  function Refusals(t: Tx): nat {
    Count(t.trace, Refusal)
  }

  lemma RefusalsGrow(trace: seq<Event>, calls: seq<Event>)
    requires |calls| <= 1
    ensures Count(trace + calls, Refusal) == Count(trace, Refusal) + if calls != [] && !calls[0].ok then 1 else 0
  {
    if calls == [] {
      assert trace + calls == trace;
    } else {
      assert (trace + calls)[..|trace|] == trace;
    }
  }

  lemma IssuedAnswer(c: Engines, t: Tx, ok: bool)
    ensures Issued(c, t, ok, 0) != [] ==> Issued(c, t, ok, 0)[0].ok == ok
  {
  }

  lemma NextTrace(c: Engines, t: Tx, ok: bool)
    ensures Next(c, t, false, ok, 0).trace == t.trace + Issued(c, t, ok, 0)
  {
    hide Moved;
    if t.pc.Prepare? {
      assert Issued(c, t, ok, 0) == [];
    }
  }

  lemma RefusalsNext(c: Engines, t: Tx, ok: bool)
    ensures ok ==> Refusals(Next(c, t, false, true, 0)) == Refusals(t)
    ensures !ok && Issued(c, t, false, 0) != [] ==> Refusals(Next(c, t, false, false, 0)) == Refusals(t) + 1
  {
    hide Next, Issued, Count;
    NextTrace(c, t, ok);
    IssuedAnswer(c, t, ok);
    RefusalsGrow(t.trace, Issued(c, t, ok, 0));
  }

  /** Open, at rest, with `ops` buffered and no call refused. */
  predicate Holding(c: Engines, t: Tx, ops: seq<VectorOp>) {
    && Refusals(t) == 0
    && t.status == Active && t.pc == Idle && t.coreBegun == c.core
    && t.buffer == ops && t.buffered == ops && t.applied == []
  }

  lemma OpenedTx(c: Engines) returns (t1: Tx, t2: Tx, t3: Tx, t4: Tx)
    ensures t1 == Next(c, NewTx(0, 0), false, true, 0) && t2 == Next(c, t1, false, true, 0)
    ensures t3 == Next(c, t2, false, true, 0) && t4 == Next(c, t3, false, true, 0)
    ensures t1.pc == BeginSnapshot && t2.pc == BeginRegister && t3.pc == BeginInsert && Holding(c, t4, [])
  {
    hide Refusals, Issued;
    var t0 := NewTx(0, 0);
    t1 := Next(c, t0, false, true, 0);
    t2 := Next(c, t1, false, true, 0);
    t3 := Next(c, t2, false, true, 0);
    t4 := Next(c, t3, false, true, 0);
    assert Refusals(t4) == 0 by {
      hide Next, NewTx;
      NewIsUnrefused();
      RefusalsNext(c, t0, true);
      RefusalsNext(c, t1, true);
      RefusalsNext(c, t2, true);
      RefusalsNext(c, t3, true);
    }
  }

  lemma NewIsUnrefused()
    ensures Refusals(NewTx(0, 0)) == 0
  {
  }

  lemma {:induction false} SoloHolding(c: Engines, base: Store, ops: seq<VectorOp>)
    returns (labels: seq<Label>, s: State, t: Tx)
    ensures Solo(c, base, labels, s, t) && Holding(c, t, ops)
    decreases |ops|
  {
    hide Solo, Next, Entered, NewTx, Refusals;
    if ops == [] {
      var t1, t2, t3, t4 := OpenedTx(c);
      labels, s := SoloStart(c, base);
      assert NewTx(0, 0).pc == BeginCore by { NewStands(); }
      labels, s := SoloAdvance(c, base, labels, s, NewTx(0, 0), true);
      labels, s := SoloAdvance(c, base, labels, s, t1, true);
      labels, s := SoloAdvance(c, base, labels, s, t2, true);
      labels, s := SoloAdvance(c, base, labels, s, t3, true);
      t := t4;
    } else {
      var op := ops[|ops| - 1];
      var t0;
      labels, s, t0 := SoloHolding(c, base, ops[..|ops| - 1]);
      BufferedOne(c, t0, ops[..|ops| - 1], op);
      assert ops[..|ops| - 1] + [op] == ops;
      labels, s := SoloEnter(c, base, labels, s, t0, Buffer(op));
      labels, s := SoloAdvance(c, base, labels, s, Entered(t0, Buffer(op)), true);
      t := Next(c, Entered(t0, Buffer(op)), false, true, 0);
    }
  }

  lemma NewStands()
    ensures NewTx(0, 0).pc == BeginCore
  {
  }

  lemma BufferedOne(c: Engines, t: Tx, ops: seq<VectorOp>, op: VectorOp)
    requires Holding(c, t, ops)
    ensures Entered(t, Buffer(op)).pc == Extend(op.id)
    ensures Holding(c, Next(c, Entered(t, Buffer(op)), false, true, 0), ops + [op])
  {
    hide Refusals;
    SameRefusals(t, Entered(t, Buffer(op)));
    RefusalsNext(c, Entered(t, Buffer(op)), true);
  }

  lemma SameRefusals(t: Tx, t': Tx)
    requires t'.trace == t.trace
    ensures Refusals(t') == Refusals(t)
  {
  }

  /** The first upsert went through and one call after it did not. */
  predicate HalfDone(t: Tx, ops: seq<VectorOp>) {
    Refusals(t) == 1 && t.buffered == ops && t.applied != [] && t.status == RollingBack && t.pc == UndoCore(true)
  }

  lemma CommitBegins(c: Engines, t: Tx, ops: seq<VectorOp>)
    requires Holding(c, t, ops) && c.vector && ops != []
    ensures var t1 := Entered(t, Commit);
            var t2 := Next(c, t1, false, true, 0);
            var t3 := Next(c, t2, false, true, 0);
            && t1.pc == Prepare && t2.pc == Upsert(ops)
            && t3.pc == Upsert(ops[1..]) && t3.applied == [ops[0]] && t3.buffered == ops && t3.coreBegun == c.core
            && Refusals(t3) == 0
  {
    hide Refusals;
    var t1 := Entered(t, Commit);
    var t2 := Next(c, t1, false, true, 0);
    SameRefusals(t, t1);
    RefusalsNext(c, t1, true);
    RefusalsNext(c, t2, true);
  }

  lemma UpsertFails(c: Engines, t: Tx, ops: seq<VectorOp>)
    requires |ops| >= 2 && t.pc == Upsert(ops[1..]) && t.applied == [ops[0]] && t.buffered == ops && Refusals(t) == 0
    ensures HalfDone(Next(c, t, false, false, 0), ops)
  {
    hide Refusals;
    RefusalsNext(c, t, false);
  }

  lemma CommitFails(c: Engines, t: Tx, ops: seq<VectorOp>)
    requires c.core && t.coreBegun && |ops| == 1 && t.pc == Upsert([]) && t.applied == [ops[0]] && t.buffered == ops
    requires Refusals(t) == 0
    ensures var t1 := Next(c, t, false, true, 0); t1.pc == CommitCore && HalfDone(Next(c, t1, false, false, 0), ops)
  {
    hide Refusals;
    RefusalsNext(c, t, true);
    RefusalsNext(c, Next(c, t, false, true, 0), false);
  }

  lemma RollbackEnds(c: Engines, t: Tx, ops: seq<VectorOp>)
    requires HalfDone(t, ops)
    ensures var t1 := Next(c, t, false, true, 0);
            var t2 := Next(c, t1, false, true, 0);
            && t1.pc == UndoSnapshot(true) && t2.status == RolledBack && t2.applied == t.applied && t2.buffered == ops
            && Refusals(t2) == 1
  {
    hide Refusals;
    RefusalsNext(c, t, true);
    RefusalsNext(c, Next(c, t, false, true, 0), true);
  }

  lemma SoloHalfDone(c: Engines, base: Store, ops: seq<VectorOp>) returns (labels: seq<Label>, s: State, t: Tx)
    requires !Trivial(c, ops)
    ensures Solo(c, base, labels, s, t) && HalfDone(t, ops)
  {
    hide Solo, Next, Entered, Refusals;
    labels, s, t := SoloHolding(c, base, ops);
    CommitBegins(c, t, ops);
    labels, s := SoloEnter(c, base, labels, s, t, Commit);
    t := Entered(t, Commit);
    labels, s := SoloAdvance(c, base, labels, s, t, true);
    t := Next(c, t, false, true, 0);
    labels, s := SoloAdvance(c, base, labels, s, t, true);
    t := Next(c, t, false, true, 0);
    if |ops| == 1 {
      CommitFails(c, t, ops);
      labels, s := SoloAdvance(c, base, labels, s, t, true);
      t := Next(c, t, false, true, 0);
    } else {
      UpsertFails(c, t, ops);
    }
    labels, s := SoloAdvance(c, base, labels, s, t, false);
    t := Next(c, t, false, false, 0);
  }

  lemma LeavesSomething(c: Engines, base: Store, ops: seq<VectorOp>) returns (labels: seq<Label>, s: State)
    requires !Trivial(c, ops)
    ensures Reached(c, base, labels, s) && 0 in s.txs
    ensures s.txs[0].status == RolledBack && s.txs[0].buffered == ops && s.txs[0].applied != []
    ensures s.txs.Keys == {0} && Refusals(s.txs[0]) == 1
  {
    hide Next, Trivial, Refusals;
    var t;
    labels, s, t := SoloHalfDone(c, base, ops);
    RollbackEnds(c, t, ops);
    labels, s := SoloAdvance(c, base, labels, s, t, true);
    labels, s := SoloAdvance(c, base, labels, s, Next(c, t, false, true, 0), true);
  }

  /** In this run `tx` has buffered `ops`, was rolled back, and has written none of them. */
  ghost predicate LeavesNothing(c: Engines, base: Store, labels: seq<Label>, s: State, tx: Uuid, ops: seq<VectorOp>) {
    (Reached(c, base, labels, s) && tx in s.txs && s.txs[tx].status == RolledBack && s.txs[tx].buffered == ops)
    ==> Upserts(s.txs[tx].trace) == []
  }

  /**
   * A transaction that buffers `ops` can be relied on to write all of them or none exactly when there
   * is nothing to write, or no engine to write it, or a single operation and no core to commit after it.
   */
  lemma VectorWritesAreAtomicExactlyWhen(c: Engines, base: Store, ops: seq<VectorOp>)
    ensures (forall labels, s, tx :: LeavesNothing(c, base, labels, s, tx, ops)) <==> Trivial(c, ops)
  {
    hide Run, Trivial, Upserts, Watch;
    if Trivial(c, ops) {
      forall labels, s, tx
        ensures LeavesNothing(c, base, labels, s, tx, ops)
      {
        if Reached(c, base, labels, s) && tx in s.txs && s.txs[tx].status == RolledBack && s.txs[tx].buffered == ops {
          TrivialIsAtomic(c, base, labels, s, tx);
          AppliedIsTraced(c, base, labels, s, tx);
        }
      }
    } else {
      var labels, s := LeavesSomething(c, base, ops);
      AppliedIsTraced(c, base, labels, s, 0);
      assert !LeavesNothing(c, base, labels, s, 0, ops);
    }
  }

  lemma AppliedIsTraced(c: Engines, base: Store, labels: seq<Label>, s: State, tx: Uuid)
    requires Reached(c, base, labels, s) && tx in s.txs
    ensures Upserts(s.txs[tx].trace) == s.txs[tx].applied
  {
    RunKeepsInv(c, base, labels);
    InvGivesTx(c, base, s);
    CallsFollowTheProtocol(c, base, labels, s, tx);
    MonitorCounts(c, s.txs[tx].trace);
    hide Inv, Run, Watch, Count;
    assert TxInv(c, s.txs[tx]);
  }
}
