/**
 * What the vector store, the log and the order of completion look like in every reachable state.
 */
module TxSafety {
  import opened Wrappers
  import opened TxTypes
  import opened Coordinator
  import opened TxProtocol
  import opened TxInvariant

  // ---------------------------------------------------------------- upserts as overlays

  /** The records that `ops` leave behind. */
  function Effect(ops: seq<VectorOp>): Store {
    Written(map[], ops)
  }

  predicate SameAt(a: Store, b: Store, k: Key) {
    (k in a <==> k in b) && (k in a ==> a[k] == b[k])
  }

  lemma {:induction false} WrittenIsOverlay(store: Store, ops: seq<VectorOp>, k: Key)
    ensures k in Effect(ops) ==> k in Written(store, ops) && Written(store, ops)[k] == Effect(ops)[k]
    ensures k !in Effect(ops) ==> SameAt(Written(store, ops), store, k)
  {
    if ops != [] {
      WrittenIsOverlay(store, ops[..|ops| - 1], k);
    }
  }

  predicate IsAt(op: VectorOp, k: Key) {
    op.collection == k.collection && op.id == k.id
  }

  /** The last upsert of a record decides its text and metadata. */
  lemma {:induction false} LastWriteWins(store: Store, ops: seq<VectorOp>, k: Key, i: nat)
    requires i < |ops| && IsAt(ops[i], k) && forall j | i < j < |ops| :: !IsAt(ops[j], k)
    ensures k in Written(store, ops) && Written(store, ops)[k] == Payload(ops[i].text, ops[i].metadata)
  {
    if i < |ops| - 1 {
      LastWriteWins(store, ops[..|ops| - 1], k, i);
      assert !IsAt(ops[|ops| - 1], k);
    }
  }

  /** A record that no upsert names is left alone. */
  lemma {:induction false} UnnamedIsLeftAlone(store: Store, ops: seq<VectorOp>, k: Key)
    requires forall i | 0 <= i < |ops| :: !IsAt(ops[i], k)
    ensures SameAt(Written(store, ops), store, k)
  {
    if ops != [] {
      UnnamedIsLeftAlone(store, ops[..|ops| - 1], k);
      assert !IsAt(ops[|ops| - 1], k);
    }
  }

  lemma {:induction false} EffectKeys(ops: seq<VectorOp>, k: Key)
    requires k in Effect(ops)
    ensures k.id in Ids(ops)
  {
    var last := ops[|ops| - 1];
    assert Ids(ops)[|ops| - 1] == last.id;
    if k != Key(last.collection, last.id) {
      EffectKeys(ops[..|ops| - 1], k);
      var i :| 0 <= i < |ops| - 1 && Ids(ops[..|ops| - 1])[i] == k.id;
      assert Ids(ops)[i] == k.id;
    }
  }

  lemma EffectNext(ops: seq<VectorOp>, op: VectorOp)
    ensures Effect(ops + [op]) == Upserted(Effect(ops), op)
  {
    assert (ops + [op])[..|ops|] == ops;
  }

  // ---------------------------------------------------------------- the vector store

  /** The store that results from running the retired transactions one at a time, in order. */
  function Serial(base: Store, retired: seq<Retired>): Store {
    if retired == [] then base
    else Written(Serial(base, retired[..|retired| - 1]), retired[|retired| - 1].applied)
  }

  ghost predicate Untouched(s: State, k: Key) {
    forall tx | tx in s.txs && InFlight(s.txs[tx]) :: k !in Effect(s.txs[tx].applied)
  }

  /**
   * The store is the serial one, overlaid with what the transactions in flight have applied so far.
   */
  ghost predicate StoreFits(base: Store, s: State) {
    && (forall tx | tx in s.txs && InFlight(s.txs[tx]) :: Shows(s.store, s.txs[tx].applied))
    && (forall k | Untouched(s, k) :: SameAt(s.store, Serial(base, s.retired), k))
  }

  ghost predicate Shows(store: Store, ops: seq<VectorOp>) {
    forall k | k in Effect(ops) :: k in store && store[k] == Effect(ops)[k]
  }

  lemma {:induction false} AppliedIds(c: Engines, t: Tx, k: Key)
    requires TxInv(c, t) && k in Effect(t.applied)
    ensures k.id in Ids(t.buffered)
  {
    hide Traced;
    EffectKeys(t.applied, k);
    assert t.applied <= t.buffered;
    var i :| 0 <= i < |t.applied| && Ids(t.applied)[i] == k.id;
    assert Ids(t.buffered)[i] == k.id;
  }

  lemma UpsertStore(c: Engines, base: Store, s: State, tx: Uuid, snap: Uuid)
    requires AllTx(c, s) && Disjoint(s) && StoreFits(base, s) && tx in s.txs
    requires s.txs[tx].pc.Upsert? && s.txs[tx].pc.rest != []
    ensures StoreFits(base, Advanced(c, s, tx, true, snap))
  {
    hide TxInv, InFlight, Next, Overlap, Serial, Written, RegistryAfter, ActiveAfter, LogAfter, Blocked;
    var t, op, s' := s.txs[tx], s.txs[tx].pc.rest[0], Advanced(c, s, tx, true, snap);
    NextFlight(c, t, Blocked(s.registry, tx, []), true, snap);
    EffectNext(t.applied, op);
    var key := Key(op.collection, op.id);
    forall other | other in s.txs && other != tx && InFlight(s.txs[other])
      ensures key !in Effect(s.txs[other].applied)
    {
      if key in Effect(s.txs[other].applied) {
        AppliedIds(c, s.txs[other], key);
        SharedIdOverlaps(t.buffered, s.txs[other].buffered, op);
      }
    }
    assert key in Effect(s'.txs[tx].applied);
    forall k | Untouched(s', k)
      ensures k != key && Untouched(s, k)
    {
      assert InFlight(s'.txs[tx]);
      forall other | other in s.txs && InFlight(s.txs[other])
        ensures k !in Effect(s.txs[other].applied)
      {
        assert InFlight(s'.txs[other]);
      }
    }
  }

  lemma SharedIdOverlaps(a: seq<VectorOp>, b: seq<VectorOp>, op: VectorOp)
    requires op in a && op.id in Ids(b)
    ensures Overlap(Ids(a), Ids(b))
  {
    var i :| 0 <= i < |a| && a[i] == op;
    assert Ids(a)[i] == op.id;
  }

  lemma RetireStore(c: Engines, base: Store, s: State, tx: Uuid, ok: bool, snap: Uuid)
    requires AllTx(c, s) && StoreFits(base, s) && tx in s.txs && s.txs[tx].pc.Deregister?
    ensures StoreFits(base, Advanced(c, s, tx, ok, snap))
  {
    hide TxInv, InFlight, Next, RegistryAfter, ActiveAfter, LogAfter, Blocked;
    var t, s' := s.txs[tx], Advanced(c, s, tx, ok, snap);
    Standing(c, t);
    NextFlight(c, t, Blocked(s.registry, tx, []), ok, snap);
    NextPlace(c, t, Blocked(s.registry, tx, []), ok, snap);
    var serial := Serial(base, s.retired);
    assert s'.retired[..|s.retired|] == s.retired;
    assert Serial(base, s'.retired) == Written(serial, t.applied);
    forall k | Untouched(s', k)
      ensures SameAt(s'.store, Serial(base, s'.retired), k)
    {
      WrittenIsOverlay(serial, t.applied, k);
      if k in Effect(t.applied) {
        assert InFlight(t);
      } else {
        forall other | other in s.txs && InFlight(s.txs[other])
          ensures k !in Effect(s.txs[other].applied)
        {
          assert other == tx || InFlight(s'.txs[other]);
        }
        assert Untouched(s, k) && SameAt(s.store, serial, k);
      }
    }
  }

  /** Every other step leaves the store, the retired transactions and everybody's applied upserts alone. */
  lemma QuietStore(c: Engines, base: Store, s: State, l: Label)
    requires AllTx(c, s) && StoreFits(base, s) && Enabled(s, l)
    requires l.Advance? ==>
               !s.txs[l.tx].pc.Deregister? && !(s.txs[l.tx].pc.Upsert? && s.txs[l.tx].pc.rest != [] && l.ok)
    ensures StoreFits(base, Apply(c, s, l))
  {
    hide TxInv, Next, Entered, RegistryAfter, ActiveAfter, LogAfter, Blocked, Serial, PlaceOf;
    var s' := Apply(c, s, l);
    match l {
      case Enter(tx, request) => EnteredOutline(c, s.txs[tx], request);
      case Advance(tx, ok, snap) => NextFlight(c, s.txs[tx], Blocked(s.registry, tx, []), ok, snap);
      case _ =>
    }
    assert s'.store == s.store && s'.retired == s.retired;
    forall tx | tx in s'.txs && InFlight(s'.txs[tx])
      ensures Shows(s'.store, s'.txs[tx].applied)
    {
      assert || s'.txs[tx].applied == []
             || (tx in s.txs && InFlight(s.txs[tx]) && s'.txs[tx].applied == s.txs[tx].applied);
    }
    forall k | Untouched(s', k)
      ensures SameAt(s'.store, Serial(base, s'.retired), k)
    {
      forall tx | tx in s.txs && InFlight(s.txs[tx])
        ensures k !in Effect(s.txs[tx].applied)
      {
        assert InFlight(s'.txs[tx]) && s'.txs[tx].applied == s.txs[tx].applied;
      }
      assert Untouched(s, k);
    }
  }

  lemma StoreStep(c: Engines, base: Store, s: State, l: Label)
    requires AllTx(c, s) && Disjoint(s) && StoreFits(base, s) && Enabled(s, l)
    ensures StoreFits(base, Apply(c, s, l))
  {
    hide TxInv, StoreFits, Advanced, AdvancedSimple, Entered, Disjoint;
    if l.Advance? && s.txs[l.tx].pc.Deregister? {
      RetireStore(c, base, s, l.tx, l.ok, l.snap);
    } else if l.Advance? && s.txs[l.tx].pc.Upsert? && s.txs[l.tx].pc.rest != [] && l.ok {
      UpsertStore(c, base, s, l.tx, l.snap);
    } else {
      QuietStore(c, base, s, l);
    }
  }

  // ---------------------------------------------------------------- the order of completion

  /** Every transaction that has left the coordinator is retired exactly once, with what it applied. */
  ghost predicate RetiredIn(txs: map<Uuid, Tx>, retired: seq<Retired>) {
    && (forall i | 0 <= i < |retired| ::
          var r := retired[i]; r.tx in txs && Left(txs[r.tx]) && r.applied == txs[r.tx].applied)
    && (forall i, j | 0 <= i < j < |retired| :: retired[i].tx != retired[j].tx)
    && (forall tx | tx in txs && Left(txs[tx]) :: exists i :: 0 <= i < |retired| && retired[i].tx == tx)
  }

  ghost predicate RetiredFits(s: State) {
    RetiredIn(s.txs, s.retired)
  }

  lemma RetiredNew(txs: map<Uuid, Tx>, retired: seq<Retired>, tx: Uuid, t: Tx)
    requires RetiredIn(txs, retired) && tx !in txs && !Left(t)
    ensures RetiredIn(txs[tx := t], retired)
  {
    hide Left;
  }

  lemma RetiredSame(txs: map<Uuid, Tx>, retired: seq<Retired>, tx: Uuid, t: Tx)
    requires RetiredIn(txs, retired) && tx in txs
    requires (Left(t) <==> Left(txs[tx])) && (Left(t) ==> t.applied == txs[tx].applied)
    ensures RetiredIn(txs[tx := t], retired)
  {
    hide Left;
  }

  lemma RetiredNext(txs: map<Uuid, Tx>, retired: seq<Retired>, tx: Uuid, t: Tx)
    requires RetiredIn(txs, retired) && tx in txs && !Left(txs[tx]) && Left(t) && t.applied == txs[tx].applied
    ensures RetiredIn(txs[tx := t], retired + [Retired(tx, t.applied)])
  {
    hide Left;
    var after := retired + [Retired(tx, t.applied)];
    assert after[|retired|].tx == tx && forall i | 0 <= i < |retired| :: after[i] == retired[i];
  }

  lemma NextLeft(c: Engines, t: Tx, blocked: bool, ok: bool, snap: Uuid)
    requires TxInv(c, t) && !t.pc.Idle? && !t.pc.Refused?
    ensures var t' := Next(c, t, blocked, ok, snap);
            && (Left(t') <==> Left(t) || t.pc.Deregister?)
            && (t.pc.Deregister? ==> !Left(t))
            && (Left(t') ==> t'.applied == t.applied)
  {
    NextPlace(c, t, blocked, ok, snap);
    NextFlight(c, t, blocked, ok, snap);
    hide TxInv, Next, InFlight;
  }

  lemma RetiredStep(c: Engines, s: State, l: Label)
    requires AllTx(c, s) && RetiredFits(s) && Enabled(s, l)
    ensures RetiredFits(Apply(c, s, l))
  {
    hide TxInv, Entered, Next, AdvancedSimple, RetiredIn, Left, Blocked;
    hide RegistryAfter, ActiveAfter, LogAfter, StoreAfter;
    match l {
      case Start(tx, session, now) =>
        NewHasNotLeft(session, now);
        RetiredNew(s.txs, s.retired, tx, NewTx(session, now));
      case Enter(tx, request) =>
        EnteredHasNotLeft(c, s.txs[tx], request);
        RetiredSame(s.txs, s.retired, tx, Entered(s.txs[tx], request));
      case Advance(tx, ok, snap) =>
        var t' := Next(c, s.txs[tx], Blocked(s.registry, tx, []), ok, snap);
        NextLeft(c, s.txs[tx], Blocked(s.registry, tx, []), ok, snap);
        if s.txs[tx].pc.Deregister? {
          RetiredNext(s.txs, s.retired, tx, t');
        } else {
          RetiredSame(s.txs, s.retired, tx, t');
        }
      case _ =>
    }
  }

  lemma NewHasNotLeft(session: Uuid, now: nat)
    ensures !Left(NewTx(session, now))
  {
  }

  lemma EnteredHasNotLeft(c: Engines, t: Tx, request: Request)
    requires TxInv(c, t) && t.pc.Idle?
    ensures (Left(Entered(t, request)) <==> Left(t)) && Entered(t, request).applied == t.applied
  {
    EnteredOutline(c, t, request);
    hide TxInv, Entered;
  }

  // ---------------------------------------------------------------- the log

  /** The log entry of a finished transaction, or of a simple one. */
  predicate Recorded(s: State, e: LogEntry) {
    || (e.tx in s.txs && s.txs[e.tx].pc.Idle? && s.txs[e.tx].status == Committed
        && e == LogEntry(e.tx, s.txs[e.tx].session, Ids(s.txs[e.tx].buffer)))
    || e.tx in s.simples
  }

  predicate Finished(s: State, tx: Uuid) {
    tx in s.txs && s.txs[tx].pc.Idle? && s.txs[tx].status == Committed
  }

  ghost predicate Logged(log: seq<LogEntry>, tx: Uuid) {
    exists i :: 0 <= i < |log| && log[i].tx == tx
  }

  lemma LoggedNext(log: seq<LogEntry>, e: LogEntry, tx: Uuid)
    ensures Logged(log + [e], tx) <==> Logged(log, tx) || e.tx == tx
  {
    assert (log + [e])[|log|] == e;
    if i :| 0 <= i < |log| && log[i].tx == tx {
      assert (log + [e])[i].tx == tx;
    }
  }

  /** Each finished two-phase transaction has one entry, and simple ones may have any number. */
  ghost predicate LogFits(s: State) {
    && (forall i | 0 <= i < |s.log| :: Recorded(s, s.log[i]))
    && (forall i, j | 0 <= i < j < |s.log| && s.log[i].tx in s.txs :: s.log[i].tx != s.log[j].tx)
    && (forall tx | Finished(s, tx) :: Logged(s.log, tx))
  }

  lemma NextFinished(c: Engines, t: Tx, blocked: bool, ok: bool, snap: Uuid)
    requires TxInv(c, t) && !t.pc.Idle? && !t.pc.Refused?
    ensures var t' := Next(c, t, blocked, ok, snap);
            && (t'.pc.Idle? && t'.status == Committed <==> t.pc.AppendLog?)
            && (t.pc.AppendLog? ==> t'.buffer == t.buffer && t'.session == t.session)
  {
    hide Traced, Accounted, Issued;
  }

  lemma LogAdvance(c: Engines, s: State, tx: Uuid, ok: bool, snap: Uuid)
    requires AllTx(c, s) && RegistryFits(s) && LogFits(s) && Enabled(s, Advance(tx, ok, snap))
    ensures LogFits(Advanced(c, s, tx, ok, snap))
  {
    hide TxInv, Next, RegistryAfter, ActiveAfter, StoreAfter, RetiredAfter, Blocked, Ids;
    var t, s' := s.txs[tx], Advanced(c, s, tx, ok, snap);
    NextFinished(c, t, Blocked(s.registry, tx, []), ok, snap);
    forall other | Finished(s', other)
      ensures Logged(s'.log, other)
    {
      LoggedNext(s.log, LogEntry(tx, t.session, Ids(t.buffer)), other);
    }
  }

  lemma LogSimple(s: State, tx: Uuid)
    requires RegistryFits(s) && LogFits(s) && Enabled(s, AdvanceSimple(tx))
    ensures LogFits(AdvancedSimple(s, tx))
  {
    hide Blocked, Ids;
    var s' := AdvancedSimple(s, tx);
    forall other | Finished(s', other)
      ensures Logged(s'.log, other)
    {
      LoggedNext(s.log, LogEntry(tx, s.simples[tx].session, s.simples[tx].writeSet), other);
    }
  }

  /** A transaction that starts, or whose lock is taken, is not finished, or was before. */
  lemma LogTx(s: State, tx: Uuid, t: Tx)
    requires LogFits(s) && RegistryFits(s) && tx !in s.simples
    requires tx !in s.txs ==> !Logged(s.log, tx) && !(t.pc.Idle? && t.status == Committed)
    requires tx in s.txs ==> t == s.txs[tx] || (s.txs[tx].status != Committed && t.status != Committed)
    ensures LogFits(s.(txs := s.txs[tx := t]))
  {
    hide Ids, Registered, Enrolled;
    assert forall i | 0 <= i < |s.log| && s.log[i].tx == tx :: Logged(s.log, tx);
    hide Logged;
  }

  lemma NobodyLogged(s: State, tx: Uuid)
    requires LogFits(s) && tx !in s.txs && tx !in s.simples
    ensures !Logged(s.log, tx)
  {
    hide Ids;
    assert forall i | 0 <= i < |s.log| :: Recorded(s, s.log[i]);
  }

  lemma LogSimples(s: State, tx: Uuid, simple: Simple, registry: Registry)
    requires LogFits(s) && tx !in s.txs
    ensures LogFits(s.(simples := s.simples[tx := simple], registry := registry))
  {
    hide Ids, Logged;
    assert forall i | 0 <= i < |s.log| :: Recorded(s, s.log[i]);
  }

  lemma EnteredOrSame(t: Tx, request: Request)
    requires t.pc.Idle?
    ensures Entered(t, request) == t || (t.status != Committed && Entered(t, request).status != Committed)
  {
  }

  lemma LogStep(c: Engines, s: State, l: Label)
    requires AllTx(c, s) && RegistryFits(s) && LogFits(s) && Enabled(s, l)
    ensures LogFits(Apply(c, s, l))
  {
    assert s.txs.Keys !! s.simples.Keys;
    hide AllTx, RegistryFits, LogFits, Advanced, AdvancedSimple, Entered, Logged;
    match l {
      case Start(tx, session, now) =>
        NobodyLogged(s, tx);
        LogTx(s, tx, NewTx(session, now));
      case Enter(tx, request) =>
        EnteredOrSame(s.txs[tx], request);
        LogTx(s, tx, Entered(s.txs[tx], request));
      case Advance(tx, ok, snap) =>
        LogAdvance(c, s, tx, ok, snap);
      case AdvanceSimple(tx) =>
        LogSimple(s, tx);
      case StartSimple(tx, session, now) =>
        LogSimples(s, tx, Simple(session, [], true, Open), s.registry[tx := TxRecord(session, [], now)]);
      case Declare(tx, session, writeSet) =>
        LogSimples(s, tx, s.simples[tx].(session := session, writeSet := writeSet), s.registry);
      case Reopen(tx) =>
        LogSimples(s, tx, Simple(0, [], false, Open), s.registry);
    }
  }

  // ---------------------------------------------------------------- every run

  ghost predicate Inv(c: Engines, base: Store, s: State) {
    AllTx(c, s) && Tables(s) && Disjoint(s) && StoreFits(base, s) && RetiredFits(s) && LogFits(s)
  }

  lemma InvStep(c: Engines, base: Store, s: State, l: Label)
    requires Inv(c, base, s) && Enabled(s, l)
    ensures Inv(c, base, Apply(c, s, l))
  {
    hide AllTx, MapFits, WriteSetsFit, RegistryFits, Disjoint, StoreFits, RetiredFits, LogFits, Apply;
    AllTxStep(c, s, l);
    TablesStep(c, s, l);
    DisjointStep(c, s, l);
    StoreStep(c, base, s, l);
    RetiredStep(c, s, l);
    LogStep(c, s, l);
  }

  /** Whatever the interleaving and whichever calls fail, the invariant holds throughout. */
  lemma {:induction false} RunKeepsInv(c: Engines, base: Store, labels: seq<Label>)
    requires Run(c, Initial(base), labels).Some?
    ensures Inv(c, base, Run(c, Initial(base), labels).value)
  {
    hide AllTx, Tables, Disjoint, RetiredFits, LogFits, Apply, Enabled, Effect;
    if labels == [] {
      InitialInv(c, base);
    } else {
      RunKeepsInv(c, base, labels[..|labels| - 1]);
      InvStep(c, base, Run(c, Initial(base), labels[..|labels| - 1]).value, labels[|labels| - 1]);
    }
  }

  lemma InitialInv(c: Engines, base: Store)
    ensures Inv(c, base, Initial(base))
  {
  }
}
