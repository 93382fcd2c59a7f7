/** What every step of the two-phase-commit protocol keeps. */
module TxInvariant {
  import opened Wrappers
  import opened TxTypes
  import opened Coordinator
  import opened TxProtocol
  import opened TxTrace

  /** Which of the shared tables a transaction stands in: the coordinator's, then also the manager's map. */
  datatype Place = Nowhere | RegisteredOnly | Tabled | ListedOnly | Gone

  function PlaceOf(t: Tx): Place {
    match t.pc
    case BeginCore | BeginSnapshot | BeginRegister | Refused => Nowhere
    case BeginInsert => RegisteredOnly
    case Idle => if Terminal(t.status) then Gone else Tabled
    case Remove => ListedOnly
    case AppendLog => Gone
    case _ => Tabled
  }

  predicate Registered(t: Tx) {
    PlaceOf(t) == RegisteredOnly || PlaceOf(t) == Tabled
  }

  predicate Listed(t: Tx) {
    PlaceOf(t) == Tabled || PlaceOf(t) == ListedOnly
  }

  predicate Left(t: Tx) {
    PlaceOf(t) == ListedOnly || PlaceOf(t) == Gone
  }

  /** Between a successful `prepare` and the deregistration that ends the transaction. */
  predicate InFlight(t: Tx) {
    t.prepared && Registered(t)
  }

  /** Not yet published by `begin`. */
  predicate Opening(t: Tx) {
    t.pc.BeginCore? || t.pc.BeginSnapshot? || t.pc.BeginRegister? || t.pc.BeginInsert?
  }

  // ---------------------------------------------------------------- one transaction

  /** The status that each program counter goes with. */
  predicate StatusFits(t: Tx) {
    match t.pc
    case BeginCore | BeginSnapshot | BeginRegister | BeginInsert | Refused | Extend(_) | Prepare => t.status == Active
    case Idle => t.status != Committing
    case Upsert(_) | CommitCore | DropSnapshot => t.status == Committing
    case UndoCore(_) | UndoSnapshot(_) => t.status == RollingBack
    case Deregister | Remove => Terminal(t.status)
    case AppendLog => t.status == Committed
  }

  function Pending(t: Tx): seq<VectorOp> {
    if t.pc.Upsert? then t.pc.rest else []
  }

  /** Where the buffered operations have gone: applied, about to be applied, or still in the buffer. */
  predicate Accounted(c: Engines, t: Tx) {
    match t.status
    case Active => t.applied == [] && t.buffer == t.buffered && !t.prepared && (Opening(t) ==> t.buffered == [])
    case Committing | Committed =>
      && t.prepared
      && t.applied + Pending(t) + t.buffer == t.buffered
      && (if c.vector then t.buffer == [] else t.applied == [] && Pending(t) == [])
    case RollingBack | RolledBack =>
      && t.applied <= t.buffered
      && (!t.pc.UndoCore? ==> t.buffer == [])
      && (t.applied != [] ==> t.prepared)
      && (t.pc.UndoCore? ==> (t.pc.automatic <==> t.prepared))
      && (t.pc.UndoSnapshot? ==> (t.pc.automatic <==> t.prepared))
      && (t.status == RollingBack && t.pc.Idle? ==> !t.prepared)
  }

  /** `begin` has come past the branch engine. */
  predicate Asked(t: Tx) {
    !t.pc.BeginCore? && !t.pc.BeginSnapshot? && !t.pc.Refused?
  }

  /** How far the engine calls have gone, as the trace's own monitor sees it. */
  predicate Matches(c: Engines, m: Monitor, t: Tx) {
    && m.Seen?
    && m.upserts == t.applied
    && (t.coreBegun <==> m.core == InTx)
    && t.snapshot == (if m.snap.Held? then Some(m.snap.id) else None)
    && (m.core != NotBegun ==> c.core)
    && (m.snap != NotAsked ==> c.branch)
    && (Asked(t) && c.branch ==> m.snap != NotAsked)
    && match t.status
       case Active =>
         && !m.broken && !Spent(m.snap) && m.upserts == []
         && (match t.pc
             case BeginCore => m.core == NotBegun && m.snap == NotAsked
             case BeginSnapshot => m.core == Running(c) && m.snap == NotAsked
             case Refused => m.core == Denied
             case _ => m.core == Running(c))
       case Committing =>
         !m.broken && !Spent(m.snap) && m.core == (if t.pc.DropSnapshot? then Settled(c) else Running(c))
       case Committed => !m.broken && !m.snap.Held? && m.snap != Restored && m.core == Settled(c)
       case RollingBack =>
         && (m.broken <==> t.prepared) && m.snap != Deleted
         && if t.pc.UndoCore? then
              || (m.core == Running(c) && !Spent(m.snap))
              || (m.core == Undone(c) && t.snapshot == None)
            else
              && m.core == Undone(c)
              && (t.pc.Idle? ==> t.snapshot == None)
       case RolledBack => (m.broken <==> t.prepared) && m.core == Undone(c) && !m.snap.Held? && m.snap != Deleted
  }

  predicate Traced(c: Engines, t: Tx) {
    Matches(c, Watch(c, t.trace), t)
  }

  predicate TxInv(c: Engines, t: Tx) {
    StatusFits(t) && Accounted(c, t) && Traced(c, t)
  }

  lemma NewTxInv(c: Engines, session: Uuid, now: nat)
    ensures TxInv(c, NewTx(session, now))
  {
  }

  lemma EnteredInv(c: Engines, t: Tx, request: Request)
    requires TxInv(c, t) && t.pc.Idle?
    ensures TxInv(c, Entered(t, request))
  {
  }

  lemma GatedInv(c: Engines, t: Tx, blocked: bool)
    requires TxInv(c, t) && t.pc.Prepare?
    ensures TxInv(c, Gated(c, t, blocked))
  {
    assert [] + t.buffer + [] == t.buffer;
    assert [] + [] + t.buffer == t.buffer;
  }

  predicate Working(t: Tx) {
    !t.pc.Prepare? && !t.pc.Idle? && !t.pc.Refused?
  }

  lemma LocalStatus(c: Engines, t: Tx, ok: bool, snap: Uuid)
    requires StatusFits(t) && Accounted(c, t) && Working(t)
    ensures StatusFits(Local(c, t, ok, snap))
  {
    hide Issued, Accounted;
  }

  lemma UpsertAccounted(c: Engines, t: Tx, ok: bool, snap: Uuid)
    requires StatusFits(t) && Accounted(c, t) && t.pc.Upsert? && t.pc.rest != []
    ensures Accounted(c, Moved(c, t, ok, snap))
  {
    var rest := t.pc.rest;
    assert t.applied + [rest[0]] + rest[1..] == t.applied + rest;
    assert t.applied <= t.applied + rest + t.buffer;
  }

  lemma OpeningAccounted(c: Engines, t: Tx, ok: bool, snap: Uuid)
    requires StatusFits(t) && Accounted(c, t) && Working(t) && t.status == Active
    ensures Accounted(c, Moved(c, t, ok, snap))
  {
  }

  lemma CommitAccounted(c: Engines, t: Tx, ok: bool, snap: Uuid)
    requires StatusFits(t) && Accounted(c, t) && Working(t) && t.status == Committing
    ensures Accounted(c, Moved(c, t, ok, snap))
  {
    if t.pc.Upsert? && t.pc.rest != [] {
      UpsertAccounted(c, t, ok, snap);
    } else {
      assert t.applied + [] == t.applied && t.applied <= t.applied + t.buffer;
    }
  }

  lemma EndingAccounted(c: Engines, t: Tx, ok: bool, snap: Uuid)
    requires StatusFits(t) && Accounted(c, t) && Working(t) && t.status != Active && t.status != Committing
    ensures Accounted(c, Moved(c, t, ok, snap))
  {
  }

  lemma LocalAccounted(c: Engines, t: Tx, ok: bool, snap: Uuid)
    requires StatusFits(t) && Accounted(c, t) && Working(t)
    ensures Accounted(c, Local(c, t, ok, snap))
  {
    match t.status {
      case Active => OpeningAccounted(c, t, ok, snap);
      case Committing => CommitAccounted(c, t, ok, snap);
      case _ => EndingAccounted(c, t, ok, snap);
    }
    hide Issued, Moved, StatusFits;
  }

  lemma OpeningMatches(c: Engines, m: Monitor, t: Tx, ok: bool, snap: Uuid)
    requires StatusFits(t) && Accounted(c, t) && Matches(c, m, t) && Working(t) && t.status == Active
    ensures Matches(c, Heard(c, m, Issued(c, t, ok, snap)), Moved(c, t, ok, snap))
  {
  }

  lemma CommitMatches(c: Engines, m: Monitor, t: Tx, ok: bool, snap: Uuid)
    requires StatusFits(t) && Accounted(c, t) && Matches(c, m, t) && Working(t) && t.status == Committing
    ensures Matches(c, Heard(c, m, Issued(c, t, ok, snap)), Moved(c, t, ok, snap))
  {
  }

  lemma EndingMatches(c: Engines, m: Monitor, t: Tx, ok: bool, snap: Uuid)
    requires StatusFits(t) && Accounted(c, t) && Matches(c, m, t) && Working(t)
    requires t.status != Active && t.status != Committing
    ensures Matches(c, Heard(c, m, Issued(c, t, ok, snap)), Moved(c, t, ok, snap))
  {
  }

  lemma StepMatches(c: Engines, m: Monitor, t: Tx, ok: bool, snap: Uuid)
    requires StatusFits(t) && Accounted(c, t) && Matches(c, m, t) && Working(t)
    ensures Matches(c, Heard(c, m, Issued(c, t, ok, snap)), Local(c, t, ok, snap))
  {
    match t.status {
      case Active => OpeningMatches(c, m, t, ok, snap);
      case Committing => CommitMatches(c, m, t, ok, snap);
      case _ => EndingMatches(c, m, t, ok, snap);
    }
    MatchesIgnoresTrace(c, Heard(c, m, Issued(c, t, ok, snap)), Moved(c, t, ok, snap), Local(c, t, ok, snap));
  }

  lemma MatchesIgnoresTrace(c: Engines, m: Monitor, t: Tx, t': Tx)
    requires t' == t.(trace := t'.trace) && Matches(c, m, t)
    ensures Matches(c, m, t')
  {
  }

  lemma LocalInv(c: Engines, t: Tx, ok: bool, snap: Uuid)
    requires TxInv(c, t) && Working(t)
    ensures TxInv(c, Local(c, t, ok, snap))
  {
    LocalStatus(c, t, ok, snap);
    LocalAccounted(c, t, ok, snap);
    StepMatches(c, Watch(c, t.trace), t, ok, snap);
    WatchNext(c, t.trace, Issued(c, t, ok, snap));
  }

  lemma NextInv(c: Engines, t: Tx, blocked: bool, ok: bool, snap: Uuid)
    requires TxInv(c, t) && !t.pc.Idle? && !t.pc.Refused?
    ensures TxInv(c, Next(c, t, blocked, ok, snap))
  {
    hide TxInv;
    if t.pc.Prepare? {
      GatedInv(c, t, blocked);
    } else {
      LocalInv(c, t, ok, snap);
    }
  }

  // ---------------------------------------------------------------- what one step shows the others

  /** The key that `buffer_vector_upsert` has pushed but not yet told the coordinator about. */
  function Unextended(t: Tx): seq<string> {
    if t.pc.Extend? then [t.pc.key] else []
  }

  lemma EnteredOutline(c: Engines, t: Tx, request: Request)
    requires TxInv(c, t) && t.pc.Idle?
    ensures var t' := Entered(t, request);
            && PlaceOf(t') == PlaceOf(t)
            && t'.session == t.session && t'.applied == t.applied
            && !InFlight(t) && !InFlight(t')
            && Ids(t'.buffered) == Ids(t.buffered) + Unextended(t') && Unextended(t) == []
            && (Left(t) ==> t' == t)
  {
  }

  /** What a transaction in the middle of a request is known to be. */
  lemma Standing(c: Engines, t: Tx)
    requires TxInv(c, t)
    ensures t.pc.BeginRegister? ==> t.buffered == []
    ensures !t.pc.Extend? ==> Unextended(t) == []
  {
    hide Traced;
  }

  /** The place that the step of `t` leads to. */
  function PlaceAfter(t: Tx): Place {
    match t.pc
    case BeginRegister => RegisteredOnly
    case BeginInsert => Tabled
    case Deregister => ListedOnly
    case Remove => Gone
    case _ => PlaceOf(t)
  }

  lemma NextPlace(c: Engines, t: Tx, blocked: bool, ok: bool, snap: Uuid)
    requires TxInv(c, t) && !t.pc.Idle? && !t.pc.Refused?
    ensures PlaceOf(Next(c, t, blocked, ok, snap)) == PlaceAfter(t)
  {
    if t.pc.Prepare? {
      GatedPlace(c, t, blocked);
    } else {
      MovedPlace(c, t, ok, snap);
    }
    hide TxInv, PlaceAfter, Gated, Moved, Issued;
  }

  lemma GatedPlace(c: Engines, t: Tx, blocked: bool)
    requires StatusFits(t) && t.pc.Prepare?
    ensures PlaceOf(Gated(c, t, blocked)) == PlaceAfter(t)
  {
  }

  lemma MovedPlace(c: Engines, t: Tx, ok: bool, snap: Uuid)
    requires StatusFits(t) && Working(t)
    ensures PlaceOf(Local(c, t, ok, snap)) == PlaceAfter(t)
  {
    hide Issued;
  }

  lemma NextWrites(c: Engines, t: Tx, blocked: bool, ok: bool, snap: Uuid)
    requires !t.pc.Idle? && !t.pc.Refused?
    ensures var t' := Next(c, t, blocked, ok, snap);
            t'.session == t.session && t'.buffered == t.buffered && Unextended(t') == []
  {
    hide Issued, Moved;
  }

  lemma NextFlight(c: Engines, t: Tx, blocked: bool, ok: bool, snap: Uuid)
    requires TxInv(c, t) && !t.pc.Idle? && !t.pc.Refused?
    ensures var t' := Next(c, t, blocked, ok, snap);
            && (InFlight(t') ==> InFlight(t) || (t.pc.Prepare? && !blocked && t'.applied == []))
            && (InFlight(t) ==> (InFlight(t') || t.pc.Deregister?) && !t.pc.Extend?)
            && t'.applied == (if t.pc.Upsert? && t.pc.rest != [] && ok then t.applied + [t.pc.rest[0]] else t.applied)
            && (t.pc.Upsert? ==> InFlight(t) && (t.pc.rest != [] ==> t.pc.rest[0] in t.buffered))
            && (t.applied != [] && Registered(t) ==> InFlight(t))
  {
    hide Traced, Issued, Written, Ids;
  }

  // ---------------------------------------------------------------- the shared tables

  ghost predicate AllTx(c: Engines, s: State) {
    forall tx | tx in s.txs :: TxInv(c, s.txs[tx])
  }

  /** A simple transaction is registered from `begin_simple` until its commit has passed the gate. */
  predicate Enrolled(t: Simple) {
    t.registered && (t.pc.Open? || t.pc.Checked?)
  }

  ghost predicate MapFits(s: State) {
    forall tx :: tx in s.active <==> tx in s.txs && Listed(s.txs[tx])
  }

  ghost predicate RegistryFits(s: State) {
    && s.txs.Keys !! s.simples.Keys
    && forall tx :: tx in s.registry <==>
         (tx in s.txs && Registered(s.txs[tx])) || (tx in s.simples && Enrolled(s.simples[tx]))
  }

  ghost predicate WriteSetsFit(s: State) {
    && (forall tx | tx in s.registry && tx in s.txs ::
          s.registry[tx].writeSet + Unextended(s.txs[tx]) == Ids(s.txs[tx].buffered))
    && (forall tx | tx in s.registry && tx in s.simples :: s.registry[tx].writeSet == [])
  }

  /** The manager's map, the coordinator's table and the transactions' records agree. */
  ghost predicate Tables(s: State) {
    MapFits(s) && RegistryFits(s) && WriteSetsFit(s)
  }

  lemma AllTxStep(c: Engines, s: State, l: Label)
    requires AllTx(c, s) && Enabled(s, l)
    ensures AllTx(c, Apply(c, s, l))
  {
    hide TxInv;
    match l
    case Start(_, session, now) => NewTxInv(c, session, now);
    case Enter(tx, request) => EnteredInv(c, s.txs[tx], request);
    case Advance(tx, ok, snap) => NextInv(c, s.txs[tx], Blocked(s.registry, tx, []), ok, snap);
    case _ =>
  }

  lemma MapAdvance(c: Engines, s: State, tx: Uuid, ok: bool, snap: Uuid)
    requires AllTx(c, s) && MapFits(s) && Enabled(s, Advance(tx, ok, snap))
    ensures MapFits(Advanced(c, s, tx, ok, snap))
  {
    hide TxInv, StatusFits, Next, Blocked, RegistryAfter, StoreAfter, LogAfter, RetiredAfter;
    NextPlace(c, s.txs[tx], Blocked(s.registry, tx, []), ok, snap);
  }

  lemma RegistryAdvance(c: Engines, s: State, tx: Uuid, ok: bool, snap: Uuid)
    requires AllTx(c, s) && RegistryFits(s) && Enabled(s, Advance(tx, ok, snap))
    ensures RegistryFits(Advanced(c, s, tx, ok, snap))
  {
    hide TxInv, StatusFits, Next, Blocked, ActiveAfter, StoreAfter, LogAfter, RetiredAfter;
    Standing(c, s.txs[tx]);
    NextPlace(c, s.txs[tx], Blocked(s.registry, tx, []), ok, snap);
  }

  lemma WriteSetsAdvance(c: Engines, s: State, tx: Uuid, ok: bool, snap: Uuid)
    requires AllTx(c, s) && RegistryFits(s) && WriteSetsFit(s) && Enabled(s, Advance(tx, ok, snap))
    ensures WriteSetsFit(Advanced(c, s, tx, ok, snap))
  {
    hide TxInv, StatusFits, Next, Blocked, ActiveAfter, StoreAfter, LogAfter, RetiredAfter;
    Standing(c, s.txs[tx]);
    NextPlace(c, s.txs[tx], Blocked(s.registry, tx, []), ok, snap);
    NextWrites(c, s.txs[tx], Blocked(s.registry, tx, []), ok, snap);
  }

  /** Replacing a transaction's record by one in the same place, with the same registered writes. */
  lemma TablesSame(s: State, tx: Uuid, t: Tx)
    requires Tables(s) && tx in s.txs && PlaceOf(t) == PlaceOf(s.txs[tx])
    requires Registered(t) ==>
               Ids(t.buffered) == Ids(s.txs[tx].buffered) + Unextended(t) && Unextended(s.txs[tx]) == []
    ensures Tables(s.(txs := s.txs[tx := t]))
  {
    assert (Registered(t) <==> Registered(s.txs[tx])) && (Listed(t) <==> Listed(s.txs[tx]));
    hide PlaceOf, Registered, Listed, Unextended, Ids, MapFits, RegistryFits, WriteSetsFit;
    MapSame(s, tx, t);
    WriteSetsSame(s, tx, t);
  }

  lemma MapSame(s: State, tx: Uuid, t: Tx)
    requires MapFits(s) && RegistryFits(s) && tx in s.txs
    requires (Registered(t) <==> Registered(s.txs[tx])) && (Listed(t) <==> Listed(s.txs[tx]))
    ensures MapFits(s.(txs := s.txs[tx := t])) && RegistryFits(s.(txs := s.txs[tx := t]))
  {
    hide Registered, Listed, Enrolled;
  }

  lemma WriteSetsSame(s: State, tx: Uuid, t: Tx)
    requires RegistryFits(s) && WriteSetsFit(s) && tx in s.txs && (Registered(t) <==> Registered(s.txs[tx]))
    requires Registered(t) ==>
               Ids(t.buffered) == Ids(s.txs[tx].buffered) + Unextended(t) && Unextended(s.txs[tx]) == []
    ensures WriteSetsFit(s.(txs := s.txs[tx := t]))
  {
    hide Registered, Unextended, Ids, Enrolled;
    if tx in s.registry {
      var writes := s.registry[tx].writeSet;
      assert Unextended(s.txs[tx]) == [] ==> writes + Unextended(s.txs[tx]) == writes;
    }
  }

  lemma TablesEnter(c: Engines, s: State, tx: Uuid, request: Request)
    requires AllTx(c, s) && Tables(s) && Enabled(s, Enter(tx, request))
    ensures Tables(Apply(c, s, Enter(tx, request)))
  {
    hide TxInv, PlaceOf, InFlight, Entered, Unextended, Tables, Ids;
    EnteredOutline(c, s.txs[tx], request);
    TablesSame(s, tx, Entered(s.txs[tx], request));
  }

  /** A simple transaction's record changes, and it is registered with an empty write set or not at all. */
  lemma TablesSimple(s: State, tx: Uuid, simple: Simple, registry: Registry)
    requires Tables(s) && tx !in s.txs
    requires registry - {tx} == s.registry - {tx} && (tx in registry <==> Enrolled(simple))
    requires tx in registry ==> registry[tx].writeSet == []
    ensures Tables(s.(simples := s.simples[tx := simple], registry := registry))
  {
    hide Registered, Listed, Unextended, Ids, Enrolled, MapFits, RegistryFits, WriteSetsFit;
    OthersTheSame(registry, s.registry, tx);
    SimpleInMap(s, tx, simple, registry);
    SimpleInRegistry(s, tx, simple, registry);
    SimpleWrites(s, tx, simple, registry);
  }

  lemma SimpleInMap(s: State, tx: Uuid, simple: Simple, registry: Registry)
    requires MapFits(s)
    ensures MapFits(s.(simples := s.simples[tx := simple], registry := registry))
  {
    hide Listed;
  }

  lemma SimpleInRegistry(s: State, tx: Uuid, simple: Simple, registry: Registry)
    requires RegistryFits(s) && tx !in s.txs && (tx in registry <==> Enrolled(simple))
    requires forall other | other != tx :: other in registry <==> other in s.registry
    ensures RegistryFits(s.(simples := s.simples[tx := simple], registry := registry))
  {
    hide Registered, Enrolled;
  }

  lemma SimpleWrites(s: State, tx: Uuid, simple: Simple, registry: Registry)
    requires WriteSetsFit(s) && tx !in s.txs && (tx in registry ==> registry[tx].writeSet == [])
    requires forall other | other != tx ::
               && (other in registry <==> other in s.registry)
               && (other in registry ==> registry[other] == s.registry[other])
    ensures WriteSetsFit(s.(simples := s.simples[tx := simple], registry := registry))
  {
    hide Unextended, Ids;
  }

  lemma OthersTheSame(a: Registry, b: Registry, tx: Uuid)
    requires a - {tx} == b - {tx}
    ensures forall other | other != tx :: (other in a <==> other in b) && (other in a ==> a[other] == b[other])
  {
    forall other | other != tx
      ensures (other in a <==> other in b) && (other in a ==> a[other] == b[other])
    {
      assert (other in a <==> other in a - {tx}) && (other in b <==> other in b - {tx});
      assert other in a ==> a[other] == (a - {tx})[other] == b[other];
    }
  }

  lemma TablesStart(s: State, tx: Uuid, t: Tx)
    requires Tables(s) && tx !in s.txs && tx !in s.simples && !Registered(t) && !Listed(t)
    ensures Tables(s.(txs := s.txs[tx := t]))
  {
    hide PlaceOf, Registered, Listed, Unextended, Ids, Enrolled;
    var s' := s.(txs := s.txs[tx := t]);
    assert MapFits(s') by { hide WriteSetsFit, RegistryFits; }
    assert RegistryFits(s') by { hide WriteSetsFit, MapFits; }
  }

  lemma TablesAdvanceSimple(c: Engines, s: State, tx: Uuid)
    requires Tables(s) && Enabled(s, AdvanceSimple(tx))
    ensures Tables(AdvancedSimple(s, tx))
  {
    var t := s.simples[tx];
    assert tx !in s.txs && (tx in s.registry <==> Enrolled(t)) by { hide PlaceOf, Registered; }
    assert tx in s.registry ==> s.registry[tx].writeSet == [] by { hide RegistryFits, MapFits, Unextended, Ids; }
    hide Tables, Blocked;
    match t.pc {
      case Open => TablesSimple(s, tx, t.(pc := Checked), s.registry);
      case Checked => TablesSimple(s, tx, t.(pc := Unregistered), s.registry - {tx});
      case _ => TablesSimple(s, tx, t.(pc := Closed), s.registry);
    }
    if t.pc.Unregistered? {
      TablesIgnoreLog(s.(simples := s.simples[tx := t.(pc := Closed)]), AdvancedSimple(s, tx).log);
    }
  }

  lemma TablesIgnoreLog(s: State, log: seq<LogEntry>)
    requires Tables(s)
    ensures Tables(s.(log := log))
  {
  }

  lemma TablesStep(c: Engines, s: State, l: Label)
    requires AllTx(c, s) && Tables(s) && Enabled(s, l)
    ensures Tables(Apply(c, s, l))
  {
    match l {
      case Enter(tx, request) =>
        TablesEnter(c, s, tx, request);
      case Advance(tx, ok, snap) =>
        hide TxInv, Advanced;
        MapAdvance(c, s, tx, ok, snap);
        RegistryAdvance(c, s, tx, ok, snap);
        WriteSetsAdvance(c, s, tx, ok, snap);
      case Start(tx, session, now) =>
        hide TxInv, Tables;
        TablesStart(s, tx, NewTx(session, now));
      case AdvanceSimple(tx) =>
        hide TxInv, Tables, AdvancedSimple;
        TablesAdvanceSimple(c, s, tx);
      case StartSimple(tx, session, now) =>
        hide TxInv, Tables;
        TablesSimple(s, tx, Simple(session, [], true, Open), s.registry[tx := TxRecord(session, [], now)]);
      case Declare(tx, session, writeSet) =>
        TablesDeclare(s, tx, session, writeSet);
      case Reopen(tx) =>
        TablesReopen(s, tx);
    }
  }

  lemma TablesDeclare(s: State, tx: Uuid, session: Uuid, writeSet: seq<string>)
    requires Tables(s) && tx in s.simples
    ensures Tables(s.(simples := s.simples[tx := s.simples[tx].(session := session, writeSet := writeSet)]))
  {
    hide PlaceOf, Registered, Listed, Unextended, Ids;
    TablesSimple(s, tx, s.simples[tx].(session := session, writeSet := writeSet), s.registry);
  }

  lemma TablesReopen(s: State, tx: Uuid)
    requires Tables(s) && Enabled(s, Reopen(tx))
    ensures Tables(s.(simples := s.simples[tx := Simple(0, [], false, Open)]))
  {
    hide PlaceOf, Registered, Listed, Unextended, Ids;
    TablesSimple(s, tx, Simple(0, [], false, Open), s.registry);
  }

  // ---------------------------------------------------------------- concurrent commits

  /** Transactions between `prepare` and deregistration write different records. */
  ghost predicate Disjoint(s: State) {
    forall a, b | a in s.txs && b in s.txs && a != b && InFlight(s.txs[a]) && InFlight(s.txs[b]) ::
      !Overlap(Ids(s.txs[a].buffered), Ids(s.txs[b].buffered))
  }

  lemma DisjointAdvance(c: Engines, s: State, tx: Uuid, ok: bool, snap: Uuid)
    requires AllTx(c, s) && Tables(s) && Disjoint(s) && Enabled(s, Advance(tx, ok, snap))
    ensures Disjoint(Advanced(c, s, tx, ok, snap))
  {
    hide TxInv, InFlight, PlaceOf, Next, ActiveAfter, StoreAfter, LogAfter, RetiredAfter, MapFits;
    var t, s' := s.txs[tx], Advanced(c, s, tx, ok, snap);
    var blocked := Blocked(s.registry, tx, []);
    NextFlight(c, t, blocked, ok, snap);
    NextWrites(c, t, blocked, ok, snap);
    if InFlight(s'.txs[tx]) && !InFlight(t) {
      forall other | other in s.txs && other != tx && InFlight(s.txs[other])
        ensures !Overlap(Ids(t.buffered), Ids(s.txs[other].buffered))
      {
        GateSeparates(c, s, tx, other);
      }
    }
  }

  /** Passing the gate means writing nothing that a transaction already past it writes. */
  lemma GateSeparates(c: Engines, s: State, tx: Uuid, other: Uuid)
    requires AllTx(c, s) && Tables(s)
    requires tx in s.txs && other in s.txs && tx != other
    requires s.txs[tx].pc.Prepare? && InFlight(s.txs[other])
    requires !Blocked(s.registry, tx, [])
    ensures !Overlap(Ids(s.txs[tx].buffered), Ids(s.txs[other].buffered))
  {
    hide Traced;
    var t, o := s.txs[tx], s.txs[other];
    assert TxInv(c, t) && TxInv(c, o);
    assert !Blocks(s.registry, other, tx, []);
    assert s.registry[tx].writeSet + [] == Ids(t.buffered);
    assert s.registry[other].writeSet + [] == Ids(o.buffered);
    assert s.registry[other].writeSet == Ids(o.buffered);
  }

  lemma DisjointStep(c: Engines, s: State, l: Label)
    requires AllTx(c, s) && Tables(s) && Disjoint(s) && Enabled(s, l)
    ensures Disjoint(Apply(c, s, l))
  {
    hide TxInv, Advanced, Entered, Tables, Overlap, Blocked;
    match l
    case Enter(tx, request) => EnteredOutline(c, s.txs[tx], request);
    case Advance(tx, ok, snap) => DisjointAdvance(c, s, tx, ok, snap);
    case _ =>
  }
}
