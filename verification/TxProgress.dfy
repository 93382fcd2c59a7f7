/**
 * How transactions get on with each other over a run: every request comes to an end by steps of its
 * own, and two open transactions whose write sets have met keep each other out until one is undone.
 */
module TxProgress {
  import opened Wrappers
  import opened TxTypes
  import opened Coordinator
  import opened TxProtocol
  import opened TxInvariant
  import opened TxSafety
  import opened TxTheorems

  // ---------------------------------------------------------------- every request ends

  /** The most steps that the request which holds the lock of `t` can still take. */
  function StepsLeft(t: Tx): nat {
    match t.pc
    case BeginCore => 4
    case BeginSnapshot => 3
    case BeginRegister => 2
    case BeginInsert | Extend(_) | AppendLog => 1
    case Refused | Idle => 0
    case Prepare => |t.buffer| + 7
    case Upsert(rest) => |rest| + 6
    case CommitCore => 5
    case DropSnapshot | UndoCore(_) => 4
    case UndoSnapshot(_) => 3
    case Deregister => if t.status == Committed then 3 else 2
    case Remove => if t.status == Committed then 2 else 1
  }

  predicate Published(t: Tx) {
    !Opening(t) && !t.pc.Refused?
  }

  lemma NextCosts(c: Engines, t: Tx, blocked: bool, ok: bool, snap: Uuid)
    requires StatusFits(t) && !t.pc.Idle? && !t.pc.Refused?
    ensures StepsLeft(Next(c, t, blocked, ok, snap)) < StepsLeft(t)
    ensures Published(t) ==> Published(Next(c, t, blocked, ok, snap))
  {
    if t.pc.Prepare? {
      hide Local;
    } else {
      MovedCosts(c, t, ok, snap);
      hide Moved, Issued, StatusFits;
    }
  }

  lemma MovedCosts(c: Engines, t: Tx, ok: bool, snap: Uuid)
    requires StatusFits(t) && Working(t)
    ensures StepsLeft(Moved(c, t, ok, snap)) < StepsLeft(t)
    ensures Published(t) ==> Published(Moved(c, t, ok, snap))
  {
  }

  /** In `labels` nobody obtains the lock of `tx` anew. */
  predicate NoRequest(labels: seq<Label>, tx: Uuid) {
    forall i | 0 <= i < |labels| :: !(labels[i].Enter? && labels[i].tx == tx)
  }

  lemma CostStep(c: Engines, s: State, l: Label, tx: Uuid)
    requires AllTx(c, s) && Enabled(s, l) && tx in s.txs && !(l.Enter? && l.tx == tx)
    ensures tx in Apply(c, s, l).txs
    ensures StepsLeft(Apply(c, s, l).txs[tx]) + (if l.Advance? && l.tx == tx then 1 else 0) <= StepsLeft(s.txs[tx])
    ensures Published(s.txs[tx]) ==> Published(Apply(c, s, l).txs[tx])
  {
    hide StepsLeft, Published, Next, Entered, AdvancedSimple, Blocked, StatusFits, Accounted, Traced;
    match l {
      case Advance(other, ok, snap) =>
        assert TxInv(c, s.txs[other]);
        NextCosts(c, s.txs[other], Blocked(s.registry, other, []), ok, snap);
      case _ =>
    }
  }

  lemma {:induction false} StepsRunOut(
    c: Engines, base: Store, labels: seq<Label>, s: State, tx: Uuid, more: seq<Label>, s': State)
    requires Reached(c, base, labels, s) && Reached(c, base, labels + more, s')
    requires tx in s.txs && NoRequest(more, tx)
    ensures tx in s'.txs && OwnSteps(more, tx) + StepsLeft(s'.txs[tx]) <= StepsLeft(s.txs[tx])
    ensures Published(s.txs[tx]) ==> Published(s'.txs[tx])
    decreases |more|
  {
    hide Inv, AllTx, Tables, LogFits, Enabled, Apply, StepsLeft, Published;
    if more == [] {
      assert labels + more == labels;
    } else {
      var fewer, l := more[..|more| - 1], more[|more| - 1];
      assert (labels + more)[..|labels + more| - 1] == labels + fewer;
      var mid := Run(c, Initial(base), labels + fewer).value;
      StepsRunOut(c, base, labels, s, tx, fewer, mid);
      ReachedIsSound(c, base, labels + fewer, mid);
      CostStep(c, mid, l, tx);
    }
  }

  /** The most steps that a request takes once it has obtained the lock of `t`. */
  function Bound(t: Tx, request: Request): nat {
    match request
    case Buffer(_) => 1
    case Commit => |t.buffer| + 7
    case Rollback => 4
  }

  lemma EnteredCosts(t: Tx, request: Request)
    requires t.pc.Idle?
    ensures StepsLeft(Entered(t, request)) <= Bound(t, request) && Published(Entered(t, request))
  {
  }

  lemma CostMeans(s: State, tx: Uuid)
    requires tx in s.txs
    ensures StepsLeft(s.txs[tx]) == 0 <==> s.txs[tx].pc.Idle? || s.txs[tx].pc.Refused?
    ensures StepsLeft(s.txs[tx]) != 0 ==> forall ok, snap :: Enabled(s, Advance(tx, ok, snap))
    ensures Published(s.txs[tx]) ==> !s.txs[tx].pc.Refused?
  {
  }

  /**
   * Whoever obtains a transaction's lock gives it back, in every run and whatever the engines answer:
   * until then it can take its next step without waiting for anybody, and it takes at most one step
   * to buffer, four to roll back, and seven more than there are buffered operations to commit.
   */
  lemma EveryRequestEnds(
    c: Engines, base: Store, labels: seq<Label>, s: State, tx: Uuid, request: Request, more: seq<Label>, s': State)
    requires Reached(c, base, labels, s) && tx in s.txs && s.txs[tx].pc.Idle?
    requires Reached(c, base, labels + [Enter(tx, request)] + more, s') && NoRequest(more, tx)
    ensures tx in s'.txs && OwnSteps(more, tx) <= Bound(s.txs[tx], request)
    ensures !s'.txs[tx].pc.Idle? ==>
              && OwnSteps(more, tx) < Bound(s.txs[tx], request)
              && forall ok, snap :: Enabled(s', Advance(tx, ok, snap))
  {
    hide Run, Entered, StepsLeft, Published, Bound, Apply;
    var l := Enter(tx, request);
    var mid := Apply(c, s, l);
    RunOne(c, Initial(base), labels, l, s, mid);
    EnteredAt(c, s, tx, request);
    EnteredCosts(s.txs[tx], request);
    StepsRunOut(c, base, labels + [l], mid, tx, more, s');
    CostMeans(s', tx);
  }

  lemma NewCosts(session: Uuid, now: nat)
    ensures StepsLeft(NewTx(session, now)) == 4
  {
  }

  /** So does `begin`, which publishes the transaction or refuses it within four steps. */
  lemma EveryBeginEnds(
    c: Engines, base: Store, labels: seq<Label>, s: State, tx: Uuid, session: Uuid, now: nat,
    more: seq<Label>, s': State)
    requires Reached(c, base, labels, s) && Enabled(s, Start(tx, session, now))
    requires Reached(c, base, labels + [Start(tx, session, now)] + more, s') && NoRequest(more, tx)
    ensures tx in s'.txs && OwnSteps(more, tx) <= 4
    ensures !s'.txs[tx].pc.Idle? && !s'.txs[tx].pc.Refused? ==>
              OwnSteps(more, tx) < 4 && forall ok, snap :: Enabled(s', Advance(tx, ok, snap))
  {
    hide Run, NewTx, StepsLeft, Published;
    var l := Start(tx, session, now);
    var mid := Apply(c, s, l);
    RunOne(c, Initial(base), labels, l, s, mid);
    NewCosts(session, now);
    StepsRunOut(c, base, labels + [l], mid, tx, more, s');
    CostMeans(s', tx);
  }

  // ---------------------------------------------------------------- write sets over a run

  /** How far a transaction has come through the shared tables. */
  function Progress(t: Tx): nat {
    match PlaceOf(t)
    case Nowhere => 0
    case RegisteredOnly => 1
    case Tabled => 2
    case ListedOnly => 3
    case Gone => 4
  }

  lemma NextProgress(c: Engines, t: Tx, blocked: bool, ok: bool, snap: Uuid)
    requires TxInv(c, t) && !t.pc.Idle? && !t.pc.Refused?
    ensures Progress(t) <= Progress(Next(c, t, blocked, ok, snap))
  {
    NextPlace(c, t, blocked, ok, snap);
    hide Next, Traced, Accounted;
  }

  lemma EnteredProgress(c: Engines, t: Tx, request: Request)
    requires TxInv(c, t) && t.pc.Idle?
    ensures Progress(Entered(t, request)) == Progress(t)
  {
    EnteredOutline(c, t, request);
    hide TxInv, Entered, PlaceOf;
  }

  lemma ProgressStep(c: Engines, s: State, l: Label, tx: Uuid)
    requires AllTx(c, s) && Enabled(s, l) && tx in s.txs
    ensures tx in Apply(c, s, l).txs && Progress(s.txs[tx]) <= Progress(Apply(c, s, l).txs[tx])
  {
    hide Progress, Next, Entered, AdvancedSimple, Blocked, TxInv;
    match l {
      case Enter(other, request) => EnteredProgress(c, s.txs[other], request);
      case Advance(other, ok, snap) => NextProgress(c, s.txs[other], Blocked(s.registry, other, []), ok, snap);
      case _ =>
    }
  }

  lemma {:induction false} ProgressOnlyGrows(
    c: Engines, base: Store, labels: seq<Label>, s: State, more: seq<Label>, s': State, tx: Uuid)
    requires Reached(c, base, labels, s) && Reached(c, base, labels + more, s') && tx in s.txs
    ensures tx in s'.txs && Progress(s.txs[tx]) <= Progress(s'.txs[tx])
    decreases |more|
  {
    hide Inv, AllTx, Tables, LogFits, Enabled, Apply, Progress;
    if more == [] {
      assert labels + more == labels;
    } else {
      var fewer, l := more[..|more| - 1], more[|more| - 1];
      assert (labels + more)[..|labels + more| - 1] == labels + fewer;
      var mid := Run(c, Initial(base), labels + fewer).value;
      ProgressOnlyGrows(c, base, labels, s, fewer, mid, tx);
      ReachedIsSound(c, base, labels + fewer, mid);
      ProgressStep(c, mid, l, tx);
    }
  }

  lemma RegisteredMeans(s: State, tx: Uuid)
    requires Tables(s) && tx in s.txs
    ensures tx in s.registry <==> 1 <= Progress(s.txs[tx]) <= 2
  {
    hide WriteSetsFit, MapFits;
  }

  /** A transaction that is registered before and after was registered throughout. */
  lemma RegisteredBetween(
    c: Engines, base: Store, labels: seq<Label>, s: State, some: seq<Label>, mid: State, l: Label, s': State, tx: Uuid)
    requires Reached(c, base, labels, s) && Reached(c, base, labels + some, mid) && Enabled(mid, l)
    requires s' == Apply(c, mid, l) && Reached(c, base, labels + some + [l], s')
    requires tx in s.txs && tx in s.registry && tx in s'.registry
    ensures tx in mid.txs && tx in mid.registry && tx in s'.txs
  {
    hide Inv, AllTx, Tables, LogFits, TxInv, Run, Enabled, Apply, Progress;
    ReachedIsSound(c, base, labels, s);
    ReachedIsSound(c, base, labels + some, mid);
    ReachedIsSound(c, base, labels + some + [l], s');
    ProgressOnlyGrows(c, base, labels, s, some, mid, tx);
    ProgressStep(c, mid, l, tx);
    RegisteredMeans(s, tx);
    RegisteredMeans(mid, tx);
    RegisteredMeans(s', tx);
  }

  lemma WritesStep(c: Engines, s: State, l: Label, tx: Uuid)
    requires AllTx(c, s) && Tables(s) && Enabled(s, l)
    requires tx in s.txs && tx in s.registry && tx in Apply(c, s, l).registry
    ensures s.registry[tx].writeSet <= Apply(c, s, l).registry[tx].writeSet
  {
    assert tx !in s.simples && !s.txs[tx].pc.BeginRegister? by { hide MapFits, WriteSetsFit, AllTx; }
    hide Tables, AllTx, Next, Entered, Blocked, ActiveAfter, LogAfter, StoreAfter, RetiredAfter, RegistryAfter;
    if l.Advance? {
      WritesAfter(s.registry, l.tx, s.txs[l.tx], tx);
    }
  }

  lemma WritesAfter(registry: Registry, other: Uuid, t: Tx, tx: Uuid)
    requires tx in registry && tx in RegistryAfter(registry, other, t) && (other == tx ==> !t.pc.BeginRegister?)
    ensures registry[tx].writeSet <= RegistryAfter(registry, other, t)[tx].writeSet
  {
  }

  /** While a transaction is registered its registered writes only grow, at their end. */
  lemma {:induction false} WritesOnlyGrow(
    c: Engines, base: Store, labels: seq<Label>, s: State, more: seq<Label>, s': State, tx: Uuid)
    requires Reached(c, base, labels, s) && Reached(c, base, labels + more, s')
    requires tx in s.txs && tx in s.registry && tx in s'.registry
    ensures s.registry[tx].writeSet <= s'.registry[tx].writeSet
    decreases |more|
  {
    hide Inv, AllTx, Tables, LogFits, Enabled, Apply;
    if more == [] {
      assert labels + more == labels;
    } else {
      var fewer, l := more[..|more| - 1], more[|more| - 1];
      assert (labels + more)[..|labels + more| - 1] == labels + fewer;
      assert labels + fewer + [l] == labels + more;
      var mid := Run(c, Initial(base), labels + fewer).value;
      RegisteredBetween(c, base, labels, s, fewer, mid, l, s', tx);
      WritesOnlyGrow(c, base, labels, s, fewer, mid, tx);
      ReachedIsSound(c, base, labels + fewer, mid);
      WritesStep(c, mid, l, tx);
    }
  }

  // ---------------------------------------------------------------- who keeps whom out

  lemma OverlapGrows(a: seq<string>, b: seq<string>, a': seq<string>, b': seq<string>)
    requires Overlap(a, b) && a <= a' && b <= b'
    ensures Overlap(a', b')
  {
    var k :| k in a && k in b;
    assert a' == a + a'[|a|..] && b' == b + b'[|b|..];
    assert k in a' && k in b';
  }

  /** Two registered transactions whose write sets have met block each other for as long as both stay. */
  lemma OverlapStays(
    c: Engines, base: Store, labels: seq<Label>, s: State, more: seq<Label>, s': State, a: Uuid, b: Uuid)
    requires Reached(c, base, labels, s) && Reached(c, base, labels + more, s')
    requires a != b && a in s.txs && b in s.txs && a in s.registry && b in s.registry
    requires Overlap(s.registry[a].writeSet, s.registry[b].writeSet)
    requires a in s'.registry && b in s'.registry
    ensures Blocks(s'.registry, a, b, []) && Blocks(s'.registry, b, a, [])
  {
    hide Run, Overlap, Blocks;
    WritesOnlyGrow(c, base, labels, s, more, s', a);
    WritesOnlyGrow(c, base, labels, s, more, s', b);
    OverlapGrows(
      s.registry[a].writeSet, s.registry[b].writeSet, s'.registry[a].writeSet, s'.registry[b].writeSet);
    OverlapBlocks(s'.registry, b, a);
    BlockingIsSymmetric(s'.registry, a, b);
  }

  lemma NextPrepared(c: Engines, t: Tx, blocked: bool, ok: bool, snap: Uuid)
    ensures Next(c, t, blocked, ok, snap).prepared == (t.prepared || (t.pc.Prepare? && !blocked))
  {
    hide Issued, Moved;
  }

  lemma EnteredPrepared(t: Tx, request: Request)
    ensures Entered(t, request).prepared == t.prepared
  {
  }

  lemma PreparedStep(c: Engines, s: State, l: Label, tx: Uuid)
    requires Enabled(s, l) && tx in s.txs
    ensures tx in Apply(c, s, l).txs
    ensures Apply(c, s, l).txs[tx].prepared != s.txs[tx].prepared ==>
              s.txs[tx].pc.Prepare? && !Blocked(s.registry, tx, [])
  {
    hide Next, Entered, AdvancedSimple, Blocked;
    match l {
      case Enter(other, request) => EnteredPrepared(s.txs[other], request);
      case Advance(other, ok, snap) => NextPrepared(c, s.txs[other], Blocked(s.registry, other, []), ok, snap);
      case _ =>
    }
  }

  lemma BlockerBlocks(registry: Registry, other: Uuid, tx: Uuid)
    requires Blocks(registry, other, tx, [])
    ensures Blocked(registry, tx, [])
  {
  }

  /**
   * Once the write sets of two registered transactions have met, neither passes `prepare` in any
   * continuation in which both are still registered, whatever else either of them buffers.
   */
  lemma {:induction false} OverlapKeepsOut(
    c: Engines, base: Store, labels: seq<Label>, s: State, more: seq<Label>, s': State, a: Uuid, b: Uuid)
    requires Reached(c, base, labels, s) && Reached(c, base, labels + more, s')
    requires a != b && a in s.txs && b in s.txs && a in s.registry && b in s.registry
    requires Overlap(s.registry[a].writeSet, s.registry[b].writeSet)
    requires a in s'.registry && b in s'.registry
    ensures Blocked(s'.registry, a, []) && Blocked(s'.registry, b, [])
    ensures a in s'.txs && s'.txs[a].prepared == s.txs[a].prepared
    ensures b in s'.txs && s'.txs[b].prepared == s.txs[b].prepared
    decreases |more|
  {
    hide Overlap, Blocks, Blocked, Enabled, Apply;
    OverlapStays(c, base, labels, s, more, s', a, b);
    BlockerBlocks(s'.registry, a, b);
    BlockerBlocks(s'.registry, b, a);
    if more == [] {
      assert labels + more == labels;
    } else {
      var fewer, l := more[..|more| - 1], more[|more| - 1];
      assert (labels + more)[..|labels + more| - 1] == labels + fewer;
      assert labels + fewer + [l] == labels + more;
      var mid := Run(c, Initial(base), labels + fewer).value;
      RegisteredBetween(c, base, labels, s, fewer, mid, l, s', a);
      RegisteredBetween(c, base, labels, s, fewer, mid, l, s', b);
      OverlapKeepsOut(c, base, labels, s, fewer, mid, a, b);
      PreparedStep(c, mid, l, a);
      PreparedStep(c, mid, l, b);
    }
  }

  /** `t` was undone without ever having passed the gate. */
  predicate Withdrawn(t: Tx) {
    t.status == RolledBack && !t.prepared
  }

  lemma LeaveStep(c: Engines, s: State, l: Label, tx: Uuid)
    requires AllTx(c, s) && Enabled(s, l) && tx in s.txs && !s.txs[tx].prepared
    requires Progress(s.txs[tx]) <= 2 && tx in Apply(c, s, l).txs && Progress(Apply(c, s, l).txs[tx]) > 2
    ensures Withdrawn(Apply(c, s, l).txs[tx])
  {
    hide TxInv, Progress, Next, Entered, Blocked, AdvancedSimple, Withdrawn;
    match l {
      case Enter(other, request) =>
        EnteredProgress(c, s.txs[other], request);
      case Advance(other, ok, snap) =>
        if other == tx {
          NextLeaves(c, s.txs[tx], Blocked(s.registry, tx, []), ok, snap);
        }
      case _ =>
    }
  }

  lemma NextLeaves(c: Engines, t: Tx, blocked: bool, ok: bool, snap: Uuid)
    requires TxInv(c, t) && !t.pc.Idle? && !t.pc.Refused? && !t.prepared && Progress(t) <= 2
    ensures Progress(Next(c, t, blocked, ok, snap)) > 2 ==> Withdrawn(Next(c, t, blocked, ok, snap))
  {
    NextPlace(c, t, blocked, ok, snap);
    hide Traced, Issued;
    if !t.pc.Deregister? {
      hide Next, Accounted;
    }
  }

  lemma WithdrawnStep(c: Engines, s: State, l: Label, tx: Uuid)
    requires AllTx(c, s) && Enabled(s, l) && tx in s.txs && Withdrawn(s.txs[tx])
    ensures tx in Apply(c, s, l).txs && Withdrawn(Apply(c, s, l).txs[tx])
  {
    assert !s.txs[tx].pc.Prepare? by { assert TxInv(c, s.txs[tx]); }
    StepMovesForward(c, s, l, tx);
    PreparedStep(c, s, l, tx);
    hide Apply, AllTx, Enabled;
  }

  /**
   * And only an undoing parts them: of two such transactions one that had not passed the gate can leave
   * the coordinator before the other only by being rolled back, having written nothing.
   */
  lemma {:induction false} OnlyUndoingParts(
    c: Engines, base: Store, labels: seq<Label>, s: State, more: seq<Label>, s': State, a: Uuid, b: Uuid)
    requires Reached(c, base, labels, s) && Reached(c, base, labels + more, s')
    requires a != b && a in s.txs && b in s.txs && a in s.registry && b in s.registry
    requires Overlap(s.registry[a].writeSet, s.registry[b].writeSet) && !s.txs[a].prepared
    requires a !in s'.registry && b in s'.registry
    ensures a in s'.txs && s'.txs[a].status == RolledBack && !s'.txs[a].prepared && s'.txs[a].applied == []
    decreases |more|
  {
    assert labels + [] == labels;
    if more == [] {
      assert false;
    } else {
      var fewer, l := more[..|more| - 1], more[|more| - 1];
      assert (labels + more)[..|labels + more| - 1] == labels + fewer;
      assert labels + fewer + [l] == labels + more;
      var mid := Run(c, Initial(base), labels + fewer).value;
      hide Run, Overlap, Blocked, Enabled, Apply, Inv, AllTx, Tables, LogFits, TxInv, Progress;
      RegisteredBetween(c, base, labels, s, fewer, mid, l, s', b);
      ReachedIsSound(c, base, labels + fewer, mid);
      ReachedIsSound(c, base, labels + more, s');
      if a in mid.registry {
        OverlapKeepsOut(c, base, labels, s, fewer, mid, a, b);
        ProgressStep(c, mid, l, a);
        RegisteredMeans(mid, a);
        RegisteredMeans(s', a);
        LeaveStep(c, mid, l, a);
      } else {
        OnlyUndoingParts(c, base, labels, s, fewer, mid, a, b);
        WithdrawnStep(c, mid, l, a);
      }
      WithdrawnWrote(c, s'.txs[a]);
    }
  }

  lemma WithdrawnWrote(c: Engines, t: Tx)
    requires TxInv(c, t) && Withdrawn(t)
    ensures t.applied == []
  {
    hide Traced;
  }
}
