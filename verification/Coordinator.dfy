/** Write-set conflict detection between registered transactions. */
module Coordinator {
  import opened Wrappers
  import opened TxTypes

  /** What `tx` has registered; a transaction that is not registered has written nothing. */
  function WritesOf(registry: Registry, tx: Uuid): seq<string> {
    if tx in registry then registry[tx].writeSet else []
  }

  /** `other` is a registered transaction that stops `tx` from preparing. */
  predicate Blocks(registry: Registry, other: Uuid, tx: Uuid, additional: seq<string>) {
    other != tx && other in registry && Overlap(WritesOf(registry, tx) + additional, registry[other].writeSet)
  }

  predicate Blocked(registry: Registry, tx: Uuid, additional: seq<string>) {
    exists other | other in registry :: Blocks(registry, other, tx, additional)
  }

  class TransactionCoordinator {
    var active: Registry

    constructor ()
      ensures active == map[]
    {
      active := map[];
    }

    method Register(tx: Uuid, session: Uuid, now: nat)
      modifies this
      ensures active == old(active)[tx := TxRecord(session, [], now)]
    {
      active := active[tx := TxRecord(session, [], now)];
    }

    method ExtendWriteSet(tx: Uuid, keys: seq<string>)
      modifies this
      ensures active.Keys == old(active).Keys
      ensures forall t | t in active && t != tx :: active[t] == old(active)[t]
      ensures tx in active ==> active[tx] == old(active)[tx].(writeSet := old(active)[tx].writeSet + keys)
    {
      if tx in active {
        active := active[tx := active[tx].(writeSet := active[tx].writeSet + keys)];
      }
    }

    /** The phase-1 gate: succeeds exactly when nobody else blocks `tx`, and a failure names a blocker. */
    method Prepare(tx: Uuid, additional: seq<string>) returns (r: Result<(), Uuid>)
      ensures r.Ok? <==> !Blocked(active, tx, additional)
      ensures r.Err? ==> Blocks(active, r.error, tx, additional)
      ensures r.Ok? <==> forall other, key |
                other in active && other != tx && key in active[other].writeSet ::
                key !in additional && (tx in active ==> key !in active[tx].writeSet)
      ensures r.Err? ==>
                && r.error in active && r.error != tx
                && exists key :: key in active[r.error].writeSet
                                 && (key in additional || (tx in active && key in active[tx].writeSet))
    {
      BlockedByKeys(active, tx, additional);
      var mine := if tx in active then active[tx].writeSet else [];
      var rest := active.Keys;
      while rest != {}
        invariant rest <= active.Keys
        invariant forall other | other in active.Keys - rest :: !Blocks(active, other, tx, additional)
      {
        var other :| other in rest;
        rest := rest - {other};
        if other != tx && Overlap(mine + additional, active[other].writeSet) {
          return Err(other);
        }
      }
      return Ok(());
    }

    method Deregister(tx: Uuid)
      modifies this
      ensures active == old(active) - {tx}
    {
      active := active - {tx};
    }

    /**
     * The transactions open for longer than `threshold`, each once, with their sessions.  The clock is
     * read anew for each record: `now` is the time at which a transaction's record was looked at.
     */
    method StaleTransactions(now: Uuid -> nat, threshold: nat) returns (stale: seq<(Uuid, Uuid)>)
      ensures forall i | 0 <= i < |stale| ::
                stale[i].0 in active && active[stale[i].0].session == stale[i].1
                && now(stale[i].0) - active[stale[i].0].startedAt > threshold
      ensures forall tx | tx in active && now(tx) - active[tx].startedAt > threshold ::
                exists i :: 0 <= i < |stale| && stale[i].0 == tx
      ensures forall i, j | 0 <= i < j < |stale| :: stale[i].0 != stale[j].0
    {
      stale := [];
      var rest := active.Keys;
      while rest != {}
        invariant rest <= active.Keys
        invariant forall i | 0 <= i < |stale| ::
                    stale[i].0 in active.Keys - rest && active[stale[i].0].session == stale[i].1
                    && now(stale[i].0) - active[stale[i].0].startedAt > threshold
        invariant forall tx | tx in active.Keys - rest && now(tx) - active[tx].startedAt > threshold ::
                    exists i :: 0 <= i < |stale| && stale[i].0 == tx
        invariant forall i, j | 0 <= i < j < |stale| :: stale[i].0 != stale[j].0
      {
        var tx :| tx in rest;
        rest := rest - {tx};
        if now(tx) - active[tx].startedAt > threshold {
          ghost var before := stale;
          stale := stale + [(tx, active[tx].session)];
          assert stale[|before|].0 == tx;
          assert forall i | 0 <= i < |before| :: stale[i] == before[i];
        }
      }
    }
  }

  // ---------------------------------------------------------------- what the gate means

  /** Two transactions conflict exactly on a key that both write. */
  lemma BlocksByKey(registry: Registry, other: Uuid, tx: Uuid, additional: seq<string>)
    ensures Blocks(registry, other, tx, additional) <==>
            && other in registry && other != tx
            && exists key :: key in registry[other].writeSet
                             && (key in additional || (tx in registry && key in registry[tx].writeSet))
  {
  }

  lemma BlockedByKeys(registry: Registry, tx: Uuid, additional: seq<string>)
    ensures Blocked(registry, tx, additional) <==>
            exists other, key ::
              && other in registry && other != tx && key in registry[other].writeSet
              && (key in additional || (tx in registry && key in registry[tx].writeSet))
    ensures forall other | Blocks(registry, other, tx, additional) ::
              exists key :: key in registry[other].writeSet
                            && (key in additional || (tx in registry && key in registry[tx].writeSet))
  {
    hide Blocks;
    forall other
      ensures Blocks(registry, other, tx, additional) <==>
              && other in registry && other != tx
              && exists key :: key in registry[other].writeSet
                               && (key in additional || (tx in registry && key in registry[tx].writeSet))
    {
      BlocksByKey(registry, other, tx, additional);
    }
  }

  /** Between transactions that bring no additional writes, blocking is mutual. */
  lemma BlockingIsSymmetric(registry: Registry, a: Uuid, b: Uuid)
    requires a in registry && b in registry
    ensures Blocks(registry, a, b, []) <==> Blocks(registry, b, a, [])
  {
    assert registry[a].writeSet + [] == registry[a].writeSet;
    assert registry[b].writeSet + [] == registry[b].writeSet;
  }

  /**
   * Ending other transactions never blocks anyone: once those in `gone` are deregistered, `tx` is
   * blocked exactly when one of the rest blocked it before.
   */
  lemma DeregisteringUnblocks(registry: Registry, tx: Uuid, additional: seq<string>, gone: set<Uuid>)
    requires tx !in gone
    ensures Blocked(registry - gone, tx, additional)
       <==> exists other | other in registry && other !in gone :: Blocks(registry, other, tx, additional)
  {
    var after := registry - gone;
    assert WritesOf(after, tx) == WritesOf(registry, tx);
    forall other | other in registry && other !in gone
      ensures Blocks(after, other, tx, additional) <==> Blocks(registry, other, tx, additional)
    {
      assert after[other] == registry[other];
    }
  }

  /** A transaction whose registered write set is empty blocks nobody, whatever it writes privately. */
  lemma EmptyWriteSetNeverBlocks(registry: Registry, quiet: Uuid, tx: Uuid, additional: seq<string>)
    requires quiet in registry && registry[quiet].writeSet == []
    ensures !Blocks(registry, quiet, tx, additional)
  {
  }
}
