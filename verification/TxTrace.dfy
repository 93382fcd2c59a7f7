/**
 * The order in which one transaction may call the engines, stated on the calls alone.
 *
 * The monitor reads a trace and rejects it at the first call that the protocol forbids.
 */
module TxTrace {
  import opened Wrappers
  import opened TxTypes

  datatype CorePhase = NotBegun | Denied | InTx | CoreCommitted | CoreRolledBack

  datatype SnapPhase = NotAsked | Failed | Held(id: Uuid) | Deleted | Restored

  datatype Monitor =
    | Rejected
    | Seen(core: CorePhase, snap: SnapPhase, upserts: seq<VectorOp>, broken: bool)

  predicate Spent(snap: SnapPhase) {
    snap == Deleted || snap == Restored
  }

  /** The core phase of an open transaction, of a committed one and of an undone one. */
  function Running(c: Engines): CorePhase { if c.core then InTx else NotBegun }
  function Settled(c: Engines): CorePhase { if c.core then CoreCommitted else NotBegun }
  function Undone(c: Engines): CorePhase { if c.core then CoreRolledBack else NotBegun }

  /**
   * BEGIN first; a snapshot before any write; writes only in an open transaction and none after a
   * failure; COMMIT only after faultless writes; the snapshot deleted only once the core is
   * committed and restored only once it is rolled back.  An engine that is absent is never called.
   */
  function Observe(c: Engines, m: Monitor, e: Event): Monitor {
    if m.Rejected? then Rejected
    else match e.call
      case CoreBegin =>
        if c.core && m == Seen(NotBegun, NotAsked, [], false) then m.(core := if e.ok then InTx else Denied)
        else Rejected
      case SnapshotCreate(snap) =>
        if c.branch && m == Seen(Running(c), NotAsked, [], false) then m.(snap := if e.ok then Held(snap) else Failed)
        else Rejected
      case VectorUpsert(op) =>
        if c.vector && m.core == Running(c) && !m.broken && !Spent(m.snap) then
          if e.ok then m.(upserts := m.upserts + [op]) else m.(broken := true)
        else Rejected
      case CoreCommit =>
        if m.core == InTx && !m.broken && !Spent(m.snap) then
          if e.ok then m.(core := CoreCommitted) else m.(broken := true)
        else Rejected
      case SnapshotDelete(snap) =>
        if m.snap == Held(snap) && m.core == Settled(c) && !m.broken then m.(snap := Deleted) else Rejected
      case CoreRollback =>
        if m.core == InTx && !Spent(m.snap) then m.(core := CoreRolledBack) else Rejected
      case SnapshotRestore(snap) =>
        if m.snap == Held(snap) && m.core == Undone(c) then m.(snap := Restored) else Rejected
  }

  function Watch(c: Engines, trace: seq<Event>): Monitor {
    if trace == [] then Seen(NotBegun, NotAsked, [], false)
    else Observe(c, Watch(c, trace[..|trace| - 1]), trace[|trace| - 1])
  }

  /** The monitor after at most one more call. */
  function Heard(c: Engines, m: Monitor, calls: seq<Event>): Monitor {
    if calls == [] then m else Observe(c, m, calls[0])
  }

  lemma WatchNext(c: Engines, trace: seq<Event>, calls: seq<Event>)
    requires |calls| <= 1
    ensures Watch(c, trace + calls) == Heard(c, Watch(c, trace), calls)
  {
    if calls == [] {
      assert trace + calls == trace;
    } else {
      assert (trace + calls)[..|trace|] == trace;
    }
  }

  // ---------------------------------------------------------------- what an accepted trace contains

  function Count(trace: seq<Event>, of: Event -> bool): nat {
    if trace == [] then 0
    else Count(trace[..|trace| - 1], of) + (if of(trace[|trace| - 1]) then 1 else 0)
  }

  predicate CoreCommitOk(e: Event) { e.call.CoreCommit? && e.ok }
  predicate CoreRolledBackAt(e: Event) { e.call.CoreRollback? }
  predicate SnapshotAsked(e: Event) { e.call.SnapshotCreate? }
  predicate SnapshotTaken(e: Event) { e.call.SnapshotCreate? && e.ok }
  predicate SnapshotDropped(e: Event) { e.call.SnapshotDelete? }
  predicate SnapshotReturned(e: Event) { e.call.SnapshotRestore? }
  predicate PhaseTwoFault(e: Event) { (e.call.VectorUpsert? || e.call.CoreCommit?) && !e.ok }

  /** The upserts that succeeded, in order. */
  function Upserts(trace: seq<Event>): seq<VectorOp> {
    if trace == [] then []
    else
      var e := trace[|trace| - 1];
      Upserts(trace[..|trace| - 1]) + (if e.call.VectorUpsert? && e.ok then [e.call.op] else [])
  }

  function One(b: bool): nat { if b then 1 else 0 }

  /** What the monitor's states keep. */
  predicate Sane(c: Engines, m: Monitor) {
    && m.Seen?
    && (m.core == CoreCommitted ==> !m.broken && m.snap != Restored)
    && (m.snap == Deleted ==> !m.broken && m.core == Settled(c))
    && (m.snap == Restored ==> m.core == Undone(c))
  }

  /** Each accepted call moves the monitor's state by exactly what it counts for. */
  lemma ObserveCounts(c: Engines, m: Monitor, e: Event)
    requires Sane(c, m) && Observe(c, m, e).Seen?
    ensures var m' := Observe(c, m, e);
            && Sane(c, m')
            && One(m'.core == CoreCommitted) == One(m.core == CoreCommitted) + One(CoreCommitOk(e))
            && One(m'.core == CoreRolledBack) == One(m.core == CoreRolledBack) + One(CoreRolledBackAt(e))
            && One(m'.snap != NotAsked) == One(m.snap != NotAsked) + One(SnapshotAsked(e))
            && One(m'.snap.Held? || Spent(m'.snap)) == One(m.snap.Held? || Spent(m.snap)) + One(SnapshotTaken(e))
            && One(m'.snap == Deleted) == One(m.snap == Deleted) + One(SnapshotDropped(e))
            && One(m'.snap == Restored) == One(m.snap == Restored) + One(SnapshotReturned(e))
            && One(m'.broken) == One(m.broken) + One(PhaseTwoFault(e))
            && m'.upserts == m.upserts + if e.call.VectorUpsert? && e.ok then [e.call.op] else []
  {
  }

  /** The monitor's state is exactly a summary of how often each call occurs in the trace. */
  lemma {:induction false} MonitorCounts(c: Engines, trace: seq<Event>)
    requires Watch(c, trace).Seen?
    ensures var m := Watch(c, trace);
            && Count(trace, CoreCommitOk) == One(m.core == CoreCommitted)
            && Count(trace, CoreRolledBackAt) == One(m.core == CoreRolledBack)
            && Count(trace, SnapshotAsked) == One(m.snap != NotAsked)
            && Count(trace, SnapshotTaken) == One(m.snap.Held? || Spent(m.snap))
            && Count(trace, SnapshotDropped) == One(m.snap == Deleted)
            && Count(trace, SnapshotReturned) == One(m.snap == Restored)
            && Count(trace, PhaseTwoFault) == One(m.broken)
            && Upserts(trace) == m.upserts
            && Sane(c, m)
  {
    if trace != [] {
      hide Observe;
      var front := trace[..|trace| - 1];
      assert Watch(c, front).Seen? by { RejectedStays(c, Watch(c, front), trace[|trace| - 1]); }
      MonitorCounts(c, front);
      ObserveCounts(c, Watch(c, front), trace[|trace| - 1]);
      hide Sane, Spent, One;
      hide CoreCommitOk, CoreRolledBackAt;
      hide SnapshotAsked, SnapshotTaken, SnapshotDropped, SnapshotReturned, PhaseTwoFault;
    }
  }

  lemma RejectedStays(c: Engines, m: Monitor, e: Event)
    ensures m.Rejected? ==> Observe(c, m, e).Rejected?
  {
  }
}
