/**
 * The server's staged transactions as interleaved steps: the two front ends' critical sections on
 * the shared map of pending transactions, the engine calls of the requests that replay them, and
 * the engine's other writes.
 */
module StagedProtocol {
  import opened Wrappers
  import opened MemoryTypes
  import opened Scopes

  datatype Session = Session(token: string, scopes: seq<string>)

  datatype Pending = Pending(session: Session, staged: seq<StagedMemory>)

  datatype Pc = Authorise | BeginInner | Insert | CommitInner | RollbackInner | Flush | Ended(ok: bool)

  /**
   * A request that has taken a pending transaction out of the map to commit it or to roll it back.
   * `answers` records how the vector upserts went.
   */
  datatype Worker = Worker(
    session: Session, staged: seq<StagedMemory>, commit: bool, pc: Pc,
    drafts: seq<Draft>, upserts: seq<Entry>, answers: seq<bool>)

  /**
   * What an identifier was given to: the record of item `k` of a staged transaction, the record of a
   * request of its own, or the answer to the request that staged item `k`.
   */
  datatype Author = FromTx(tx: Uuid, k: nat) | Direct | Receipt(tx: Uuid, k: nat)

  /** `authors` and `ever` record the past: who was given an identifier, and what was ever committed. */
  datatype State = State(
    pending: map<Uuid, Pending>, workers: map<Uuid, Worker>, unindexed: map<Uuid, Entry>,
    core: map<Uuid, Record>, index: seq<Entry>,
    authors: map<Uuid, Author>, ever: map<Uuid, Record>)

  datatype Label =
    | Begin(tx: Uuid, session: Session)
    | Stage(tx: Uuid, item: StagedMemory, receipt: Option<Uuid>)
    | Take(tx: Uuid, commit: bool)
    | Advance(tx: Uuid, ok: bool, id: Uuid)
    | Remember(id: Uuid, item: StagedMemory)
    | IndexDirect(id: Uuid, ok: bool)
    | Update(id: Uuid, content: string)
    | Delete(id: Uuid)

  const INITIAL := State(map[], map[], map[], map[], [], map[], map[])

  /** Identifiers are fresh when they are given out. */
  predicate Enabled(s: State, l: Label) {
    match l
    case Begin(tx, _) => tx !in s.pending && tx !in s.workers
    case Stage(tx, _, receipt) => tx in s.pending && (receipt.Some? ==> receipt.value !in s.authors)
    case Take(tx, _) => tx in s.pending
    case Advance(tx, _, id) =>
      tx in s.workers && !s.workers[tx].pc.Ended? && (s.workers[tx].pc.Insert? ==> id !in s.authors)
    case Remember(id, _) => id !in s.authors
    case IndexDirect(id, _) => id in s.unindexed
    case Update(_, _) => true
    case Delete(_) => true
  }

  /** Where the replay stands once it has inserted all that it has inserted. */
  function Inserting(w: Worker): Pc {
    if |w.drafts| < |w.staged| then Insert else CommitInner
  }

  function Flushing(vector: bool, w: Worker): Pc {
    if vector && |w.answers| < |w.upserts| then Flush else Ended(true)
  }

  /** An error drops the engine's transaction, which undoes it. */
  function Moved(vector: bool, w: Worker, ok: bool, id: Uuid): Worker {
    match w.pc
    case Authorise => w.(pc := if ok && Accepts(w.session.scopes, WRITE_MEMORY) then BeginInner else Ended(false))
    case BeginInner => w.(pc := if !ok then Ended(false) else if w.commit then Inserting(w) else RollbackInner)
    case Insert =>
      if !ok || |w.drafts| >= |w.staged| then w.(pc := Ended(false))
      else
        var item := w.staged[|w.drafts|];
        var w' := w.(drafts := w.drafts + [Draft(id, item)], upserts := w.upserts + [EntryOf(id, item)]);
        w'.(pc := Inserting(w'))
    case CommitInner => w.(pc := if ok then Flushing(vector, w) else Ended(false))
    case RollbackInner => w.(pc := Ended(ok))
    case Flush =>
      var w' := w.(answers := w.answers + [ok]);
      w'.(pc := Flushing(vector, w'))
    case Ended(_) => w
  }

  function AuthorsAfter(authors: map<Uuid, Author>, tx: Uuid, w: Worker, ok: bool, id: Uuid): map<Uuid, Author> {
    if w.pc.Insert? && ok && |w.drafts| < |w.staged| then authors[id := FromTx(tx, |w.drafts|)] else authors
  }

  function CoreAfter(core: map<Uuid, Record>, w: Worker, ok: bool): map<Uuid, Record> {
    if w.pc.CommitInner? && ok then Records(core, w.drafts) else core
  }

  function IndexAfter(index: seq<Entry>, w: Worker, ok: bool): seq<Entry> {
    if w.pc.Flush? && ok && |w.answers| < |w.upserts| then index + [w.upserts[|w.answers|]] else index
  }

  function Apply(vector: bool, s: State, l: Label): State
    requires Enabled(s, l)
  {
    match l
    case Begin(tx, session) => s.(pending := s.pending[tx := Pending(session, [])])
    case Stage(tx, item, receipt) =>
      var p := s.pending[tx];
      s.(pending := s.pending[tx := p.(staged := p.staged + [item])],
         authors := if receipt.Some? then s.authors[receipt.value := Receipt(tx, |p.staged|)] else s.authors)
    case Take(tx, commit) =>
      var p := s.pending[tx];
      s.(pending := s.pending - {tx},
         workers := s.workers[tx := Worker(p.session, p.staged, commit, Authorise, [], [], [])])
    case Advance(tx, ok, id) =>
      var w := s.workers[tx];
      s.(workers := s.workers[tx := Moved(vector, w, ok, id)],
         authors := AuthorsAfter(s.authors, tx, w, ok, id),
         core := CoreAfter(s.core, w, ok), ever := CoreAfter(s.ever, w, ok),
         index := IndexAfter(s.index, w, ok))
    case Remember(id, item) =>
      s.(core := s.core[id := RecordOf(item)], ever := s.ever[id := RecordOf(item)], authors := s.authors[id := Direct],
         unindexed := if vector then s.unindexed[id := EntryOf(id, item)] else s.unindexed)
    case IndexDirect(id, ok) =>
      s.(unindexed := s.unindexed - {id}, index := s.index + (if ok then [s.unindexed[id]] else []))
    case Update(id, content) =>
      if id in s.core then s.(core := s.core[id := s.core[id].(content := content)]) else s
    case Delete(id) => s.(core := s.core - {id})
  }

  /** The state after the run `labels`, or `None` when some label was not enabled. */
  function Run(vector: bool, s: State, labels: seq<Label>): Option<State> {
    if labels == [] then Some(s)
    else
      var before := Run(vector, s, labels[..|labels| - 1]);
      var l := labels[|labels| - 1];
      if before.Some? && Enabled(before.value, l) then Some(Apply(vector, before.value, l)) else None
  }
}
