/** What every step keeps true of the staged transactions, of the core and of the vector index. */
module StagedInvariant {
  import opened Wrappers
  import opened MemoryTypes
  import opened Scopes
  import opened StagedProtocol

  /** The engine's transaction has been committed. */
  predicate Past(w: Worker) {
    w.pc.Flush? || (w.commit && w.pc == Ended(true))
  }

  /** The inserts follow the staged list, and the pending upserts follow the inserts. */
  predicate WorkerOk(vector: bool, w: Worker) {
    && |w.drafts| <= |w.staged|
    && (forall k | 0 <= k < |w.drafts| :: w.drafts[k].item == w.staged[k])
    && w.upserts == Entries(w.drafts)
    && |w.answers| <= |w.upserts|
    && (w.pc.Authorise? || w.pc.BeginInner? || !w.commit ==> w.drafts == [])
    && (w.pc.Insert? ==> |w.drafts| < |w.staged|)
    && (w.pc.Insert? || w.pc.CommitInner? || w.pc.Flush? ==> w.commit)
    && (w.pc.RollbackInner? ==> !w.commit)
    && (w.pc.CommitInner? || Past(w) ==> |w.drafts| == |w.staged|)
    && (w.pc.Flush? ==> vector && |w.answers| < |w.upserts|)
    && (w.pc == Ended(true) && w.commit ==> |w.answers| == if vector then |w.upserts| else 0)
    && (!Past(w) ==> w.answers == [])
    && ((!w.pc.Authorise? && !w.pc.Ended?) || w.drafts != [] || Past(w) ==> Accepts(w.session.scopes, WRITE_MEMORY))
  }

  ghost predicate AllOk(vector: bool, workers: map<Uuid, Worker>) {
    forall tx | tx in workers :: WorkerOk(vector, workers[tx])
  }

  /** `authors` and the workers' inserts say the same. */
  ghost predicate Authored(workers: map<Uuid, Worker>, authors: map<Uuid, Author>) {
    && (forall tx, k | tx in workers && 0 <= k < |workers[tx].drafts| ::
          workers[tx].drafts[k].id in authors && authors[workers[tx].drafts[k].id] == FromTx(tx, k))
    && (forall id | id in authors && authors[id].FromTx? ::
          var a := authors[id];
          a.tx in workers && a.k < |workers[a.tx].drafts| && workers[a.tx].drafts[a.k].id == id)
  }

  /** What was ever committed: the direct writes and the whole of each committed transaction. */
  ghost predicate History(workers: map<Uuid, Worker>, authors: map<Uuid, Author>, ever: map<Uuid, Record>) {
    && ever.Keys <= authors.Keys
    && (forall id | id in authors && authors[id].Direct? :: id in ever)
    && (forall id | id in ever :: !authors[id].Receipt?)
    && (forall tx, k | tx in workers && 0 <= k < |workers[tx].drafts| ::
          var draft := workers[tx].drafts[k];
          if Past(workers[tx]) then draft.id in ever && ever[draft.id] == RecordOf(draft.item) else draft.id !in ever)
  }

  ghost predicate Indexed(index: seq<Entry>, ever: map<Uuid, Record>) {
    forall i | 0 <= i < |index| :: index[i].id in ever && ever[index[i].id] == index[i].record
  }

  ghost predicate Waiting(unindexed: map<Uuid, Entry>, authors: map<Uuid, Author>, ever: map<Uuid, Record>) {
    forall id | id in unindexed ::
      && id in authors && authors[id].Direct? && id in ever
      && unindexed[id].id == id && ever[id] == unindexed[id].record
  }

  predicate IsFrom(authors: map<Uuid, Author>, id: Uuid, tx: Uuid) {
    id in authors && authors[id].FromTx? && authors[id].tx == tx
  }

  /** The entries of `index` that belong to the transaction `tx`. */
  function OfTx(index: seq<Entry>, authors: map<Uuid, Author>, tx: Uuid): seq<Entry> {
    if index == [] then []
    else
      var last := index[|index| - 1];
      OfTx(index[..|index| - 1], authors, tx) + (if IsFrom(authors, last.id, tx) then [last] else [])
  }

  /** The upserts of a worker that went through. */
  function Landed(w: Worker): seq<Entry> {
    if |w.answers| <= |w.upserts| then Selected(w.upserts, w.answers) else []
  }

  ghost predicate Flushed(workers: map<Uuid, Worker>, index: seq<Entry>, authors: map<Uuid, Author>) {
    forall tx :: OfTx(index, authors, tx) == if tx in workers then Landed(workers[tx]) else []
  }

  ghost predicate Inv(vector: bool, s: State) {
    && s.pending.Keys !! s.workers.Keys
    && AllOk(vector, s.workers)
    && Authored(s.workers, s.authors)
    && s.core.Keys <= s.ever.Keys
    && History(s.workers, s.authors, s.ever)
    && Indexed(s.index, s.ever)
    && Waiting(s.unindexed, s.authors, s.ever)
    && Flushed(s.workers, s.index, s.authors)
  }

  // ---------------------------------------------------------------- the lists and maps involved

  ghost predicate DistinctIds(drafts: seq<Draft>) {
    forall i, j | 0 <= i < j < |drafts| :: drafts[i].id != drafts[j].id
  }

  ghost predicate Drafted(drafts: seq<Draft>, id: Uuid) {
    exists k :: 0 <= k < |drafts| && drafts[k].id == id
  }

  lemma {:induction false} RecordsHasKeys(core: map<Uuid, Record>, drafts: seq<Draft>, id: Uuid)
    ensures id in Records(core, drafts) <==> id in core || Drafted(drafts, id)
    ensures id in core && !Drafted(drafts, id) ==> Records(core, drafts)[id] == core[id]
  {
    if drafts != [] {
      var front := drafts[..|drafts| - 1];
      RecordsHasKeys(core, front, id);
      assert Drafted(drafts, id) <==> Drafted(front, id) || drafts[|drafts| - 1].id == id;
    }
  }

  lemma {:induction false} RecordsHasValues(core: map<Uuid, Record>, drafts: seq<Draft>, k: nat)
    requires DistinctIds(drafts) && k < |drafts|
    ensures drafts[k].id in Records(core, drafts) && Records(core, drafts)[drafts[k].id] == RecordOf(drafts[k].item)
  {
    if k < |drafts| - 1 {
      RecordsHasValues(core, drafts[..|drafts| - 1], k);
      assert drafts[..|drafts| - 1][k] == drafts[k];
    }
  }

  lemma RecordsKeepOrder(core: map<Uuid, Record>, ever: map<Uuid, Record>, drafts: seq<Draft>)
    requires core.Keys <= ever.Keys
    ensures Records(core, drafts).Keys <= Records(ever, drafts).Keys
  {
    forall id ensures id in Records(core, drafts) ==> id in Records(ever, drafts) {
      RecordsHasKeys(core, drafts, id);
      RecordsHasKeys(ever, drafts, id);
    }
  }

  lemma EntriesNext(drafts: seq<Draft>, draft: Draft)
    ensures Entries(drafts + [draft]) == Entries(drafts) + [EntryOf(draft.id, draft.item)]
  {
  }

  lemma OfTxNext(index: seq<Entry>, authors: map<Uuid, Author>, tx: Uuid, entry: Entry)
    ensures OfTx(index + [entry], authors, tx)
         == OfTx(index, authors, tx) + if IsFrom(authors, entry.id, tx) then [entry] else []
  {
    assert (index + [entry])[..|index|] == index;
  }

  /** An identifier that the index does not know changes nobody's entries. */
  lemma {:induction false} OfTxFresh(index: seq<Entry>, authors: map<Uuid, Author>, id: Uuid, author: Author, tx: Uuid)
    requires forall i | 0 <= i < |index| :: index[i].id != id
    ensures OfTx(index, authors[id := author], tx) == OfTx(index, authors, tx)
  {
    if index != [] {
      OfTxFresh(index[..|index| - 1], authors, id, author, tx);
    }
  }

  // ---------------------------------------------------------------- one worker's step, table by table

  lemma MovedIsOk(vector: bool, w: Worker, ok: bool, id: Uuid)
    requires WorkerOk(vector, w) && !w.pc.Ended?
    ensures WorkerOk(vector, Moved(vector, w, ok, id))
  {
    hide Accepts;
    if w.pc.Insert? && ok {
      EntriesNext(w.drafts, Draft(id, w.staged[|w.drafts|]));
    }
  }

  lemma MovedMeans(vector: bool, w: Worker, ok: bool, id: Uuid)
    requires WorkerOk(vector, w) && !w.pc.Ended?
    ensures var w' := Moved(vector, w, ok, id);
            && (Past(w') <==> Past(w) || (w.pc.CommitInner? && ok))
            && w'.drafts == (if w.pc.Insert? && ok then w.drafts + [Draft(id, w.staged[|w.drafts|])] else w.drafts)
            && w'.answers == (if w.pc.Flush? then w.answers + [ok] else w.answers)
    ensures w.pc.Flush? ==>
              && |w.answers| < |w.drafts|
              && w.upserts[|w.answers|] == EntryOf(w.drafts[|w.answers|].id, w.drafts[|w.answers|].item)
    ensures w.pc.CommitInner? ==> !Past(w)
    ensures Landed(Moved(vector, w, ok, id)) == Landed(w) + if w.pc.Flush? && ok then [w.upserts[|w.answers|]] else []
  {
    hide Accepts;
    assert (w.answers + [ok])[..|w.answers|] == w.answers;
  }

  lemma AuthoredSame(workers: map<Uuid, Worker>, authors: map<Uuid, Author>, tx: Uuid, w: Worker)
    requires Authored(workers, authors) && tx in workers && w.drafts == workers[tx].drafts
    ensures Authored(workers[tx := w], authors)
  {
  }

  lemma AuthoredNext(
    workers: map<Uuid, Worker>, authors: map<Uuid, Author>, tx: Uuid, w: Worker, id: Uuid, item: StagedMemory)
    requires Authored(workers, authors) && tx in workers && id !in authors
    requires w.drafts == workers[tx].drafts + [Draft(id, item)]
    ensures Authored(workers[tx := w], authors[id := FromTx(tx, |workers[tx].drafts|)])
  {
  }

  lemma DraftsAreDistinct(workers: map<Uuid, Worker>, authors: map<Uuid, Author>, tx: Uuid)
    requires Authored(workers, authors) && tx in workers
    ensures DistinctIds(workers[tx].drafts)
  {
  }

  lemma HistorySame(
    workers: map<Uuid, Worker>, authors: map<Uuid, Author>, ever: map<Uuid, Record>, tx: Uuid, w: Worker)
    requires History(workers, authors, ever) && tx in workers
    requires w.drafts == workers[tx].drafts && (Past(w) <==> Past(workers[tx]))
    ensures History(workers[tx := w], authors, ever)
  {
  }

  lemma HistoryInsert(
    workers: map<Uuid, Worker>, authors: map<Uuid, Author>, ever: map<Uuid, Record>,
    tx: Uuid, w: Worker, id: Uuid, item: StagedMemory)
    requires History(workers, authors, ever) && tx in workers && id !in authors
    requires w.drafts == workers[tx].drafts + [Draft(id, item)] && !Past(w) && !Past(workers[tx])
    ensures History(workers[tx := w], authors[id := FromTx(tx, |workers[tx].drafts|)], ever)
  {
  }

  lemma HistoryCommit(
    workers: map<Uuid, Worker>, authors: map<Uuid, Author>, ever: map<Uuid, Record>, tx: Uuid, w: Worker)
    requires Authored(workers, authors) && History(workers, authors, ever) && tx in workers
    requires w.drafts == workers[tx].drafts && Past(w) && !Past(workers[tx])
    ensures History(workers[tx := w], authors, Records(ever, w.drafts))
    ensures forall id | id in ever :: id in Records(ever, w.drafts) && Records(ever, w.drafts)[id] == ever[id]
  {
    hide Records, RecordOf, Past;
    DraftsAreDistinct(workers, authors, tx);
    forall id ensures id in Records(ever, w.drafts) <==> id in ever || Drafted(w.drafts, id)
              ensures id in ever && !Drafted(w.drafts, id) ==> Records(ever, w.drafts)[id] == ever[id] {
      RecordsHasKeys(ever, w.drafts, id);
    }
    forall k | 0 <= k < |w.drafts|
      ensures w.drafts[k].id in Records(ever, w.drafts)
              && Records(ever, w.drafts)[w.drafts[k].id] == RecordOf(w.drafts[k].item)
    {
      RecordsHasValues(ever, w.drafts, k);
    }
    forall t, k | t in workers && t != tx && 0 <= k < |workers[t].drafts|
      ensures !Drafted(w.drafts, workers[t].drafts[k].id)
    {
    }
  }

  lemma FlushedSame(workers: map<Uuid, Worker>, index: seq<Entry>, authors: map<Uuid, Author>, tx: Uuid, w: Worker)
    requires Flushed(workers, index, authors) && tx in workers && Landed(w) == Landed(workers[tx])
    ensures Flushed(workers[tx := w], index, authors)
  {
    hide OfTx, Landed;
  }

  lemma FlushedFresh(
    workers: map<Uuid, Worker>, index: seq<Entry>, authors: map<Uuid, Author>, id: Uuid, author: Author)
    requires Flushed(workers, index, authors) && forall i | 0 <= i < |index| :: index[i].id != id
    ensures Flushed(workers, index, authors[id := author])
  {
    hide OfTx, Landed;
    forall tx { OfTxFresh(index, authors, id, author, tx); }
  }

  lemma FlushedNext(
    workers: map<Uuid, Worker>, index: seq<Entry>, authors: map<Uuid, Author>, tx: Uuid, w: Worker, entry: Entry)
    requires Flushed(workers, index, authors) && tx in workers && IsFrom(authors, entry.id, tx)
    requires Landed(w) == Landed(workers[tx]) + [entry]
    ensures Flushed(workers[tx := w], index + [entry], authors)
  {
    hide OfTx, Landed;
    forall t { OfTxNext(index, authors, t, entry); }
  }

  lemma AllOkNext(vector: bool, workers: map<Uuid, Worker>, tx: Uuid, w: Worker)
    requires AllOk(vector, workers) && WorkerOk(vector, w)
    ensures AllOk(vector, workers[tx := w])
  {
    hide WorkerOk;
  }

  /** Records are only added to what was ever committed. */
  predicate Grown(ever: map<Uuid, Record>, ever': map<Uuid, Record>) {
    forall id | id in ever :: id in ever' && ever'[id] == ever[id]
  }

  lemma GrownKeeps(
    index: seq<Entry>, unindexed: map<Uuid, Entry>, authors: map<Uuid, Author>,
    ever: map<Uuid, Record>, ever': map<Uuid, Record>)
    requires Indexed(index, ever) && Waiting(unindexed, authors, ever) && Grown(ever, ever')
    ensures Indexed(index, ever') && Waiting(unindexed, authors, ever')
  {
  }

  lemma FreshIsNotIndexed(s: State, id: Uuid)
    requires Indexed(s.index, s.ever) && History(s.workers, s.authors, s.ever) && id !in s.authors
    ensures forall i | 0 <= i < |s.index| :: s.index[i].id != id
  {
  }

  lemma WaitingFresh(
    unindexed: map<Uuid, Entry>, authors: map<Uuid, Author>, ever: map<Uuid, Record>, id: Uuid, author: Author)
    requires Waiting(unindexed, authors, ever) && id !in authors
    ensures Waiting(unindexed, authors[id := author], ever)
  {
  }

  // ---------------------------------------------------------------- every step keeps the invariant

  lemma AdvanceKeepsInv(vector: bool, s: State, tx: Uuid, ok: bool, id: Uuid)
    requires Inv(vector, s) && Enabled(s, Advance(tx, ok, id))
    ensures Inv(vector, Apply(vector, s, Advance(tx, ok, id)))
  {
    var w := s.workers[tx];
    assert WorkerOk(vector, w);
    hide WorkerOk, AllOk, Authored, History, Indexed, Waiting, Flushed, Records, Past;
    MovedIsOk(vector, w, ok, id);
    AllOkNext(vector, s.workers, tx, Moved(vector, w, ok, id));
    if w.pc.Insert? && ok {
      InsertKeepsInv(vector, s, tx, id);
    } else if w.pc.CommitInner? && ok {
      CommitKeepsInv(vector, s, tx, id);
    } else if w.pc.Flush? && ok {
      FlushKeepsInv(vector, s, tx, id);
    } else {
      MovedMeans(vector, w, ok, id);
      var w' := Moved(vector, w, ok, id);
      hide Moved, Landed;
      AuthoredSame(s.workers, s.authors, tx, w');
      HistorySame(s.workers, s.authors, s.ever, tx, w');
      FlushedSame(s.workers, s.index, s.authors, tx, w');
    }
  }

  lemma InsertKeepsInv(vector: bool, s: State, tx: Uuid, id: Uuid)
    requires Inv(vector, s) && Enabled(s, Advance(tx, true, id)) && s.workers[tx].pc.Insert?
    ensures Inv(vector, Apply(vector, s, Advance(tx, true, id)))
  {
    var w := s.workers[tx];
    assert WorkerOk(vector, w) && !Past(w) && |w.drafts| < |w.staged|;
    hide WorkerOk, AllOk, Authored, History, Indexed, Waiting, Flushed, Records, Past;
    var w' := Moved(vector, w, true, id);
    MovedIsOk(vector, w, true, id);
    MovedMeans(vector, w, true, id);
    AllOkNext(vector, s.workers, tx, w');
    var item := w.staged[|w.drafts|];
    hide Moved, Landed;
    AuthoredNext(s.workers, s.authors, tx, w', id, item);
    HistoryInsert(s.workers, s.authors, s.ever, tx, w', id, item);
    FlushedSame(s.workers, s.index, s.authors, tx, w');
    FreshIsNotIndexed(s, id);
    FlushedFresh(s.workers[tx := w'], s.index, s.authors, id, FromTx(tx, |w.drafts|));
    WaitingFresh(s.unindexed, s.authors, s.ever, id, FromTx(tx, |w.drafts|));
  }

  lemma CommitKeepsInv(vector: bool, s: State, tx: Uuid, id: Uuid)
    requires Inv(vector, s) && Enabled(s, Advance(tx, true, id)) && s.workers[tx].pc.CommitInner?
    ensures Inv(vector, Apply(vector, s, Advance(tx, true, id)))
  {
    var w := s.workers[tx];
    assert WorkerOk(vector, w);
    hide WorkerOk, AllOk, Authored, History, Indexed, Waiting, Flushed, Records, Past;
    var w' := Moved(vector, w, true, id);
    MovedIsOk(vector, w, true, id);
    MovedMeans(vector, w, true, id);
    AllOkNext(vector, s.workers, tx, w');
    hide Moved, Landed;
    AuthoredSame(s.workers, s.authors, tx, w');
    HistoryCommit(s.workers, s.authors, s.ever, tx, w');
    RecordsKeepOrder(s.core, s.ever, w.drafts);
    GrownKeeps(s.index, s.unindexed, s.authors, s.ever, Records(s.ever, w.drafts));
    FlushedSame(s.workers, s.index, s.authors, tx, w');
  }

  lemma FlushKeepsInv(vector: bool, s: State, tx: Uuid, id: Uuid)
    requires Inv(vector, s) && Enabled(s, Advance(tx, true, id)) && s.workers[tx].pc.Flush?
    ensures Inv(vector, Apply(vector, s, Advance(tx, true, id)))
  {
    var w := s.workers[tx];
    assert WorkerOk(vector, w) && Past(w);
    var w' := Moved(vector, w, true, id);
    MovedMeans(vector, w, true, id);
    EntryIsKnown(s, tx, |w.answers|);
    hide WorkerOk, AllOk, Authored, History, Indexed, Waiting, Flushed, Records, Past;
    MovedIsOk(vector, w, true, id);
    AllOkNext(vector, s.workers, tx, w');
    var entry := w.upserts[|w.answers|];
    hide Moved, Landed;
    AuthoredSame(s.workers, s.authors, tx, w');
    HistorySame(s.workers, s.authors, s.ever, tx, w');
    FlushedNext(s.workers, s.index, s.authors, tx, w', entry);
    IndexedNext(s.index, s.ever, entry);
  }

  /** A committed transaction's insert: its author and its record. */
  lemma EntryIsKnown(s: State, tx: Uuid, k: nat)
    requires Authored(s.workers, s.authors) && History(s.workers, s.authors, s.ever)
    requires tx in s.workers && Past(s.workers[tx]) && k < |s.workers[tx].drafts|
    ensures var draft := s.workers[tx].drafts[k];
            IsFrom(s.authors, draft.id, tx) && draft.id in s.ever && s.ever[draft.id] == RecordOf(draft.item)
  {
  }

  lemma IndexedNext(index: seq<Entry>, ever: map<Uuid, Record>, entry: Entry)
    requires Indexed(index, ever) && entry.id in ever && ever[entry.id] == entry.record
    ensures Indexed(index + [entry], ever)
  {
  }

  lemma TakeKeepsInv(vector: bool, s: State, tx: Uuid, commit: bool)
    requires Inv(vector, s) && Enabled(s, Take(tx, commit))
    ensures Inv(vector, Apply(vector, s, Take(tx, commit)))
  {
    var p := s.pending[tx];
    var w := Worker(p.session, p.staged, commit, Authorise, [], [], []);
    assert WorkerOk(vector, w) && !Past(w) && Landed(w) == [];
    hide WorkerOk, AllOk, Authored, History, Indexed, Waiting, Flushed, Past, Landed;
    AllOkNext(vector, s.workers, tx, w);
    NewWorker(s, tx, w);
  }

  lemma NewWorker(s: State, tx: Uuid, w: Worker)
    requires Authored(s.workers, s.authors) && History(s.workers, s.authors, s.ever)
             && Flushed(s.workers, s.index, s.authors)
    requires tx !in s.workers && w.drafts == [] && Landed(w) == []
    ensures Authored(s.workers[tx := w], s.authors)
    ensures History(s.workers[tx := w], s.authors, s.ever)
    ensures Flushed(s.workers[tx := w], s.index, s.authors)
  {
    hide Past, Landed, OfTx;
  }

  lemma RememberKeepsInv(vector: bool, s: State, id: Uuid, item: StagedMemory)
    requires Inv(vector, s) && Enabled(s, Remember(id, item))
    ensures Inv(vector, Apply(vector, s, Remember(id, item)))
  {
    hide AllOk, Authored, History, Indexed, Waiting, Flushed, RecordOf;
    FreshIsNotIndexed(s, id);
    FlushedFresh(s.workers, s.index, s.authors, id, Direct);
    DirectIsKnown(s, id, RecordOf(item));
    GrownKeeps(s.index, s.unindexed, s.authors, s.ever, s.ever[id := RecordOf(item)]);
    WaitingFresh(s.unindexed, s.authors, s.ever[id := RecordOf(item)], id, Direct);
    WaitingNext(s.unindexed, s.authors[id := Direct], s.ever[id := RecordOf(item)], EntryOf(id, item));
  }

  lemma DirectIsKnown(s: State, id: Uuid, record: Record)
    requires Authored(s.workers, s.authors) && History(s.workers, s.authors, s.ever) && id !in s.authors
    ensures Authored(s.workers, s.authors[id := Direct])
    ensures History(s.workers, s.authors[id := Direct], s.ever[id := record])
    ensures Grown(s.ever, s.ever[id := record])
  {
    hide Past, RecordOf;
  }

  lemma WaitingNext(unindexed: map<Uuid, Entry>, authors: map<Uuid, Author>, ever: map<Uuid, Record>, entry: Entry)
    requires Waiting(unindexed, authors, ever)
    requires entry.id in authors && authors[entry.id].Direct? && entry.id in ever && ever[entry.id] == entry.record
    ensures Waiting(unindexed[entry.id := entry], authors, ever)
  {
  }

  lemma IndexDirectKeepsInv(vector: bool, s: State, id: Uuid, ok: bool)
    requires Inv(vector, s) && Enabled(s, IndexDirect(id, ok))
    ensures Inv(vector, Apply(vector, s, IndexDirect(id, ok)))
  {
    hide AllOk, Authored, History, OfTx;
    if ok {
      var entry := s.unindexed[id];
      forall t { OfTxNext(s.index, s.authors, t, entry); }
      IndexedNext(s.index, s.ever, entry);
    } else {
      assert s.index + [] == s.index;
    }
  }

  lemma StageKeepsInv(vector: bool, s: State, tx: Uuid, item: StagedMemory, receipt: Option<Uuid>)
    requires Inv(vector, s) && Enabled(s, Stage(tx, item, receipt))
    ensures Inv(vector, Apply(vector, s, Stage(tx, item, receipt)))
  {
    hide AllOk, Authored, History, Indexed, Waiting, Flushed;
    if receipt.Some? {
      var author := Receipt(tx, |s.pending[tx].staged|);
      FreshIsNotIndexed(s, receipt.value);
      FlushedFresh(s.workers, s.index, s.authors, receipt.value, author);
      WaitingFresh(s.unindexed, s.authors, s.ever, receipt.value, author);
      ReceiptIsKnown(s, receipt.value, author);
    }
  }

  lemma ReceiptIsKnown(s: State, id: Uuid, author: Author)
    requires Authored(s.workers, s.authors) && History(s.workers, s.authors, s.ever)
    requires id !in s.authors && author.Receipt?
    ensures Authored(s.workers, s.authors[id := author]) && History(s.workers, s.authors[id := author], s.ever)
  {
    hide Past, RecordOf;
  }

  lemma InvStep(vector: bool, s: State, l: Label)
    requires Inv(vector, s) && Enabled(s, l)
    ensures Inv(vector, Apply(vector, s, l))
  {
    hide AllOk, Authored, History, Indexed, Waiting, Flushed;
    match l {
      case Advance(tx, ok, id) =>
        AdvanceKeepsInv(vector, s, tx, ok, id);
      case Stage(tx, item, receipt) =>
        StageKeepsInv(vector, s, tx, item, receipt);
      case Take(tx, commit) =>
        TakeKeepsInv(vector, s, tx, commit);
      case Remember(id, item) =>
        RememberKeepsInv(vector, s, id, item);
      case IndexDirect(id, ok) =>
        IndexDirectKeepsInv(vector, s, id, ok);
      case _ =>
    }
  }

  lemma {:induction false} RunKeepsInv(vector: bool, labels: seq<Label>)
    requires Run(vector, INITIAL, labels).Some?
    ensures Inv(vector, Run(vector, INITIAL, labels).value)
  {
    hide Apply, Enabled;
    if labels == [] {
      assert forall tx :: OfTx([], map[], tx) == [];
    } else {
      hide Inv;
      RunKeepsInv(vector, labels[..|labels| - 1]);
      InvStep(vector, Run(vector, INITIAL, labels[..|labels| - 1]).value, labels[|labels| - 1]);
    }
  }
}
