/** What holds of the staged transactions, of the core and of the vector index in every run. */
module StagedTheorems {
  import opened Wrappers
  import opened MemoryTypes
  import opened Scopes
  import opened StagedProtocol
  import opened StagedInvariant

  ghost predicate Reached(vector: bool, labels: seq<Label>, s: State) {
    Run(vector, INITIAL, labels) == Some(s)
  }

  predicate InIndex(index: seq<Entry>, id: Uuid) {
    exists i | 0 <= i < |index| :: index[i].id == id
  }

  /**
   * Until the engine has committed it, nothing of a transaction is in the core or in the index, and
   * from then on all of it has been in the core, item by item in staging order.  A rollback never
   * inserts anything.
   */
  lemma AllOrNothing(vector: bool, labels: seq<Label>, s: State, tx: Uuid)
    requires Reached(vector, labels, s) && tx in s.workers
    ensures var w := s.workers[tx];
            if Past(w) then
              && |w.drafts| == |w.staged|
              && forall k | 0 <= k < |w.staged| ::
                   w.drafts[k].id in s.ever && s.ever[w.drafts[k].id] == RecordOf(w.staged[k])
            else
              forall k | 0 <= k < |w.drafts| :: w.drafts[k].id !in s.core && !InIndex(s.index, w.drafts[k].id)
    ensures !s.workers[tx].commit ==> s.workers[tx].drafts == [] && !Past(s.workers[tx])
  {
    RunKeepsInv(vector, labels);
    hide OfTx, Landed, Accepts, RecordOf, Entries;
  }

  /** Every item of a transaction is inserted at most once: its identifier is the only one ever given to it. */
  lemma InsertedAtMostOnce(vector: bool, labels: seq<Label>, s: State, a: Uuid, b: Uuid)
    requires Reached(vector, labels, s) && a in s.authors && b in s.authors
    requires s.authors[a].FromTx? && s.authors[a] == s.authors[b]
    ensures a == b
    ensures var author := s.authors[a];
            author.tx in s.workers && author.tx !in s.pending && author.k < |s.workers[author.tx].staged|
  {
    RunKeepsInv(vector, labels);
    hide OfTx, Landed, Accepts, RecordOf, Entries, Past;
  }

  // ---------------------------------------------------------------- later states

  /** What never changes again once a request has taken the transaction. */
  ghost predicate Settled(s: State, s': State, tx: Uuid) {
    && tx in s.workers && tx in s'.workers && tx !in s'.pending
    && s'.workers[tx].staged == s.workers[tx].staged && s'.workers[tx].commit == s.workers[tx].commit
    && s.workers[tx].drafts <= s'.workers[tx].drafts
    && (Past(s.workers[tx]) ==> Past(s'.workers[tx]) && s'.workers[tx].drafts == s.workers[tx].drafts)
    && (s.workers[tx].pc.Ended? ==> s'.workers[tx] == s.workers[tx])
  }

  lemma StepSettles(vector: bool, s: State, l: Label, tx: Uuid)
    requires Inv(vector, s) && Enabled(s, l) && tx in s.workers
    ensures Settled(s, Apply(vector, s, l), tx)
  {
    hide Inv, WorkerOk, Past, Moved, Records, AuthorsAfter, CoreAfter, IndexAfter, RecordOf, EntryOf;
    WorkerIsOk(vector, s, tx);
    if l.Advance? && l.tx == tx {
      MovedSettles(vector, s.workers[tx], l.ok, l.id);
    }
  }

  lemma WorkerIsOk(vector: bool, s: State, tx: Uuid)
    requires Inv(vector, s) && tx in s.workers
    ensures tx !in s.pending && WorkerOk(vector, s.workers[tx])
  {
    hide WorkerOk;
  }

  lemma MovedSettles(vector: bool, w: Worker, ok: bool, id: Uuid)
    requires WorkerOk(vector, w) && !w.pc.Ended?
    ensures var w' := Moved(vector, w, ok, id);
            && w'.staged == w.staged && w'.commit == w.commit && w.drafts <= w'.drafts
            && (Past(w) ==> Past(w') && w'.drafts == w.drafts)
  {
    MovedMeans(vector, w, ok, id);
    hide Landed, WorkerOk, Accepts;
  }

  /**
   * Commit and rollback consume the identifier whatever their outcome: no later request of either
   * front end finds it again, and the request that took it is the last word on it.
   */
  lemma {:induction false} ConsumedForGood(
    vector: bool, before: seq<Label>, s: State, after: seq<Label>, s': State, tx: Uuid)
    requires Reached(vector, before, s) && Reached(vector, before + after, s') && tx in s.workers
    ensures Settled(s, s', tx)
    decreases |after|
  {
    if after == [] {
      assert before + after == before;
      RunKeepsInv(vector, before);
    } else {
      var front, l := after[..|after| - 1], after[|after| - 1];
      assert (before + after)[..|before + after| - 1] == before + front;
      hide Inv, Enabled, Apply, Past;
      var mid := Run(vector, INITIAL, before + front).value;
      ConsumedForGood(vector, before, s, front, mid, tx);
      RunKeepsInv(vector, before + front);
      StepSettles(vector, mid, l, tx);
    }
  }

  // ---------------------------------------------------------------- the identifiers handed out when staging

  lemma StepKeepsAuthors(vector: bool, s: State, l: Label, id: Uuid)
    requires Enabled(s, l) && id in s.authors
    ensures id in Apply(vector, s, l).authors && Apply(vector, s, l).authors[id] == s.authors[id]
  {
    hide Moved, Records, RecordOf, EntryOf;
  }

  lemma {:induction false} AuthorsAreForGood(
    vector: bool, before: seq<Label>, s: State, after: seq<Label>, s': State, id: Uuid)
    requires Reached(vector, before, s) && Reached(vector, before + after, s') && id in s.authors
    ensures id in s'.authors && s'.authors[id] == s.authors[id]
    decreases |after|
  {
    if after == [] {
      assert before + after == before;
    } else {
      hide Enabled, Apply;
      var front, l := after[..|after| - 1], after[|after| - 1];
      assert (before + after)[..|before + after| - 1] == before + front;
      var mid := Run(vector, INITIAL, before + front).value;
      AuthorsAreForGood(vector, before, s, front, mid, id);
      StepKeepsAuthors(vector, mid, l, id);
    }
  }

  /**
   * The identifier that the gRPC front end answers with when it stages an item is never that of a
   * memory: not of the item's record once it is committed, nor of any other, then or later.
   */
  lemma ReceiptsAreNoMemories(
    vector: bool, before: seq<Label>, s: State, after: seq<Label>, s': State, id: Uuid)
    requires Reached(vector, before, s) && Reached(vector, before + after, s')
    requires id in s.authors && s.authors[id].Receipt?
    ensures id !in s'.ever && id !in s'.core && !InIndex(s'.index, id)
    ensures forall tx, k | tx in s'.workers && 0 <= k < |s'.workers[tx].drafts| :: s'.workers[tx].drafts[k].id != id
  {
    AuthorsAreForGood(vector, before, s, after, s', id);
    RunKeepsInv(vector, before + after);
    hide AllOk, OfTx, Landed;
  }

  // ---------------------------------------------------------------- the index

  lemma {:induction false} SelectedAll(entries: seq<Entry>, answers: seq<bool>)
    requires |answers| <= |entries| && forall i | 0 <= i < |answers| :: answers[i]
    ensures Selected(entries, answers) == entries[..|answers|]
  {
    if answers != [] {
      SelectedAll(entries, answers[..|answers| - 1]);
    }
  }

  /**
   * Everything in the index was committed to the core before, with the record that the index shows.
   * A transaction's entries are its pending upserts that went through, in order; the pending upserts
   * match its inserts one to one; and when all went through, the index has all of them.
   */
  lemma IndexFollowsCore(vector: bool, labels: seq<Label>, s: State, tx: Uuid)
    requires Reached(vector, labels, s) && tx in s.workers
    ensures forall i | 0 <= i < |s.index| :: s.index[i].id in s.ever && s.ever[s.index[i].id] == s.index[i].record
    ensures var w := s.workers[tx];
            && w.upserts == Entries(w.drafts)
            && |w.answers| <= |w.upserts|
            && OfTx(s.index, s.authors, tx) == Selected(w.upserts, w.answers)
            && (vector && w.commit && w.pc == Ended(true) && (forall i | 0 <= i < |w.answers| :: w.answers[i]) ==>
                  OfTx(s.index, s.authors, tx) == Entries(w.drafts))
    ensures OfTx(s.index, s.authors, tx) != [] ==> Past(s.workers[tx])
  {
    hide Inv, Run, WorkerOk, Past, OfTx, Accepts, RecordOf, Entries, Selected, Landed;
    RunKeepsInv(vector, labels);
    LandedIs(vector, s, tx);
    var w := s.workers[tx];
    if forall i | 0 <= i < |w.answers| :: w.answers[i] {
      SelectedAll(w.upserts, w.answers);
    }
    if w.answers == [] {
      SelectedAll(w.upserts, w.answers);
    }
  }

  lemma LandedIs(vector: bool, s: State, tx: Uuid)
    requires Inv(vector, s) && tx in s.workers
    ensures forall i | 0 <= i < |s.index| :: s.index[i].id in s.ever && s.ever[s.index[i].id] == s.index[i].record
    ensures var w := s.workers[tx];
            && w.upserts == Entries(w.drafts) && |w.answers| <= |w.upserts|
            && OfTx(s.index, s.authors, tx) == Selected(w.upserts, w.answers)
            && (vector && w.commit && w.pc == Ended(true) ==> |w.answers| == |w.upserts|)
            && (w.answers != [] ==> Past(w))
  {
    WorkerIsOk(vector, s, tx);
    hide OfTx, Accepts, RecordOf, Entries, Selected, Authored, History, Waiting;
  }

  // ---------------------------------------------------------------- permissions

  /** Nothing is inserted for a session that was not granted the right to write memories. */
  lemma OnlyWritersInsert(vector: bool, labels: seq<Label>, s: State, tx: Uuid)
    requires Reached(vector, labels, s) && tx in s.workers
    requires !Accepts(s.workers[tx].session.scopes, ["memory:write"])
    ensures s.workers[tx].drafts == [] && !Past(s.workers[tx]) && OfTx(s.index, s.authors, tx) == []
  {
    RunKeepsInv(vector, labels);
    FallbacksAreRedundant(s.workers[tx].session.scopes);
    assert WorkerOk(vector, s.workers[tx]);
    hide Accepts, OfTx, Authored, History;
  }
}
