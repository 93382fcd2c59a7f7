/** How far the vector index agrees with the core: exactly where deletions and updates have left it. */
module StagedIndex {
  import opened Wrappers
  import opened MemoryTypes
  import opened StagedProtocol
  import opened StagedInvariant
  import opened StagedTheorems

  /** Some request deleted `id` after it had been committed. */
  predicate Deleted(vector: bool, labels: seq<Label>, id: Uuid) {
    && labels != []
    && var front := labels[..|labels| - 1];
       || Deleted(vector, front, id)
       || (labels[|labels| - 1] == Delete(id) && Run(vector, INITIAL, front).Some?
           && id in Run(vector, INITIAL, front).value.ever)
  }

  /** The content that the last update of `id` wrote, if the core held it by then. */
  function LastUpdate(vector: bool, labels: seq<Label>, id: Uuid): Option<string> {
    if labels == [] then None
    else
      var front, l := labels[..|labels| - 1], labels[|labels| - 1];
      if l.Update? && l.id == id && Run(vector, INITIAL, front).Some? && id in Run(vector, INITIAL, front).value.core
      then Some(l.content)
      else LastUpdate(vector, front, id)
  }

  /** What the core holds of `id`, given what was committed and what has happened to it since. */
  function Kept(s: State, deleted: bool, updated: Option<string>, id: Uuid): Option<Record>
    requires id in s.ever
  {
    if deleted then None
    else if updated.Some? then Some(s.ever[id].(content := updated.value))
    else Some(s.ever[id])
  }

  function InCore(s: State, id: Uuid): Option<Record> {
    if id in s.core then Some(s.core[id]) else None
  }

  /** How a step changes what the core holds of a memory that was committed before. */
  lemma CoreStep(vector: bool, s: State, l: Label, id: Uuid)
    requires Inv(vector, s) && Enabled(s, l) && id in s.ever
    ensures var s' := Apply(vector, s, l);
            && id in s'.ever && s'.ever[id] == s.ever[id]
            && InCore(s', id) ==
               if l == Delete(id) then None
               else if l.Update? && l.id == id && id in s.core then Some(s.core[id].(content := l.content))
               else InCore(s, id)
  {
    hide Inv, Moved, Records, AuthorsAfter, CoreAfter, IndexAfter, RecordOf, EntryOf;
    if l.Advance? {
      AdvanceKeeps(vector, s, l.tx, l.ok, l.id, id);
    } else if l.Remember? {
      FreshIsNew(vector, s, l.id, id);
    }
  }

  lemma FreshIsNew(vector: bool, s: State, given: Uuid, id: Uuid)
    requires Inv(vector, s) && given !in s.authors && id in s.ever
    ensures given != id
  {
  }

  lemma AdvanceKeeps(vector: bool, s: State, tx: Uuid, ok: bool, next: Uuid, id: Uuid)
    requires Inv(vector, s) && Enabled(s, Advance(tx, ok, next)) && id in s.ever
    ensures var w := s.workers[tx];
            && id in CoreAfter(s.ever, w, ok) && CoreAfter(s.ever, w, ok)[id] == s.ever[id]
            && (id in CoreAfter(s.core, w, ok) <==> id in s.core)
            && (id in s.core ==> CoreAfter(s.core, w, ok)[id] == s.core[id])
  {
    var w := s.workers[tx];
    assert w.pc.CommitInner? ==> !Past(w);
    if w.pc.CommitInner? {
      DraftsAreNew(s, tx, id);
      RecordsHasKeys(s.core, w.drafts, id);
      RecordsHasKeys(s.ever, w.drafts, id);
    }
  }

  lemma DraftsAreNew(s: State, tx: Uuid, id: Uuid)
    requires History(s.workers, s.authors, s.ever) && tx in s.workers && !Past(s.workers[tx]) && id in s.ever
    ensures !Drafted(s.workers[tx].drafts, id)
  {
    var drafts := s.workers[tx].drafts;
    forall k | 0 <= k < |drafts|
      ensures drafts[k].id != id
    {
      assert s.workers[tx].drafts[k].id !in s.ever;
    }
  }

  /** A memory that a step commits is in the core afterwards, as committed. */
  lemma CommitStep(vector: bool, s: State, l: Label, id: Uuid)
    requires Inv(vector, s) && Enabled(s, l) && id !in s.ever && id in Apply(vector, s, l).ever
    ensures InCore(Apply(vector, s, l), id) == Some(Apply(vector, s, l).ever[id]) && !l.Update? && !l.Delete?
  {
    if l.Advance? {
      var w := s.workers[l.tx];
      DraftsAreDistinct(s.workers, s.authors, l.tx);
      RecordsHasKeys(s.ever, w.drafts, id);
      assert Drafted(w.drafts, id);
      var k :| 0 <= k < |w.drafts| && w.drafts[k].id == id;
      RecordsHasValues(s.core, w.drafts, k);
      RecordsHasValues(s.ever, w.drafts, k);
    }
  }

  /** Nothing is deleted or updated before it is committed. */
  lemma {:induction false} NotYet(vector: bool, labels: seq<Label>, s: State, id: Uuid)
    requires Reached(vector, labels, s) && id !in s.ever
    ensures !Deleted(vector, labels, id) && LastUpdate(vector, labels, id) == None
  {
    RunKeepsInv(vector, labels);
    if labels != [] {
      var front, l := labels[..|labels| - 1], labels[|labels| - 1];
      var mid := Run(vector, INITIAL, front).value;
      RunKeepsInv(vector, front);
      if id in mid.ever {
        CoreStep(vector, mid, l, id);
      }
      hide Inv, Apply, Enabled;
      assert id !in mid.ever;
      NotYet(vector, front, mid, id);
      assert id !in mid.core by { CoreIsHistory(vector, mid); }
    }
  }

  lemma CoreIsHistory(vector: bool, s: State)
    requires Inv(vector, s)
    ensures s.core.Keys <= s.ever.Keys
  {
  }

  /**
   * The core holds a memory that was ever committed exactly when no request has deleted it since, and
   * then with the committed record, but for the content of the last update.
   */
  lemma {:induction false} CoreHoldsExactly(vector: bool, labels: seq<Label>, s: State, id: Uuid)
    requires Reached(vector, labels, s) && id in s.ever
    ensures InCore(s, id) == Kept(s, Deleted(vector, labels, id), LastUpdate(vector, labels, id), id)
    ensures id in s.core <==> !Deleted(vector, labels, id)
  {
    if labels != [] {
      var front, l := labels[..|labels| - 1], labels[|labels| - 1];
      var mid := Run(vector, INITIAL, front).value;
      RunKeepsInv(vector, front);
      CoreIsHistory(vector, mid);
      if id in mid.ever {
        CoreHoldsExactly(vector, front, mid, id);
        CoreStep(vector, mid, l, id);
      } else {
        NotYet(vector, front, mid, id);
        CommitStep(vector, mid, l, id);
      }
      hide Inv, Apply, Enabled;
    }
  }

  /** The core holds what the entry shows. */
  predicate Current(s: State, entry: Entry) {
    InCore(s, entry.id) == Some(entry.record)
  }

  /** Since it was committed, the memory was not deleted, nor was its content changed for good. */
  predicate Untouched(vector: bool, labels: seq<Label>, entry: Entry) {
    && !Deleted(vector, labels, entry.id)
    && var updated := LastUpdate(vector, labels, entry.id);
       updated.None? || updated.value == entry.record.content
  }

  /**
   * The index agrees with the core exactly where no request has deleted the memory since its commit or
   * left it with another content: it follows neither deletions nor updates.
   */
  lemma IndexIsCurrentExactlyWhen(vector: bool, labels: seq<Label>, s: State)
    requires Reached(vector, labels, s)
    ensures forall entry | entry in s.index ::
              (entry.id in s.core <==> !Deleted(vector, labels, entry.id))
              && (Current(s, entry) <==> Untouched(vector, labels, entry))
    ensures (forall entry | entry in s.index :: entry.id in s.core)
       <==> (forall entry | entry in s.index :: !Deleted(vector, labels, entry.id))
    ensures (forall entry | entry in s.index :: Current(s, entry))
       <==> (forall entry | entry in s.index :: Untouched(vector, labels, entry))
  {
    RunKeepsInv(vector, labels);
    hide Run, Deleted, LastUpdate;
    forall entry | entry in s.index
      ensures entry.id in s.core <==> !Deleted(vector, labels, entry.id)
      ensures Current(s, entry) <==> Untouched(vector, labels, entry)
    {
      var i :| 0 <= i < |s.index| && s.index[i] == entry;
      assert s.index[i].id in s.ever && s.ever[s.index[i].id] == s.index[i].record;
      CoreHoldsExactly(vector, labels, s, entry.id);
    }
  }

  lemma RunOne(vector: bool, before: seq<Label>, s: State, l: Label)
    requires Reached(vector, before, s) && Enabled(s, l)
    ensures Reached(vector, before + [l], Apply(vector, s, l))
  {
    assert (before + [l])[..|before|] == before;
  }

  /** Deleting a memory while it waits for its upsert: it is indexed when the core no longer has it. */
  lemma IndexedAfterDeletion(item: StagedMemory) returns (s: State)
    ensures Reached(true, [Remember(7, item), Delete(7), IndexDirect(7, true)], s)
    ensures s.index == [EntryOf(7, item)] && 7 !in s.core && !Current(s, s.index[0])
  {
    hide Run;
    assert Reached(true, [], INITIAL) by { RunNothing(true); }
    RunOne(true, [], INITIAL, Remember(7, item));
    var remembered := Apply(true, INITIAL, Remember(7, item));
    assert [] + [Remember(7, item)] == [Remember(7, item)];
    RunOne(true, [Remember(7, item)], remembered, Delete(7));
    var deleted := Apply(true, remembered, Delete(7));
    assert [Remember(7, item)] + [Delete(7)] == [Remember(7, item), Delete(7)];
    RunOne(true, [Remember(7, item), Delete(7)], deleted, IndexDirect(7, true));
    assert [Remember(7, item), Delete(7)] + [IndexDirect(7, true)] ==
           [Remember(7, item), Delete(7), IndexDirect(7, true)];
    s := Apply(true, deleted, IndexDirect(7, true));
  }

  lemma RunNothing(vector: bool)
    ensures Reached(vector, [], INITIAL)
  {
  }

  /** A memory that is indexed and then changed or deleted: the index keeps what it had. */
  lemma IndexedBefore(item: StagedMemory, change: Label) returns (s: State)
    requires change == Delete(7) || (change.Update? && change.id == 7 && change.content != item.content)
    ensures Reached(true, [Remember(7, item), IndexDirect(7, true), change], s)
    ensures s.index == [EntryOf(7, item)] && !Current(s, s.index[0])
    ensures 7 in s.core <==> change.Update?
  {
    hide Run;
    assert Reached(true, [], INITIAL) by { RunNothing(true); }
    RunOne(true, [], INITIAL, Remember(7, item));
    var remembered := Apply(true, INITIAL, Remember(7, item));
    assert [] + [Remember(7, item)] == [Remember(7, item)];
    RunOne(true, [Remember(7, item)], remembered, IndexDirect(7, true));
    var indexed := Apply(true, remembered, IndexDirect(7, true));
    assert [Remember(7, item)] + [IndexDirect(7, true)] == [Remember(7, item), IndexDirect(7, true)];
    RunOne(true, [Remember(7, item), IndexDirect(7, true)], indexed, change);
    assert [Remember(7, item), IndexDirect(7, true)] + [change] == [Remember(7, item), IndexDirect(7, true), change];
    s := Apply(true, indexed, change);
  }

  /** A deletion is final for the core and unknown to the index, whatever happens later. */
  lemma {:induction false} DeletionIsFinal(
    vector: bool, before: seq<Label>, s: State, after: seq<Label>, s': State, id: Uuid)
    requires Reached(vector, before, s) && Reached(vector, before + after, s') && Deleted(vector, before, id)
    ensures Deleted(vector, before + after, id) && id !in s'.core && s.index <= s'.index
    decreases |after|
  {
    if after == [] {
      assert before + after == before;
      DeletedIsGone(vector, before, s, id);
    } else {
      var front, l := after[..|after| - 1], after[|after| - 1];
      assert (before + after)[..|before + after| - 1] == before + front;
      var mid := Run(vector, INITIAL, before + front).value;
      DeletionIsFinal(vector, before, s, front, mid, id);
      hide Apply, Enabled;
      DeletedIsGone(vector, before + after, s', id);
      IndexGrows(vector, mid, l);
    }
  }

  lemma IndexGrows(vector: bool, s: State, l: Label)
    requires Enabled(s, l)
    ensures s.index <= Apply(vector, s, l).index
  {
    hide Moved, Records;
  }

  lemma {:induction false} DeletedIsGone(vector: bool, labels: seq<Label>, s: State, id: Uuid)
    requires Reached(vector, labels, s) && Deleted(vector, labels, id)
    ensures id in s.ever && id !in s.core
  {
    if id in s.ever {
      CoreHoldsExactly(vector, labels, s, id);
    } else {
      NotYet(vector, labels, s, id);
    }
  }
}
