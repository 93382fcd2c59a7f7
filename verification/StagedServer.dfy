/**
 * The memory engine and the server's transaction requests as the program runs them.
 *
 * A ghost copy of the protocol's state goes along with the real fields, as reached by a run: what
 * holds of every run holds of the server.
 */
module StagedServer {
  import opened Wrappers
  import opened MemoryTypes
  import opened Scopes
  import opened StagedProtocol
  import opened StagedInvariant

  datatype DbError = SessionInvalid | PermissionDenied | EngineFailed

  datatype Failure = InvalidArgument | TransactionNotFound | Db(error: DbError)

  /** The `n` calls from call number `first` on all succeed. */
  ghost predicate AllGood(answer: nat -> bool, first: nat, n: nat) {
    forall k | first <= k < first + n :: answer(k)
  }

  /** Why a request of a session with these scopes is refused: the session, its scopes, or an engine. */
  function WhyNot(valid: bool, scopes: seq<string>): DbError {
    if !valid then SessionInvalid
    else if !Accepts(scopes, ["memory:write"]) then PermissionDenied
    else EngineFailed
  }

  lemma AllGoodInThree(answer: nat -> bool, first: nat, n: nat)
    ensures AllGood(answer, first, n + 3)
       <==> AllGood(answer, first, 2) && AllGood(answer, first + 2, n + 1)
    ensures AllGood(answer, first + 2, 1) <==> answer(first + 2)
    ensures AllGood(answer, first, 2) ==> answer(first)
  {
  }

  lemma AllGoodNext(answer: nat -> bool, first: nat, n: nat)
    ensures AllGood(answer, first, 0)
    ensures AllGood(answer, first, n + 1) <==> AllGood(answer, first, n) && answer(first + n)
    ensures forall m | n <= m :: AllGood(answer, first, m) ==> AllGood(answer, first, n)
  {
  }

  /** The engine wrapper; `answer` decides whether its next call to a component succeeds. */
  class ClawDb {
    const vector: bool
    const answer: nat -> bool
    var calls: nat
    var nextId: Uuid
    var core: map<Uuid, Record>
    var index: seq<Entry>

    constructor (vector: bool, answer: nat -> bool)
      ensures this.vector == vector && this.answer == answer && calls == 0 && nextId == 0 && core == map[]
              && index == []
    {
      this.vector, this.answer := vector, answer;
      calls, nextId, core, index := 0, 0, map[], [];
    }

    method Call() returns (ok: bool)
      modifies this`calls
      ensures ok == answer(old(calls)) && calls == old(calls) + 1
    {
      ok := answer(calls);
      calls := calls + 1;
    }

    /** An identifier that was never given out before. */
    method FreshId() returns (id: Uuid)
      modifies this`nextId
      ensures id == old(nextId) && nextId == old(nextId) + 1
    {
      id := nextId;
      nextId := nextId + 1;
    }

    method Authorize(session: Session, accepted: seq<string>) returns (r: Result<(), DbError>)
      modifies this`calls
      ensures calls == old(calls) + 1
      ensures r == if !answer(old(calls)) then Err(SessionInvalid)
                   else if Accepts(session.scopes, accepted) then Ok(()) else Err(PermissionDenied)
    {
      var valid := Call();
      if !valid {
        return Err(SessionInvalid);
      }
      if Accepts(session.scopes, accepted) {
        return Ok(());
      }
      return Err(PermissionDenied);
    }

    method Transaction(session: Session) returns (r: Result<ClawTransaction, DbError>)
      modifies this`calls
      ensures r == Err(SessionInvalid) <==> !answer(old(calls))
      ensures r == Err(PermissionDenied) <==> answer(old(calls)) && !Accepts(session.scopes, WRITE_MEMORY)
      ensures r.Ok? <==> AllGood(answer, old(calls), 2) && Accepts(session.scopes, WRITE_MEMORY)
      ensures calls == old(calls) + (if r.Ok? || r.error == EngineFailed then 2 else 1)
      ensures r.Err? ==> r.error == WhyNot(answer(old(calls)), session.scopes)
      ensures r.Ok? ==>
                fresh(r.value) && r.value.db == this && r.value.inner == [] && r.value.pendingVectorUpserts == []
    {
      FallbacksAreRedundant(session.scopes);
      var allowed := Authorize(session, WRITE_MEMORY);
      if allowed.Err? {
        return Err(allowed.error);
      }
      var begun := Call();
      if !begun {
        return Err(EngineFailed);
      }
      var tx := new ClawTransaction(this);
      return Ok(tx);
    }

    /** The write that needs no transaction: the core first, then the vector engine as far as it will. */
    method RememberTyped(session: Session, item: StagedMemory) returns (r: Result<(Uuid, bool), DbError>)
      modifies this
      ensures r.Ok? <==> AllGood(answer, old(calls), 2) && Accepts(session.scopes, WRITE_MEMORY)
      ensures r.Ok? ==>
                && r.value.0 == old(nextId) && nextId == old(nextId) + 1
                && core == old(core)[r.value.0 := RecordOf(item)]
                && index == old(index) + (if r.value.1 then [EntryOf(r.value.0, item)] else [])
                && r.value.1 == (vector && answer(old(calls) + 2))
                && Keeps(core[r.value.0], item)
                && (r.value.1 ==> Shows(index[|index| - 1], r.value.0, item))
      ensures calls == old(calls) + (if r.Ok? then if vector then 3 else 2
                                     else if r.error == EngineFailed then 2 else 1)
      ensures r.Err? ==> nextId == old(nextId) && core == old(core) && index == old(index)
      ensures r.Err? ==> r.error == WhyNot(answer(old(calls)), session.scopes)
    {
      FallbacksAreRedundant(session.scopes);
      var allowed := Authorize(session, WRITE_MEMORY);
      if allowed.Err? {
        return Err(allowed.error);
      }
      var inserted := Call();
      if !inserted {
        return Err(EngineFailed);
      }
      var id := FreshId();
      EntryShows(id, item);
      core := core[id := RecordOf(item)];
      var indexed := false;
      if vector {
        indexed := Call();
        if indexed {
          index := index + [EntryOf(id, item)];
        }
      }
      return Ok((id, indexed));
    }

    method DeleteMemory(session: Session, id: Uuid) returns (r: Result<(), DbError>)
      modifies this`calls, this`core
      ensures core == if r.Ok? then old(core) - {id} else old(core)
      ensures calls == old(calls) + (if r.Ok? || r.error == EngineFailed then 2 else 1)
      ensures r.Ok? <==> AllGood(answer, old(calls), 2) && Accepts(session.scopes, WRITE_MEMORY)
      ensures r.Err? ==> r.error == WhyNot(answer(old(calls)), session.scopes)
    {
      FallbacksAreRedundant(session.scopes);
      var allowed := Authorize(session, WRITE_MEMORY);
      if allowed.Err? {
        return Err(allowed.error);
      }
      var deleted := Call();
      if !deleted {
        return Err(EngineFailed);
      }
      core := core - {id};
      return Ok(());
    }

    method UpdateMemory(session: Session, id: Uuid, content: string) returns (r: Result<(), DbError>)
      modifies this`calls, this`core
      ensures core ==
              if r.Ok? && id in old(core) then old(core)[id := old(core)[id].(content := content)] else old(core)
      ensures calls == old(calls) + (if r.Ok? || r.error == EngineFailed then 2 else 1)
      ensures r.Ok? <==> AllGood(answer, old(calls), 2) && Accepts(session.scopes, WRITE_MEMORY)
      ensures r.Err? ==> r.error == WhyNot(answer(old(calls)), session.scopes)
    {
      FallbacksAreRedundant(session.scopes);
      var allowed := Authorize(session, WRITE_MEMORY);
      if allowed.Err? {
        return Err(allowed.error);
      }
      var updated := Call();
      if !updated {
        return Err(EngineFailed);
      }
      if id in core {
        core := core[id := core[id].(content := content)];
      }
      return Ok(());
    }
  }

  /** A core transaction, whose inserts are drafts until it commits, with the vector work staged beside it. */
  class ClawTransaction {
    const db: ClawDb
    var inner: seq<Draft>
    var pendingVectorUpserts: seq<Entry>

    constructor (db: ClawDb)
      ensures this.db == db && inner == [] && pendingVectorUpserts == []
    {
      this.db, inner, pendingVectorUpserts := db, [], [];
    }

    method RememberTyped(item: StagedMemory) returns (r: Result<Uuid, DbError>)
      modifies this, db`calls, db`nextId
      ensures r.Ok? == db.answer(old(db.calls)) && db.calls == old(db.calls) + 1
      ensures r.Ok? ==>
                && r.value == old(db.nextId) && db.nextId == old(db.nextId) + 1
                && inner == old(inner) + [Draft(r.value, item)]
                && pendingVectorUpserts == old(pendingVectorUpserts) + [EntryOf(r.value, item)]
                && Shows(pendingVectorUpserts[|pendingVectorUpserts| - 1], r.value, item)
      ensures r.Err? ==> r.error == EngineFailed && db.nextId == old(db.nextId) && unchanged(this)
    {
      var inserted := db.Call();
      if !inserted {
        return Err(EngineFailed);
      }
      var id := db.FreshId();
      EntryShows(id, item);
      inner := inner + [Draft(id, item)];
      pendingVectorUpserts := pendingVectorUpserts + [EntryOf(id, item)];
      return Ok(id);
    }

    /** Commits the core and then flushes the vector work, skipping the upserts that fail. */
    method Commit() returns (r: Result<(), DbError>, ghost answers: seq<bool>)
      modifies this`pendingVectorUpserts, db`calls, db`core, db`index
      ensures r.Ok? == db.answer(old(db.calls)) && db.calls == old(db.calls) + 1 + |answers|
      ensures forall i | 0 <= i < |answers| :: answers[i] == db.answer(old(db.calls) + 1 + i)
      ensures r.Err? ==> r.error == EngineFailed && db.core == old(db.core) && db.index == old(db.index)
      ensures r.Ok? ==>
                && db.core == Records(old(db.core), inner)
                && |answers| == (if db.vector then |old(pendingVectorUpserts)| else 0)
                && db.index == old(db.index) + Selected(old(pendingVectorUpserts), answers)
    {
      hide Selected, Records;
      assert Selected(pendingVectorUpserts, []) == [] by { NothingSelected(pendingVectorUpserts); }
      answers := [];
      var committed := db.Call();
      if !committed {
        return Err(EngineFailed), answers;
      }
      db.core := Records(db.core, inner);
      if db.vector {
        var upserts := pendingVectorUpserts;
        pendingVectorUpserts := [];
        assert db.index + [] == db.index;
        for i := 0 to |upserts|
          invariant |answers| == i && db.calls == old(db.calls) + 1 + i
          invariant forall k | 0 <= k < i :: answers[k] == db.answer(old(db.calls) + 1 + k)
          invariant db.core == Records(old(db.core), inner)
          invariant db.index == old(db.index) + Selected(upserts, answers)
        {
          var ok := db.Call();
          SelectedNext(upserts, answers, ok);
          answers := answers + [ok];
          if ok {
            db.index := db.index + [upserts[i]];
          }
        }
      }
      r := Ok(());
    }

    method Rollback() returns (r: Result<(), DbError>)
      modifies db`calls
      ensures r == (if db.answer(old(db.calls)) then Ok(()) else Err(EngineFailed)) && db.calls == old(db.calls) + 1
    {
      var ok := db.Call();
      r := if ok then Ok(()) else Err(EngineFailed);
    }
  }

  lemma NothingSelected(entries: seq<Entry>)
    ensures Selected(entries, []) == []
  {
  }

  lemma SelectedNext(entries: seq<Entry>, answers: seq<bool>, ok: bool)
    requires |answers| < |entries|
    ensures Selected(entries, answers + [ok]) == Selected(entries, answers) + if ok then [entries[|answers|]] else []
  {
    assert (answers + [ok])[..|answers|] == answers;
  }

  // ---------------------------------------------------------------- what a commit leaves, item by item

  /** `core` has gained a record of each item, and nothing else has changed. */
  ghost predicate AllKept(
    before: map<Uuid, Record>, core: map<Uuid, Record>, drafts: seq<Draft>, items: seq<StagedMemory>)
    requires |drafts| == |items|
  {
    && (forall k | 0 <= k < |items| ::
          drafts[k].id !in before && drafts[k].id in core && Keeps(core[drafts[k].id], items[k]))
    && (forall id | id in before :: id in core && core[id] == before[id])
    && (forall id | id in core :: id in before || exists k :: 0 <= k < |drafts| && drafts[k].id == id)
  }

  /** `index` has gained an entry of each item whose answer is yes, in the order of the items, and nothing else. */
  predicate AllShown(index: seq<Entry>, drafts: seq<Draft>, items: seq<StagedMemory>, answers: seq<bool>)
    requires |answers| <= |drafts| == |items|
  {
    if answers == [] then index == []
    else
      var last := |answers| - 1;
      if answers[last] then
        && index != [] && Shows(index[|index| - 1], drafts[last].id, items[last])
        && AllShown(index[..|index| - 1], drafts, items, answers[..last])
      else AllShown(index, drafts, items, answers[..last])
  }

  lemma RecordsKeepAll(before: map<Uuid, Record>, drafts: seq<Draft>, items: seq<StagedMemory>)
    requires DistinctIds(drafts) && |drafts| == |items|
    requires forall k | 0 <= k < |drafts| :: drafts[k].item == items[k] && drafts[k].id !in before
    ensures AllKept(before, Records(before, drafts), drafts, items)
  {
    hide Records, Keeps, RecordOf;
    forall k | 0 <= k < |items|
      ensures drafts[k].id in Records(before, drafts) && Keeps(Records(before, drafts)[drafts[k].id], items[k])
    {
      RecordsHasValues(before, drafts, k);
      EntryShows(0, items[k]);
    }
    forall id
      ensures id in Records(before, drafts) <==> id in before || Drafted(drafts, id)
      ensures id in before && !Drafted(drafts, id) ==> Records(before, drafts)[id] == before[id]
    {
      RecordsHasKeys(before, drafts, id);
    }
  }

  lemma {:induction false} SelectedShowAll(drafts: seq<Draft>, items: seq<StagedMemory>, answers: seq<bool>)
    requires |answers| <= |drafts| == |items| && forall k | 0 <= k < |drafts| :: drafts[k].item == items[k]
    ensures AllShown(Selected(Entries(drafts), answers), drafts, items, answers)
    decreases |answers|
  {
    if answers != [] {
      hide Shows, EntryOf;
      var last := |answers| - 1;
      SelectedShowAll(drafts, items, answers[..last]);
      EntryShows(drafts[last].id, items[last]);
      var shown, all := Selected(Entries(drafts), answers[..last]), Selected(Entries(drafts), answers);
      if answers[last] {
        assert all == shown + [Entries(drafts)[last]] && all[..|all| - 1] == shown;
        assert all[|all| - 1] == EntryOf(drafts[last].id, items[last]);
      } else {
        assert all == shown;
      }
    }
  }

  /** The identifiers of a request's inserts differ from each other. */
  lemma DraftsDiffer(vector: bool, run: seq<Label>, s: State, tx: Uuid)
    requires Run(vector, INITIAL, run) == Some(s) && tx in s.workers
    ensures DistinctIds(s.workers[tx].drafts)
  {
    RunKeepsInv(vector, run);
    hide Run, AllOk, Authored, History, Indexed, Waiting, Flushed;
    DraftsAreDistinct(s.workers, s.authors, tx);
  }

  lemma CoreIsAuthored(vector: bool, run: seq<Label>, s: State)
    requires Run(vector, INITIAL, run) == Some(s)
    ensures s.core.Keys <= s.authors.Keys
  {
    RunKeepsInv(vector, run);
    hide Run, AllOk, Authored, Indexed, Waiting, Flushed;
  }

  /** A request in the middle of its flush. */
  function Answered(vector: bool, w: Worker, answers: seq<bool>): Worker {
    w.(answers := answers, pc := Flushing(vector, w.(answers := answers)))
  }

  lemma FlushOne(vector: bool, s: State, id: Uuid, w: Worker, answers: seq<bool>, ok: bool)
    requires vector && |answers| < |w.upserts| && id in s.workers && s.workers[id] == Answered(vector, w, answers)
    ensures Enabled(s, Advance(id, ok, 0))
    ensures Apply(vector, s, Advance(id, ok, 0)) ==
            s.(workers := s.workers[id := Answered(vector, w, answers + [ok])],
               index := s.index + if ok then [w.upserts[|answers|]] else [])
  {
    assert s.index + [] == s.index;
  }

  lemma AnsweredEnds(vector: bool, w: Worker, answers: seq<bool>)
    requires w.pc == Flushing(vector, w) && w.answers == []
    ensures Answered(vector, w, []) == w && Selected(w.upserts, []) == []
    ensures |answers| == (if vector then |w.upserts| else 0) ==>
              Answered(vector, w, answers) == w.(answers := answers, pc := Ended(true))
  {
  }

  lemma CommitInnerStep(vector: bool, s: State, id: Uuid, w: Worker)
    requires id in s.workers && s.workers[id] == w && w.pc == CommitInner
    ensures Enabled(s, Advance(id, true, 0))
    ensures Apply(vector, s, Advance(id, true, 0)) ==
            s.(workers := s.workers[id := w.(pc := Flushing(vector, w))],
               core := Records(s.core, w.drafts), ever := Records(s.ever, w.drafts))
  {
  }

  lemma InsertingIgnoresPc(w: Worker)
    ensures Inserting(w.(pc := Inserting(w))) == Inserting(w)
  {
  }

  /** The pending upserts of a request are the entries of its inserts. */
  lemma UpsertsOf(vector: bool, run: seq<Label>, s: State, tx: Uuid)
    requires Run(vector, INITIAL, run) == Some(s) && tx in s.workers
    ensures s.workers[tx].upserts == Entries(s.workers[tx].drafts)
  {
    RunKeepsInv(vector, run);
    hide Authored, History, Indexed, Waiting, Flushed, Accepts, Run;
    assert WorkerOk(vector, s.workers[tx]);
  }

  // ---------------------------------------------------------------- the server's requests

  class AppState {
    const db: ClawDb
    var transactions: map<Uuid, Pending>

    ghost var machine: State
    ghost var run: seq<Label>

    /** The ghost copy was reached by a run, and everything but the requests in flight agrees with it. */
    ghost predicate Sync()
      reads this, db
    {
      && Run(db.vector, INITIAL, run) == Some(machine)
      && transactions == machine.pending
      && db.core == machine.core && db.index == machine.index
      && forall id | id in machine.authors :: id < db.nextId
    }

    /** No request but the one that replays `tx` is in flight. */
    ghost predicate OthersRest(tx: Uuid)
      reads this
    {
      machine.unindexed == map[] && forall o | o in machine.workers && o != tx :: machine.workers[o].pc.Ended?
    }

    ghost predicate Valid()
      reads this, db
    {
      Sync() && machine.unindexed == map[] && forall o | o in machine.workers :: machine.workers[o].pc.Ended?
    }

    constructor (db: ClawDb)
      requires db.core == map[] && db.index == []
      ensures Valid() && this.db == db && transactions == map[]
    {
      this.db := db;
      transactions := map[];
      machine, run := INITIAL, [];
    }

    ghost method Step(l: Label)
      requires Run(db.vector, INITIAL, run) == Some(machine) && Enabled(machine, l)
      modifies this`machine, this`run
      ensures Run(db.vector, INITIAL, run) == Some(machine)
      ensures machine == Apply(db.vector, old(machine), l) && run == old(run) + [l]
    {
      ghost var before := run;
      machine, run := Apply(db.vector, machine, l), run + [l];
      assert run[..|before|] == before;
    }

    // ---------------------------------------------------------------- what a request does

    /** `id` was pending and has one more item, or nothing happened; `receipt` is given to that item only. */
    twostate predicate StagedOne(id: Uuid, item: StagedMemory, receipt: Option<Uuid>, new r: Result<(), Failure>)
      reads this, db
    {
      && Valid() && old(run) <= run
      && db.core == old(db.core) && db.index == old(db.index) && db.calls == old(db.calls)
      && r == (if id in old(transactions) then Ok(()) else Err(TransactionNotFound))
      && (receipt.Some? && r.Ok? ==>
            && receipt.value !in old(machine).authors && receipt.value in machine.authors
            && machine.authors[receipt.value] == Receipt(id, |old(transactions)[id].staged|))
      && transactions ==
           if id in old(transactions)
           then old(transactions)[id := old(transactions)[id].(staged := old(transactions)[id].staged + [item])]
           else old(transactions)
    }

    /**
     * `id` is consumed whatever the outcome.  On success every staged item has become a record and the
     * vector engine has those of their entries that it accepted, all in staging order; otherwise
     * nothing has changed.
     */
    twostate predicate CommittedOne(id: Uuid, new r: Result<(), Failure>)
      reads this, db
    {
      && Valid() && old(run) <= run
      && transactions == old(transactions) - {id}
      && (id !in old(transactions) ==> r == Err(TransactionNotFound))
      && (id in old(transactions) ==> r != Err(TransactionNotFound) && r != Err(InvalidArgument))
      && (r.Ok? <==>
            && id in old(transactions) && Accepts(old(transactions)[id].session.scopes, WRITE_MEMORY)
            && AllGood(db.answer, old(db.calls), |old(transactions)[id].staged| + 3))
      && (r.Err? ==> db.core == old(db.core) && db.index == old(db.index))
      && (r.Err? && id in old(transactions) ==>
            r == Err(Db(WhyNot(db.answer(old(db.calls)), old(transactions)[id].session.scopes))))
      && (r.Ok? ==>
            && id in machine.workers
            && var w := machine.workers[id];
            && w.staged == old(transactions)[id].staged
            && |w.drafts| == |w.staged| && (forall k | 0 <= k < |w.drafts| :: w.drafts[k].item == w.staged[k])
            && (forall k | 0 <= k < |w.drafts| :: w.drafts[k].id !in old(machine).authors)
            && db.core == Records(old(db.core), w.drafts)
            && |w.answers| == (if db.vector then |w.drafts| else 0)
            && (forall k | 0 <= k < |w.answers| :: w.answers[k] == db.answer(old(db.calls) + |w.staged| + 3 + k))
            && db.index == old(db.index) + Selected(Entries(w.drafts), w.answers)
            && AllKept(old(db.core), db.core, w.drafts, old(transactions)[id].staged)
            && AllShown(db.index[|old(db.index)|..], w.drafts, old(transactions)[id].staged, w.answers))
    }

    /** `id` is consumed whatever the outcome, and nothing else has changed. */
    twostate predicate RolledBackOne(id: Uuid, new r: Result<(), Failure>)
      reads this, db
    {
      && Valid() && old(run) <= run
      && transactions == old(transactions) - {id}
      && (r == Err(TransactionNotFound) <==> id !in old(transactions)) && r != Err(InvalidArgument)
      && (r.Ok? <==>
            && id in old(transactions) && Accepts(old(transactions)[id].session.scopes, WRITE_MEMORY)
            && AllGood(db.answer, old(db.calls), 3))
      && (r.Err? && id in old(transactions) ==>
            r == Err(Db(WhyNot(db.answer(old(db.calls)), old(transactions)[id].session.scopes))))
      && db.core == old(db.core) && db.index == old(db.index)
    }

    // ---------------------------------------------------------------- the map of pending transactions

    method Begin(tx: Uuid, session: Session)
      requires Valid() && tx !in transactions && tx !in machine.workers
      modifies this
      ensures Valid() && old(run) <= run
      ensures transactions == old(transactions)[tx := Pending(session, [])]
    {
      transactions := transactions[tx := Pending(session, [])];
      Step(Label.Begin(tx, session));
    }

    method StageItem(id: Uuid, item: StagedMemory, receipt: Option<Uuid>) returns (r: Result<(), Failure>)
      requires Valid() && (receipt.Some? ==> receipt.value !in machine.authors && receipt.value < db.nextId)
      modifies this
      ensures StagedOne(id, item, receipt, r) && unchanged(db)
    {
      if id !in transactions {
        return Err(TransactionNotFound);
      }
      var pending := transactions[id];
      transactions := transactions[id := pending.(staged := pending.staged + [item])];
      Step(Label.Stage(id, item, receipt));
      return Ok(());
    }

    /** Takes `id` out of the map; whoever comes second finds nothing. */
    method TakePending(id: Uuid, commit: bool) returns (taken: Option<Pending>)
      requires Valid()
      modifies this
      ensures Sync() && OthersRest(id) && old(run) <= run && transactions == old(transactions) - {id}
      ensures machine.authors == old(machine).authors
      ensures taken == if id in old(transactions) then Some(old(transactions)[id]) else None
      ensures taken.None? ==> Valid()
      ensures taken.Some? ==>
                id in machine.workers && machine.workers[id] ==
                    Worker(taken.value.session, taken.value.staged, commit, Authorise, [], [], [])
    {
      if id !in transactions {
        return None;
      }
      taken := Some(transactions[id]);
      transactions := transactions - {id};
      Step(Take(id, commit));
    }

    // ---------------------------------------------------------------- replaying a transaction

    /** The request that replays `id` stands where `w` says. */
    ghost predicate At(id: Uuid, w: Worker)
      reads this, db
    {
      Sync() && OthersRest(id) && id in machine.workers && machine.workers[id] == w
    }

    /** A step that only the request for `id` notices. */
    ghost method StepAlone(id: Uuid, ok: bool)
      requires Sync() && OthersRest(id) && id in machine.workers
      requires var pc := machine.workers[id].pc;
               pc.Authorise? || pc.BeginInner? || pc.RollbackInner? || (!ok && !pc.Ended?)
      modifies this`machine, this`run
      ensures At(id, Moved(db.vector, old(machine).workers[id], ok, db.nextId))
      ensures machine.authors == old(machine).authors && old(run) <= run
    {
      hide Run, Moved, Records;
      Step(Advance(id, ok, db.nextId));
    }

    /** Authorises the session and opens a transaction of the engine. */
    method Open(id: Uuid, session: Session, ghost w: Worker) returns (r: Result<ClawTransaction, DbError>)
      requires At(id, w) && w.pc == Authorise && w.session == session && w.drafts == []
      modifies this`machine, this`run, db`calls
      ensures machine.authors == old(machine).authors && old(run) <= run
      ensures r.Err? ==> At(id, w.(pc := Ended(false))) && r.error == WhyNot(db.answer(old(db.calls)), session.scopes)
      ensures r.Ok? <==> AllGood(db.answer, old(db.calls), 2) && Accepts(session.scopes, WRITE_MEMORY)
      ensures r.Ok? ==> db.calls == old(db.calls) + 2
      ensures r.Ok? ==> At(id, w.(pc := if w.commit then Inserting(w) else RollbackInner))
      ensures r.Ok? ==> fresh(r.value) && r.value.db == db && r.value.inner == [] && r.value.pendingVectorUpserts == []
    {
      hide Run, Records;
      r := db.Transaction(session);
      assert r.Err? ==> r.error.SessionInvalid? || r.error.PermissionDenied? || r.error.EngineFailed?;
      StepAlone(id, r != Err(SessionInvalid));
      if r.Ok? || r == Err(EngineFailed) {
        StepAlone(id, r.Ok?);
      }
    }

    /** The engine's transaction holds the first `|w.drafts|` staged items. */
    ghost predicate Replaying(id: Uuid, w: Worker, tx: ClawTransaction)
      reads this, db, tx
    {
      && At(id, w) && tx.db == db && w.commit && w.pc == Inserting(w)
      && tx.inner == w.drafts && tx.pendingVectorUpserts == w.upserts
    }

    /** One staged item: inserted as a draft, or the whole transaction is dropped. */
    method ReplayOne(id: Uuid, ghost w: Worker, tx: ClawTransaction, item: StagedMemory)
      returns (r: Result<Uuid, DbError>, ghost w': Worker)
      requires Replaying(id, w, tx) && |w.drafts| < |w.staged| && item == w.staged[|w.drafts|]
      modifies this`machine, this`run, db`calls, db`nextId, tx
      ensures old(run) <= run && old(machine).authors.Keys <= machine.authors.Keys
      ensures r.Ok? == db.answer(old(db.calls)) && db.calls == old(db.calls) + 1
      ensures r.Err? ==> At(id, w.(pc := Ended(false))) && r.error == EngineFailed
      ensures r.Ok? ==>
                && r.value !in old(machine).authors
                && w' == w.(drafts := w.drafts + [Draft(r.value, item)],
                            upserts := w.upserts + [EntryOf(r.value, item)], pc := w'.pc)
                && Replaying(id, w', tx)
    {
      hide Run, Records, EntryOf;
      r := tx.RememberTyped(item);
      w' := w;
      if r.Err? {
        StepAlone(id, false);
      } else {
        Step(Advance(id, true, r.value));
        w' := machine.workers[id];
      }
    }

    /** The machine follows the flush of the vector work, answer by answer. */
    ghost method FollowFlush(id: Uuid, w: Worker, answers: seq<bool>)
      requires Run(db.vector, INITIAL, run) == Some(machine) && id in machine.workers && machine.workers[id] == w
      requires OthersRest(id) && w.pc == Flushing(db.vector, w) && w.answers == []
      requires |answers| == if db.vector then |w.upserts| else 0
      modifies this`machine, this`run
      ensures Run(db.vector, INITIAL, run) == Some(machine) && old(run) <= run && OthersRest(id)
      ensures machine == old(machine).(
                workers := machine.workers, index := old(machine).index + Selected(w.upserts, answers))
      ensures id in machine.workers && machine.workers[id] == w.(answers := answers, pc := Ended(true))
    {
      hide Run, Selected, Answered, Apply, Enabled;
      ghost var n := 0;
      AnsweredEnds(db.vector, w, answers);
      assert old(machine).index + [] == old(machine).index;
      assert answers[..0] == [] && machine.workers[id := w] == machine.workers;
      while n < |answers|
        invariant 0 <= n <= |answers|
        invariant Run(db.vector, INITIAL, run) == Some(machine) && old(run) <= run
        invariant machine == old(machine).(
          workers := old(machine).workers[id := Answered(db.vector, w, answers[..n])],
          index := old(machine).index + Selected(w.upserts, answers[..n]))
      {
        assert answers[..n + 1] == answers[..n] + [answers[n]];
        SelectedNext(w.upserts, answers[..n], answers[n]);
        FlushOne(db.vector, machine, id, w, answers[..n], answers[n]);
        Step(Advance(id, answers[n], 0));
        n := n + 1;
        assert machine.workers == old(machine).workers[id := Answered(db.vector, w, answers[..n])];
      }
      assert answers[..n] == answers;
    }

    /** The machine follows a commit and its flush. */
    ghost method FollowCommit(id: Uuid, w: Worker, answers: seq<bool>)
      requires Run(db.vector, INITIAL, run) == Some(machine) && id in machine.workers && machine.workers[id] == w
      requires OthersRest(id) && w.pc == CommitInner && w.answers == []
      requires |answers| == if db.vector then |w.upserts| else 0
      modifies this`machine, this`run
      ensures Run(db.vector, INITIAL, run) == Some(machine) && old(run) <= run && OthersRest(id)
      ensures machine == old(machine).(
                workers := machine.workers, core := Records(old(machine).core, w.drafts), ever := machine.ever,
                index := old(machine).index + Selected(w.upserts, answers))
      ensures id in machine.workers && machine.workers[id] == w.(answers := answers, pc := Ended(true))
    {
      hide Run, Records, Selected, Apply, Enabled;
      CommitInnerStep(db.vector, machine, id, w);
      Step(Advance(id, true, 0));
      FollowFlush(id, machine.workers[id], answers);
    }

    /** All items are in: commits the engine's transaction and flushes the vector work. */
    method Finish(id: Uuid, ghost w: Worker, tx: ClawTransaction) returns (r: Result<(), DbError>)
      requires Replaying(id, w, tx) && |w.drafts| == |w.staged| && w.answers == []
      modifies this`machine, this`run, db`calls, db`core, db`index, tx`pendingVectorUpserts
      ensures old(run) <= run && machine.authors == old(machine).authors
      ensures r.Ok? == db.answer(old(db.calls))
      ensures r.Err? ==>
                At(id, w.(pc := Ended(false))) && r.error == EngineFailed
                && db.core == old(db.core) && db.index == old(db.index)
      ensures r.Ok? ==>
                && id in machine.workers
                && var answers := machine.workers[id].answers;
                && At(id, w.(answers := answers, pc := Ended(true)))
                && |answers| == (if db.vector then |w.upserts| else 0)
                && (forall k | 0 <= k < |answers| :: answers[k] == db.answer(old(db.calls) + 1 + k))
                && db.core == Records(old(db.core), w.drafts)
                && db.index == old(db.index) + Selected(w.upserts, answers)
    {
      hide Run, Records, Selected, Apply, Enabled;
      ghost var answers;
      r, answers := tx.Commit();
      if r.Err? {
        StepAlone(id, false);
      } else {
        FollowCommit(id, w, answers);
      }
    }

    /** All staged items in order, up to the first that the engine refuses. */
    method ReplayAll(id: Uuid, ghost w0: Worker, tx: ClawTransaction, staged: seq<StagedMemory>)
      returns (r: Result<(), DbError>, ghost w: Worker)
      requires Replaying(id, w0, tx) && w0.drafts == [] && w0.staged == staged && w0.answers == []
      modifies this`machine, this`run, db`calls, db`nextId, tx
      ensures old(run) <= run
      ensures r.Ok? == AllGood(db.answer, old(db.calls), |staged|) && (r.Ok? ==> db.calls == old(db.calls) + |staged|)
      ensures r.Err? ==> At(id, w) && w.pc == Ended(false) && r.error == EngineFailed
      ensures r.Ok? ==> Replaying(id, w, tx) && w.staged == staged && |w.drafts| == |staged| && w.answers == []
      ensures forall k | 0 <= k < |w.drafts| && r.Ok? ::
                w.drafts[k].item == staged[k] && w.drafts[k].id !in old(machine).authors
    {
      hide At, Sync, Run, Records, EntryOf, Inserting, AllGood;
      AllGoodNext(db.answer, db.calls, 0);
      w := w0;
      for i := 0 to |staged|
        invariant Replaying(id, w, tx)
        invariant |w.drafts| == i && w.staged == staged && w.answers == []
        invariant forall k | 0 <= k < i :: w.drafts[k].item == staged[k] && w.drafts[k].id !in old(machine).authors
        invariant old(machine).authors.Keys <= machine.authors.Keys && old(run) <= run
        invariant db.calls == old(db.calls) + i && AllGood(db.answer, old(db.calls), i)
      {
        AllGoodNext(db.answer, old(db.calls), i);
        AllGoodNext(db.answer, old(db.calls), i + 1);
        var inserted, w' := ReplayOne(id, w, tx, staged[i]);
        if inserted.Err? {
          return Err(inserted.error), w.(pc := Ended(false));
        }
        w := w';
      }
      r := Ok(());
    }

    /** Inserts the staged items, commits, and flushes. */
    method Complete(id: Uuid, ghost w0: Worker, tx: ClawTransaction, staged: seq<StagedMemory>)
      returns (r: Result<(), DbError>)
      requires Replaying(id, w0, tx) && w0.drafts == [] && w0.staged == staged && w0.answers == []
      modifies this`machine, this`run, db, tx
      ensures old(run) <= run && Sync() && OthersRest(id) && id in machine.workers
      ensures machine.workers[id].pc == Ended(r.Ok?)
      ensures r.Ok? <==> AllGood(db.answer, old(db.calls), |staged| + 1)
      ensures r.Err? ==> r.error == EngineFailed && db.core == old(db.core) && db.index == old(db.index)
      ensures r.Ok? ==> var w := machine.workers[id];
                && w.staged == staged && |w.drafts| == |staged| && w.commit
                && (forall k | 0 <= k < |w.drafts| ::
                      w.drafts[k].item == staged[k] && w.drafts[k].id !in old(machine).authors)
                && |w.answers| == (if db.vector then |w.upserts| else 0)
                && (forall k | 0 <= k < |w.answers| :: w.answers[k] == db.answer(old(db.calls) + |staged| + 1 + k))
                && db.core == Records(old(db.core), w.drafts)
                && db.index == old(db.index) + Selected(w.upserts, w.answers)
    {
      hide Sync, Run, Records, Selected, AllGood, Inserting;
      AllGoodNext(db.answer, db.calls, |staged|);
      var replayed, w := ReplayAll(id, w0, tx, staged);
      if replayed.Err? {
        return Err(replayed.error);
      }
      r := Finish(id, w, tx);
    }

    /** Replays the staged items of a transaction that has been taken to be committed. */
    method Replay(id: Uuid, pending: Pending) returns (r: Result<(), DbError>)
      requires At(id, Worker(pending.session, pending.staged, true, Authorise, [], [], []))
      modifies this`machine, this`run, db
      ensures old(run) <= run && Sync() && OthersRest(id) && id in machine.workers
      ensures machine.workers[id].pc == Ended(r.Ok?)
      ensures r.Ok? <==>
                Accepts(pending.session.scopes, WRITE_MEMORY) && AllGood(db.answer, old(db.calls), |pending.staged| + 3)
      ensures r.Err? ==> r.error == WhyNot(db.answer(old(db.calls)), pending.session.scopes)
      ensures r.Err? ==> db.core == old(db.core) && db.index == old(db.index)
      ensures r.Ok? ==> var w := machine.workers[id];
                && w.staged == pending.staged && |w.drafts| == |w.staged| && w.commit
                && (forall k | 0 <= k < |w.drafts| ::
                      w.drafts[k].item == w.staged[k] && w.drafts[k].id !in old(machine).authors)
                && |w.answers| == (if db.vector then |w.upserts| else 0)
                && (forall k | 0 <= k < |w.answers| :: w.answers[k] == db.answer(old(db.calls) + |w.staged| + 3 + k))
                && db.core == Records(old(db.core), w.drafts)
                && db.index == old(db.index) + Selected(w.upserts, w.answers)
    {
      hide Sync, Run, Records, Selected, Accepts, AllGood, Inserting;
      AllGoodInThree(db.answer, db.calls, |pending.staged|);
      FallbacksAreRedundant(pending.session.scopes);
      var begun := Open(id, pending.session, machine.workers[id]);
      if begun.Err? {
        return Err(begun.error);
      }
      InsertingIgnoresPc(Worker(pending.session, pending.staged, true, Authorise, [], [], []));
      r := Complete(id, machine.workers[id], begun.value, pending.staged);
    }

    // ---------------------------------------------------------------- commit and rollback

    method CommitPending(id: Uuid) returns (r: Result<(), Failure>)
      requires Valid()
      modifies this, db
      ensures CommittedOne(id, r)
    {
      hide Run, Records, Selected, Entries, EntryOf, Apply, Enabled, Moved, Accepts, AllKept, AllShown;
      CoreIsAuthored(db.vector, run, machine);
      var taken := TakePending(id, true);
      if taken.None? {
        return Err(TransactionNotFound);
      }
      var done := Replay(id, taken.value);
      UpsertsOf(db.vector, run, machine, id);
      if done.Ok? {
        ghost var w := machine.workers[id];
        DraftsDiffer(db.vector, run, machine, id);
        RecordsKeepAll(old(db.core), w.drafts, taken.value.staged);
        SelectedShowAll(w.drafts, taken.value.staged, w.answers);
        assert db.index[|old(db.index)|..] == Selected(Entries(w.drafts), w.answers);
      }
      r := if done.Ok? then Ok(()) else Err(Db(done.error));
    }

    /** Opens a transaction of the engine only to roll it back. */
    method Undo(id: Uuid, pending: Pending) returns (r: Result<(), DbError>)
      requires At(id, Worker(pending.session, pending.staged, false, Authorise, [], [], []))
      modifies this`machine, this`run, db`calls
      ensures old(run) <= run && Sync() && OthersRest(id) && id in machine.workers
      ensures machine.workers[id].pc == Ended(r.Ok?)
      ensures r.Ok? <==> Accepts(pending.session.scopes, WRITE_MEMORY) && AllGood(db.answer, old(db.calls), 3)
      ensures r.Err? ==> r.error == WhyNot(db.answer(old(db.calls)), pending.session.scopes)
    {
      hide Run, Records, Accepts, AllGood;
      AllGoodInThree(db.answer, db.calls, 0);
      FallbacksAreRedundant(pending.session.scopes);
      var begun := Open(id, pending.session, machine.workers[id]);
      if begun.Err? {
        return Err(begun.error);
      }
      r := begun.value.Rollback();
      StepAlone(id, r.Ok?);
    }

    method RollbackPending(id: Uuid) returns (r: Result<(), Failure>)
      requires Valid()
      modifies this, db
      ensures RolledBackOne(id, r)
    {
      hide Run, Records, Apply, Enabled, Accepts, AllGood, Moved;
      var taken := TakePending(id, false);
      if taken.None? {
        return Err(TransactionNotFound);
      }
      var done := Undo(id, taken.value);
      r := if done.Ok? then Ok(()) else Err(Db(done.error));
    }

    // ---------------------------------------------------------------- writes outside transactions

    method Remember(session: Session, item: StagedMemory) returns (r: Result<(Uuid, bool), DbError>)
      requires Valid()
      modifies this`machine, this`run, db
      ensures Valid() && old(run) <= run && transactions == old(transactions)
      ensures r.Ok? <==> AllGood(db.answer, old(db.calls), 2) && Accepts(session.scopes, WRITE_MEMORY)
      ensures r.Ok? ==>
                && r.value.0 !in old(machine).authors
                && db.core == old(db.core)[r.value.0 := RecordOf(item)]
                && r.value.1 == (db.vector && db.answer(old(db.calls) + 2))
                && db.index == old(db.index) + (if r.value.1 then [EntryOf(r.value.0, item)] else [])
                && Keeps(db.core[r.value.0], item)
                && (r.value.1 ==> Shows(db.index[|db.index| - 1], r.value.0, item))
      ensures r.Err? ==> db.core == old(db.core) && db.index == old(db.index)
      ensures r.Err? ==> r.error == WhyNot(db.answer(old(db.calls)), session.scopes)
    {
      hide Run, Records, RecordOf, EntryOf, Accepts, AllGood, Keeps, Shows;
      r := db.RememberTyped(session, item);
      if r.Ok? {
        var id, indexed := r.value.0, r.value.1;
        RememberSteps(db.vector, machine, id, item, indexed);
        Step(Label.Remember(id, item));
        if db.vector {
          Step(IndexDirect(id, indexed));
        }
      }
    }

    method DeleteMemory(session: Session, id: Uuid) returns (r: Result<(), DbError>)
      requires Valid()
      modifies this`machine, this`run, db`calls, db`core
      ensures Valid() && old(run) <= run && transactions == old(transactions)
      ensures r.Ok? <==> AllGood(db.answer, old(db.calls), 2) && Accepts(session.scopes, WRITE_MEMORY)
      ensures db.core == if r.Ok? then old(db.core) - {id} else old(db.core)
      ensures r.Err? ==> r.error == WhyNot(db.answer(old(db.calls)), session.scopes)
    {
      hide Run, Accepts, AllGood;
      r := db.DeleteMemory(session, id);
      if r.Ok? {
        Step(Delete(id));
      }
    }

    method UpdateMemory(session: Session, id: Uuid, content: string) returns (r: Result<(), DbError>)
      requires Valid()
      modifies this`machine, this`run, db`calls, db`core
      ensures Valid() && old(run) <= run && transactions == old(transactions)
      ensures r.Ok? <==> AllGood(db.answer, old(db.calls), 2) && Accepts(session.scopes, WRITE_MEMORY)
      ensures db.core ==
              if r.Ok? && id in old(db.core) then old(db.core)[id := old(db.core)[id].(content := content)]
              else old(db.core)
      ensures r.Err? ==> r.error == WhyNot(db.answer(old(db.calls)), session.scopes)
    {
      hide Run, Accepts, AllGood;
      r := db.UpdateMemory(session, id, content);
      if r.Ok? {
        Step(Update(id, content));
      }
    }
  }

  lemma RememberSteps(vector: bool, s: State, id: Uuid, item: StagedMemory, ok: bool)
    requires s.unindexed == map[] && id !in s.authors
    ensures Enabled(s, Remember(id, item))
    ensures vector ==> Enabled(Apply(vector, s, Remember(id, item)), IndexDirect(id, ok))
    ensures Apply(vector, s, Remember(id, item)).unindexed == if vector then map[id := EntryOf(id, item)] else map[]
  {
  }

  // ---------------------------------------------------------------- the two front ends

  datatype MemoryBody = MemoryBody(content: string, memoryType: Option<string>, tags: seq<string>, metadata: Json)

  /** The HTTP requests; the router has parsed the path's identifier and the body. */
  class HttpRouter {
    const state: AppState

    constructor (state: AppState)
      ensures this.state == state
    {
      this.state := state;
    }

    method BeginTransaction(tx: Uuid, session: Session)
      requires state.Valid() && tx !in state.transactions && tx !in state.machine.workers
      modifies state
      ensures state.Valid() && state.transactions == old(state.transactions)[tx := Pending(session, [])]
    {
      state.Begin(tx, session);
    }

    method TxRemember(id: Uuid, content: string) returns (r: Result<(), Failure>)
      requires state.Valid()
      modifies state
      ensures state.StagedOne(id, StagedMemory(content, "semantic", [], Null), None, r)
    {
      r := state.StageItem(id, StagedMemory(content, "semantic", [], Null), None);
    }

    method TxRememberTyped(id: Uuid, body: MemoryBody) returns (r: Result<(), Failure>)
      requires state.Valid()
      modifies state
      ensures body.memoryType.Some? ==>
                state.StagedOne(
                  id, StagedMemory(body.content, body.memoryType.value, body.tags, body.metadata), None, r)
      ensures body.memoryType.None? ==>
                state.StagedOne(id, StagedMemory(body.content, "semantic", body.tags, body.metadata), None, r)
    {
      var memoryType := if body.memoryType.Some? then body.memoryType.value else "semantic";
      r := state.StageItem(id, StagedMemory(body.content, memoryType, body.tags, body.metadata), None);
    }

    method CommitTransaction(id: Uuid) returns (r: Result<(), Failure>)
      requires state.Valid()
      modifies state, state.db
      ensures state.CommittedOne(id, r)
    {
      r := state.CommitPending(id);
    }

    method RollbackTransaction(id: Uuid) returns (r: Result<(), Failure>)
      requires state.Valid()
      modifies state, state.db
      ensures state.RolledBackOne(id, r)
    {
      r := state.RollbackPending(id);
    }
  }

  lemma {:induction false} BlankIsTrimmedAway(s: string)
    ensures Blank(s) <==> Trimmed(s) == ""
  {
    if s != "" {
      if IsSpace(s[0]) {
        BlankIsTrimmedAway(s[1..]);
        assert Blank(s[1..]) ==> Blank(s) by { assert forall i | 0 < i < |s| :: s[i] == s[1..][i - 1]; }
      } else {
        assert !Blank(s);
        if IsSpace(s[|s| - 1]) {
          BlankIsTrimmedAway(s[..|s| - 1]);
          assert s[..|s| - 1] != "" ==> s[..|s| - 1][0] == s[0];
        }
      }
    }
  }

  /** The gRPC requests, which parse their own arguments and then do what the HTTP requests do. */
  class GrpcService {
    const state: AppState
    const parseUuid: string -> Option<Uuid>
    const parseJson: string -> Option<Json>

    constructor (state: AppState, parseUuid: string -> Option<Uuid>, parseJson: string -> Option<Json>)
      ensures this.state == state && this.parseUuid == parseUuid && this.parseJson == parseJson
    {
      this.state, this.parseUuid, this.parseJson := state, parseUuid, parseJson;
    }

    /** `session` is what authentication made of the request, if it accepted it. */
    method BeginTx(tx: Uuid, session: Option<Session>) returns (r: Result<Uuid, DbError>)
      requires state.Valid() && tx !in state.transactions && tx !in state.machine.workers
      modifies state
      ensures state.Valid()
      ensures r == if session.Some? then Ok(tx) else Err(SessionInvalid)
      ensures state.transactions ==
              if session.Some? then old(state.transactions)[tx := Pending(session.value, [])]
              else old(state.transactions)
    {
      if session.None? {
        return Err(SessionInvalid);
      }
      state.Begin(tx, session.value);
      return Ok(tx);
    }

    /** The item was staged under a receipt that is returned, or nothing happened. */
    twostate predicate StagedFor(txId: string, item: StagedMemory, new r: Result<Uuid, Failure>)
      reads this, state, state.db
    {
      && parseUuid(txId).Some?
      && state.StagedOne(
           parseUuid(txId).value, item, if r.Ok? then Some(r.value) else None,
           if r.Ok? then Ok(()) else Err(r.error))
    }

    /** Stages `item` and answers with an identifier made for the purpose. */
    method StageItem(id: Uuid, item: StagedMemory) returns (r: Result<Uuid, Failure>)
      requires state.Valid()
      modifies state, state.db`nextId
      ensures state.StagedOne(
                id, item, if r.Ok? then Some(r.value) else None, if r.Ok? then Ok(()) else Err(r.error))
    {
      var stagedId := state.db.FreshId();
      var staged := state.StageItem(id, item, Some(stagedId));
      r := if staged.Ok? then Ok(stagedId) else Err(staged.error);
    }

    method TxRemember(txId: string, content: string) returns (r: Result<Uuid, Failure>)
      requires state.Valid()
      modifies state, state.db`nextId
      ensures parseUuid(txId).None? ==> r == Err(InvalidArgument) && unchanged(state) && unchanged(state.db)
      ensures parseUuid(txId).Some? ==> StagedFor(txId, StagedMemory(content, "semantic", [], Null), r)
    {
      var id := parseUuid(txId);
      if id.None? {
        return Err(InvalidArgument);
      }
      r := StageItem(id.value, StagedMemory(content, "semantic", [], Null));
    }

    /** Blank metadata is `null`; metadata that does not parse is refused before the map is looked at. */
    method TxRememberTyped(
      txId: string, content: string, memoryType: string, tags: seq<string>, metadataJson: string)
      returns (r: Result<Uuid, Failure>)
      requires state.Valid()
      modifies state, state.db`nextId
      ensures var metadata := if Blank(metadataJson) then Some(Null) else parseJson(metadataJson);
              if parseUuid(txId).None? || metadata.None? then
                r == Err(InvalidArgument) && unchanged(state) && unchanged(state.db)
              else StagedFor(txId, StagedMemory(content, memoryType, tags, metadata.value), r)
    {
      var id := parseUuid(txId);
      if id.None? {
        return Err(InvalidArgument);
      }
      BlankIsTrimmedAway(metadataJson);
      var metadata := if Trimmed(metadataJson) == "" then Some(Null) else parseJson(metadataJson);
      if metadata.None? {
        return Err(InvalidArgument);
      }
      r := StageItem(id.value, StagedMemory(content, memoryType, tags, metadata.value));
    }

    method CommitTx(txId: string) returns (r: Result<(), Failure>)
      requires state.Valid()
      modifies state, state.db
      ensures parseUuid(txId).None? ==> r == Err(InvalidArgument) && unchanged(state) && unchanged(state.db)
      ensures parseUuid(txId).Some? ==> state.CommittedOne(parseUuid(txId).value, r)
    {
      var id := parseUuid(txId);
      if id.None? {
        return Err(InvalidArgument);
      }
      r := state.CommitPending(id.value);
    }

    method RollbackTx(txId: string) returns (r: Result<(), Failure>)
      requires state.Valid()
      modifies state, state.db
      ensures parseUuid(txId).None? ==> r == Err(InvalidArgument) && unchanged(state) && unchanged(state.db)
      ensures parseUuid(txId).Some? ==> state.RolledBackOne(parseUuid(txId).value, r)
    {
      var id := parseUuid(txId);
      if id.None? {
        return Err(InvalidArgument);
      }
      r := state.RollbackPending(id.value);
    }
  }
}
