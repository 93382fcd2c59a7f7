/** The session store and the session manager as the program runs them, one request at a time. */
module SessionManager {
  import opened Wrappers
  import opened SessionTypes
  import opened SessionProtocol

  class SessionStore {
    var sessions: Sessions

    constructor ()
      ensures sessions == map[]
    {
      sessions := map[];
    }

    method Insert(ctx: Context)
      modifies this
      ensures sessions == old(sessions)[ctx.id := ctx]
    {
      sessions := sessions[ctx.id := ctx];
    }

    method Lookup(id: Uuid, now: int) returns (r: Result<Context, SessionError>)
      ensures r == Get(sessions, id, now)
      ensures r.Ok? <==> id in Live(sessions, now)
      ensures r.Ok? ==> r.value == sessions[id] && r.value.expiresAt > now
      ensures r == Err(SessionExpired) <==> id in sessions && sessions[id].expiresAt <= now
      ensures r == Err(SessionNotFound) <==> id !in sessions
    {
      if id !in sessions {
        return Err(SessionNotFound);
      }
      var ctx := sessions[id];
      if !IsLive(ctx, now) {
        return Err(SessionExpired);
      }
      return Ok(ctx);
    }

    method Remove(id: Uuid) returns (removed: Option<Context>)
      modifies this
      ensures removed == if id in old(sessions) then Some(old(sessions)[id]) else None
      ensures sessions == old(sessions) - {id}
    {
      removed := if id in sessions then Some(sessions[id]) else None;
      sessions := sessions - {id};
    }

    /** Whatever order the concurrent map is walked in. */
    method Walk(chosen: Sessions) returns (items: seq<Context>)
      requires Keyed(chosen)
      ensures Lists(items, chosen) && |items| == |chosen|
    {
      items := [];
      var rest := chosen;
      while rest != map[]
        invariant rest.Keys <= chosen.Keys && forall id | id in rest :: rest[id] == chosen[id]
        invariant Lists(items, chosen - rest.Keys)
        invariant |items| + |rest| == |chosen|
        decreases |rest|
      {
        var id :| id in rest;
        ListsNext(items, chosen, rest.Keys, id);
        items := items + [rest[id]];
        ghost var smaller := rest - {id};
        assert rest.Keys == smaller.Keys + {id} && |rest.Keys| == |rest| && |smaller.Keys| == |smaller|;
        rest := rest - {id};
      }
      assert chosen - {} == chosen;
    }

    /** The agent's live sessions. */
    method ListForAgent(agent: Uuid, now: int) returns (items: seq<Context>)
      requires Keyed(sessions)
      ensures Lists(items, OfAgent(Live(sessions, now), agent))
      ensures forall i | 0 <= i < |items| :: items[i].agent == agent && items[i].expiresAt > now
      ensures forall id | id in sessions && sessions[id].agent == agent && sessions[id].expiresAt > now ::
                exists i :: 0 <= i < |items| && items[i].id == id
    {
      items := Walk(OfAgent(Live(sessions, now), agent));
      assert forall id | id in sessions && sessions[id].agent == agent && sessions[id].expiresAt > now ::
               id in OfAgent(Live(sessions, now), agent);
    }

    /** The identifiers of the agent's sessions, live or expired. */
    method IdsForAgent(agent: Uuid) returns (ids: seq<Uuid>)
      requires Keyed(sessions)
      ensures forall id :: id in ids <==> id in sessions && sessions[id].agent == agent
      ensures forall i, j | 0 <= i < j < |ids| :: ids[i] != ids[j]
      ensures |ids| == |OfAgent(sessions, agent)|
    {
      var items := Walk(OfAgent(sessions, agent));
      ids := seq(|items|, i requires 0 <= i < |items| => items[i].id);
      forall id ensures id in ids <==> id in OfAgent(sessions, agent) {
        if id in OfAgent(sessions, agent) {
          var i :| 0 <= i < |items| && items[i].id == id;
          assert ids[i] == id;
        }
      }
    }

    method PurgeExpired(now: int) returns (purged: nat)
      modifies this
      ensures sessions == Live(old(sessions), now)
      ensures purged == |old(sessions)| - |sessions|
      ensures forall id :: id in sessions <==> id in old(sessions) && old(sessions)[id].expiresAt > now
      ensures forall id | id in old(sessions) && id !in sessions :: Get(old(sessions), id, now) == Err(SessionExpired)
    {
      var before := |sessions|;
      LiveIsSmaller(sessions, now);
      sessions := Live(sessions, now);
      purged := before - |sessions|;
    }

    method LiveCount(now: int) returns (count: nat)
      ensures count == |Live(sessions, now)|
    {
      count := 0;
      var rest := sessions.Keys;
      LiveAmong(sessions, now);
      assert sessions.Keys - rest == {};
      while rest != {}
        invariant rest <= sessions.Keys
        invariant count == |Among(sessions, sessions.Keys - rest, now)|
      {
        var id :| id in rest;
        LiveAmongNext(sessions, sessions.Keys - rest, id, now);
        assert sessions.Keys - (rest - {id}) == (sessions.Keys - rest) + {id};
        rest := rest - {id};
        if IsLive(sessions[id], now) {
          count := count + 1;
        }
      }
      assert sessions.Keys - rest == sessions.Keys;
      LiveAmong(sessions, now);
    }

    /** What a graceful shutdown writes, unless encoding or writing fails. */
    method PersistTo(now: int, written: bool) returns (r: Result<seq<Context>, SessionError>)
      requires Keyed(sessions)
      ensures r.Ok? <==> written
      ensures r.Ok? ==> Lists(r.value, Live(sessions, now))
      ensures r.Err? ==> r.error == FileFailed
    {
      var file := Walk(Live(sessions, now));
      if !written {
        return Err(FileFailed);
      }
      return Ok(file);
    }

    /** Reads back what was written, if there is a file and it can be read, and counts what it loads. */
    method RestoreFrom(found: Option<Result<seq<Context>, SessionError>>, now: int)
      returns (r: Result<nat, SessionError>)
      modifies this
      ensures found.None? ==> r == Ok(0) && sessions == old(sessions)
      ensures found.Some? && found.value.Err? ==> r == Err(found.value.error) && sessions == old(sessions)
      ensures found.Some? && found.value.Ok? ==>
                r == Ok(LiveIn(found.value.value, now)) && sessions == Restored(old(sessions), found.value.value, now)
    {
      if found.None? {
        return Ok(0);
      }
      if found.value.Err? {
        return Err(found.value.error);
      }
      var file, loaded := found.value.value, 0;
      for i := 0 to |file|
        invariant sessions == Restored(old(sessions), file[..i], now)
        invariant loaded == LiveIn(file[..i], now)
      {
        var ctx := file[i];
        assert file[..i + 1][..i] == file[..i];
        if IsLive(ctx, now) {
          sessions := sessions[ctx.id := ctx];
          loaded := loaded + 1;
        }
      }
      assert file[..|file|] == file;
      return Ok(loaded);
    }
  }

  function LiveIn(file: seq<Context>, now: int): nat {
    if file == [] then 0
    else LiveIn(file[..|file| - 1], now) + (if IsLive(file[|file| - 1], now) then 1 else 0)
  }

  /** The live sessions among those in `seen`. */
  function Among(sessions: Sessions, seen: set<Uuid>, now: int): set<Uuid> {
    set id | id in seen && id in sessions && IsLive(sessions[id], now)
  }

  lemma LiveAmong(sessions: Sessions, now: int)
    ensures Among(sessions, {}, now) == {}
    ensures |Among(sessions, sessions.Keys, now)| == |Live(sessions, now)|
  {
    assert Among(sessions, sessions.Keys, now) == Live(sessions, now).Keys;
  }

  lemma LiveAmongNext(sessions: Sessions, seen: set<Uuid>, id: Uuid, now: int)
    requires id in sessions && id !in seen
    ensures |Among(sessions, seen + {id}, now)| ==
            |Among(sessions, seen, now)| + if IsLive(sessions[id], now) then 1 else 0
  {
    assert Among(sessions, seen + {id}, now) ==
           Among(sessions, seen, now) + if IsLive(sessions[id], now) then {id} else {};
  }

  lemma ListsNext(items: seq<Context>, chosen: Sessions, rest: set<Uuid>, id: Uuid)
    requires Keyed(chosen) && rest <= chosen.Keys && id in rest && Lists(items, chosen - rest)
    ensures Lists(items + [chosen[id]], chosen - (rest - {id}))
  {
    var after := items + [chosen[id]];
    forall k | k in chosen - (rest - {id})
      ensures exists i :: 0 <= i < |after| && after[i].id == k
    {
      if k == id {
        assert after[|items|].id == k;
      } else {
        assert k in chosen - rest;
        var i :| 0 <= i < |items| && items[i].id == k;
        assert after[i].id == k;
      }
    }
  }

  lemma LiveIsSmaller(sessions: Sessions, now: int)
    ensures |Live(sessions, now)| <= |sessions|
  {
    assert Live(sessions, now).Keys <= sessions.Keys;
    SubsetIsSmaller(Live(sessions, now).Keys, sessions.Keys);
  }

  lemma {:induction false} SubsetIsSmaller<T>(a: set<T>, b: set<T>)
    requires a <= b
    ensures |a| <= |b|
  {
    if a != {} {
      var x :| x in a;
      SubsetIsSmaller(a - {x}, b - {x});
    }
  }

  // ---------------------------------------------------------------- the manager

  /** Bridges the store and the guard; `answer` decides whether the guard's next call succeeds. */
  class SessionManager {
    const store: SessionStore
    const hasGuard: bool
    const answer: nat -> bool
    const issued: nat -> string
    const claims: string -> Uuid
    const workspace: Uuid
    var calls: nat
    var disk: map<string, seq<Context>>

    ghost const start: int
    ghost var machine: State
    ghost var run: seq<Label>

    /** Store and files are as a run of the protocol left them, with nothing in flight. */
    ghost predicate Valid()
      reads this, store
    {
      && Run(Initial(start), run) == Some(machine)
      && store.sessions == machine.sessions
      && machine.refreshing == map[] && machine.saving == map[] && machine.restoring == map[]
      && Written(disk, machine.files)
    }

    constructor (
      hasGuard: bool, answer: nat -> bool, issued: nat -> string, claims: string -> Uuid, workspace: Uuid,
      ghost now: int)
      ensures Valid() && fresh(store) && store.sessions == map[] && machine.clock == now
      ensures this.workspace == workspace && calls == 0 && disk == map[]
      ensures this.hasGuard == hasGuard && this.answer == answer && this.issued == issued && this.claims == claims
    {
      store := new SessionStore();
      this.hasGuard, this.answer, this.issued, this.claims := hasGuard, answer, issued, claims;
      this.workspace, calls, disk := workspace, 0, map[];
      start, machine, run := now, Initial(now), [];
    }

    ghost method Step(l: Label)
      requires Run(Initial(start), run) == Some(machine) && Enabled(machine, l)
      modifies this`machine, this`run
      ensures Run(Initial(start), run) == Some(machine)
      ensures machine == Apply(old(machine), l) && run == old(run) + [l]
    {
      ghost var before := run;
      machine, run := Apply(machine, l), run + [l];
      assert run[..|before|] == before;
    }

    method Guard() returns (ok: bool)
      modifies this`calls
      ensures ok == answer(old(calls)) && calls == old(calls) + 1
    {
      ok := answer(calls);
      calls := calls + 1;
    }

    /** The time is read after the guard has answered; `id` is fresh. */
    method Create(agent: Uuid, role: string, scopes: seq<string>, taskType: Option<string>, id: Uuid, now: int)
      returns (r: Result<ClawDbSession, SessionError>)
      requires Valid() && machine.clock <= now && id !in machine.ever
      modifies this`machine, this`run, this`calls, store
      ensures Valid() && old(run) <= run
      ensures r.Ok? <==> hasGuard && answer(old(calls))
      ensures calls == old(calls) + (if hasGuard then 1 else 0)
      ensures r.Err? ==>
                && store.sessions == old(store.sessions)
                && r.error == if hasGuard then GuardFailed else GuardNotReady
      ensures r.Ok? ==>
                && r.value == ClawDbSession(
                     id, agent, workspace, role, scopes, taskType, issued(old(calls)), now,
                     now + DEFAULT_SESSION_SECS, Null)
                && store.sessions == old(store.sessions)[id := Context(
                     id, agent, issued(old(calls)), role, scopes,
                     if taskType.Some? then taskType.value else "", now + DEFAULT_SESSION_SECS)]
                && forall t :: Get(store.sessions, id, t).Ok? <==> t < now + DEFAULT_SESSION_SECS
    {
      if !hasGuard {
        return Err(GuardNotReady);
      }
      var token := issued(calls);
      var ok := Guard();
      if !ok {
        return Err(GuardFailed);
      }
      var session := ClawDbSession(
        id, agent, workspace, role, scopes, taskType, token, now, now + DEFAULT_SESSION_SECS, Null);
      hide Run, Apply, Enabled, Written, Get;
      CreateStep(machine, AsContext(session), now);
      store.Insert(AsContext(session));
      FoundUntil(old(store.sessions), store.sessions, AsContext(session));
      Step(Label(now, SessionProtocol.Create(AsContext(session), now)));
      return Ok(session);
    }

    /** Looks a session up by its token; the guard knows whose token it is. */
    method Validate(token: string, now: int) returns (r: Result<Context, SessionError>)
      modifies this`calls
      ensures r == if !hasGuard then Err(GuardNotReady)
                   else if !answer(old(calls)) then Err(GuardFailed)
                   else Get(store.sessions, claims(token), now)
      ensures calls == old(calls) + (if hasGuard then 1 else 0)
    {
      if !hasGuard {
        return Err(GuardNotReady);
      }
      var ok := Guard();
      if !ok {
        return Err(GuardFailed);
      }
      r := store.Lookup(claims(token), now);
    }

    /** Looked up at `asked`, written back at `now`, after the guard has issued a new token. */
    method Refresh(id: Uuid, asked: int, now: int) returns (r: Result<Context, SessionError>)
      requires Valid() && machine.clock <= asked <= now
      modifies this`machine, this`run, this`calls, store
      ensures Valid() && old(run) <= run
      ensures var found := Get(old(store.sessions), id, asked);
              r == if found.Err? then found
                   else if !hasGuard then Err(GuardNotReady)
                   else if !answer(old(calls)) then Err(GuardFailed)
                   else Ok(found.value.(token := issued(old(calls)), expiresAt := now + DEFAULT_SESSION_SECS))
      ensures store.sessions == if r.Ok? then old(store.sessions)[id := r.value] else old(store.sessions)
      ensures r.Ok? ==> r.value.expiresAt >= old(store.sessions)[id].expiresAt
      ensures calls == old(calls) + (if Get(old(store.sessions), id, asked).Ok? && hasGuard then 1 else 0)
    {
      RunKeepsInv(Initial(start), run);
      r := store.Lookup(id, asked);
      if r.Err? {
        return;
      }
      if !hasGuard {
        return Err(GuardNotReady);
      }
      KeyedBy(machine, id);
      hide Run, Inv, Apply, Enabled, Written, Granted;
      RefreshStarts(machine, id, asked);
      Step(Label(asked, StartRefresh(0, id)));
      RefreshReads(machine, r.value, "", asked);
      var token := issued(calls);
      var ok := Guard();
      if !ok {
        Step(Label(asked, AbortRefresh(0)));
        return Err(GuardFailed);
      }
      var refreshed := r.value.(token := token, expiresAt := now + DEFAULT_SESSION_SECS);
      RefreshReads(machine, r.value, token, now);
      Step(Label(now, ReadClock(0, token)));
      store.Insert(refreshed);
      RefreshEnds(machine, r.value, refreshed, now);
      Step(Label(now, FinishRefresh(0)));
      return Ok(refreshed);
    }

    /**
     * The guard is told, but the session is gone whatever it answers; and it stays away, whatever comes
     * later, exactly when no file lists it unexpired.
     */
    method Revoke(id: Uuid, now: int) returns (r: Result<(), SessionError>)
      requires Valid() && machine.clock <= now
      modifies this`machine, this`run, this`calls, store
      ensures Valid() && old(run) <= run && machine.clock <= now
      ensures store.sessions == old(store.sessions) - {id}
      ensures r == if id in old(store.sessions) then Ok(()) else Err(SessionNotFound)
      ensures calls == old(calls) + (if r.Ok? && hasGuard then 1 else 0)
      ensures r.Ok? ==>
                ((forall later | Run(machine, later).Some? :: id !in Run(machine, later).value.sessions)
                 <==> forall path | path in disk :: !ListsLive(disk[path], id, now))
    {
      hide Run, Written, Apply;
      ghost var before, labels := machine, run;
      var removed := store.Remove(id);
      if removed.None? {
        RemovedNothing(store.sessions, old(store.sessions), id);
        return Err(SessionNotFound);
      }
      assert Enabled(machine, Label(now, SessionProtocol.Remove(id)));
      Step(Label(now, SessionProtocol.Remove(id)));
      RevocationIsFinal(start, labels, before, now, id);
      OnlyFilesCount(before, disk, id, now);
      RemoveStep(before, id, now);
      if hasGuard {
        var _ := Guard();
      }
      return Ok(());
    }

    /** All sessions of the agent, live or expired, one after another. */
    method RevokeAllForAgent(agent: Uuid, now: int) returns (count: nat)
      requires Valid() && machine.clock <= now
      modifies this`machine, this`run, this`calls, store
      ensures Valid() && old(run) <= run
      ensures store.sessions == old(store.sessions) - OfAgent(old(store.sessions), agent).Keys
      ensures OfAgent(store.sessions, agent) == map[]
      ensures count == |OfAgent(old(store.sessions), agent)|
      ensures calls == old(calls) + (if hasGuard then count else 0)
    {
      RunKeepsInv(Initial(start), run);
      var ids := store.IdsForAgent(agent);
      count := 0;
      hide Run, OfAgent, Enabled, Apply, Inv, Granted, Written, Elements;
      assert Elements(ids[..0]) == {} && store.sessions - {} == store.sessions by { NoElements(); }
      for i := 0 to |ids|
        invariant Valid() && machine.clock <= now && old(run) <= run
        invariant store.sessions == old(store.sessions) - Elements(ids[..i])
        invariant count == i && calls == old(calls) + (if hasGuard then count else 0)
      {
        NextElement(ids, i);
        var revoked := Revoke(ids[i], now);
        SubtractNext(old(store.sessions), Elements(ids[..i]), ids[i]);
        if revoked.Ok? {
          count := count + 1;
        }
      }
      AllOfAgentGone(old(store.sessions), ids, agent);
    }

    /** Drops a session without telling the guard. */
    method Invalidate(id: Uuid, now: int)
      requires Valid() && machine.clock <= now
      modifies this`machine, this`run, store
      ensures Valid() && old(run) <= run && store.sessions == old(store.sessions) - {id}
    {
      var _ := store.Remove(id);
      Step(Label(now, SessionProtocol.Remove(id)));
    }

    /** Writes the live sessions to `path`; a write that fails is reported and leaves the file alone. */
    method Persist(path: string, now: int, written: bool) returns (r: Result<(), SessionError>)
      requires Valid() && machine.clock <= now
      modifies this`machine, this`run, this`disk
      ensures Valid() && old(run) <= run && store.sessions == old(store.sessions)
      ensures r == if written then Ok(()) else Err(FileFailed)
      ensures if written then
                path in disk && disk == old(disk)[path := disk[path]] && Lists(disk[path], Live(store.sessions, now))
              else disk == old(disk)
    {
      RunKeepsInv(Initial(start), run);
      assert Keyed(store.sessions);
      hide Run, Inv, Lists, Live, Keyed, Apply, Enabled, Written;
      PersistStarts(machine, path, now);
      PersistEnds(machine.(saving := map[0 := Saving(path, Live(machine.sessions, now))], clock := now), path,
                  Live(machine.sessions, now), now);
      var file := store.PersistTo(now, written);
      Step(Label(now, StartPersist(0, path)));
      if file.Err? {
        Step(Label(now, AbortPersist(0)));
        return Err(file.error);
      }
      WrittenNext(disk, machine.files, path, file.value, Live(machine.sessions, now));
      disk := disk[path := file.value];
      Step(Label(now, FinishPersist(0)));
      return Ok(());
    }

    /** Restores the file at `path`, if there is one and it can be `read`, over what the store holds. */
    method Restore(path: string, now: int, read: bool) returns (r: Result<nat, SessionError>)
      requires Valid() && machine.clock <= now
      modifies this`machine, this`run, store
      ensures Valid() && old(run) <= run && disk == old(disk)
      ensures path !in disk ==> r == Ok(0) && store.sessions == old(store.sessions)
      ensures path in disk && !read ==> r == Err(FileFailed) && store.sessions == old(store.sessions)
      ensures path in disk && read ==>
                r == Ok(LiveIn(disk[path], now)) && store.sessions == Restored(old(store.sessions), disk[path], now)
    {
      RunKeepsInv(Initial(start), run);
      var found := if path !in disk then None else if read then Some(Ok(disk[path])) else Some(Err(FileFailed));
      hide Run, Lists, Keyed, Restored, Granted, LiveIn;
      if path in disk && read {
        RestoredIsOverlay(machine.files[path], disk[path], store.sessions, now);
        FollowRestore(path, now);
      }
      r := store.RestoreFrom(found, now);
    }

    /** The protocol inserts what is live in a file, one session after another. */
    ghost method FollowRestore(path: string, now: int)
      requires Run(Initial(start), run) == Some(machine) && machine.clock <= now
      requires path in machine.files && machine.restoring == map[]
      modifies this`machine, this`run
      ensures Run(Initial(start), run) == Some(machine) && old(run) <= run
      ensures machine == old(machine).(
                sessions := old(machine).sessions + Live(old(machine).files[path], now), clock := now)
    {
      hide Run, Apply, Enabled, Live, Inserted, Part;
      ghost var sessions, all := machine.sessions, Live(machine.files[path], now);
      RestoreStarts(machine, path, now);
      Step(Label(now, StartRestore(0, path)));
      ghost var rest := all;
      InsertedEnds(sessions, all);
      while rest != map[]
        invariant Part(rest, all) && Run(Initial(start), run) == Some(machine) && old(run) <= run
        invariant machine == old(machine).(
                    sessions := Inserted(sessions, all, rest), restoring := map[0 := rest], clock := now)
        decreases |rest|
      {
        ghost var id :| id in rest;
        OneMore(sessions, all, rest, id);
        RestoreGoesOn(machine, rest, id, now);
        Step(Label(now, RestoreOne(0, id)));
        rest := rest - {id};
      }
      RestoreGoesOn(machine, rest, 0, now);
      Step(Label(now, EndRestore(0)));
    }

    /** Drops the sessions that have expired. */
    method PruneExpired(now: int) returns (pruned: nat)
      requires Valid() && machine.clock <= now
      modifies this`machine, this`run, store
      ensures Valid() && old(run) <= run && store.sessions == Live(old(store.sessions), now)
      ensures pruned == |old(store.sessions)| - |store.sessions|
    {
      pruned := store.PurgeExpired(now);
      Step(Label(now, Purge(now)));
    }
  }

  // The requests' steps, with nothing else in flight.

  lemma CreateStep(s: State, ctx: Context, now: int)
    requires s.clock <= now && ctx.id !in s.ever && ctx.expiresAt == now + DEFAULT_SESSION_SECS
    ensures Enabled(s, Label(now, Create(ctx, now)))
    ensures Apply(s, Label(now, Create(ctx, now))) ==
            s.(sessions := s.sessions[ctx.id := ctx], ever := s.ever + {ctx.id}, clock := now)
  {
  }

  lemma FoundUntil(before: Sessions, after: Sessions, ctx: Context)
    requires after == before[ctx.id := ctx]
    ensures forall t :: Get(after, ctx.id, t).Ok? <==> t < ctx.expiresAt
  {
  }

  lemma RefreshStarts(s: State, id: Uuid, asked: int)
    requires s.refreshing == map[] && s.clock <= asked && Get(s.sessions, id, asked).Ok?
    ensures Enabled(s, Label(asked, StartRefresh(0, id)))
    ensures Apply(s, Label(asked, StartRefresh(0, id))) ==
            s.(refreshing := map[0 := Refresh(s.sessions[id], None)], clock := asked)
  {
  }

  lemma RefreshReads(s: State, ctx: Context, token: string, now: int)
    requires s.refreshing == map[0 := Refresh(ctx, None)] && s.clock <= now
    ensures Enabled(s, Label(now, ReadClock(0, token))) && Enabled(s, Label(now, AbortRefresh(0)))
    ensures Apply(s, Label(now, ReadClock(0, token))) ==
            s.(refreshing := map[0 := Refresh(ctx, Some(Renewed(ctx, token, now)))], clock := now)
    ensures Apply(s, Label(now, AbortRefresh(0))) == s.(refreshing := map[], clock := now)
  {
  }

  lemma RefreshEnds(s: State, ctx: Context, renewed: Context, now: int)
    requires s.refreshing == map[0 := Refresh(ctx, Some(renewed))] && s.clock <= now
    ensures Enabled(s, Label(now, FinishRefresh(0)))
    ensures Apply(s, Label(now, FinishRefresh(0))) ==
            s.(sessions := s.sessions[ctx.id := renewed], refreshing := map[], clock := now)
  {
  }

  lemma PersistStarts(s: State, path: string, now: int)
    requires s.saving == map[] && s.clock <= now
    ensures Enabled(s, Label(now, StartPersist(0, path)))
    ensures Apply(s, Label(now, StartPersist(0, path))) ==
            s.(saving := map[0 := Saving(path, Live(s.sessions, now))], clock := now)
  {
    hide Live;
  }

  lemma PersistEnds(s: State, path: string, sessions: Sessions, now: int)
    requires s.saving == map[0 := Saving(path, sessions)] && s.clock <= now
    ensures Enabled(s, Label(now, FinishPersist(0))) && Enabled(s, Label(now, AbortPersist(0)))
    ensures Apply(s, Label(now, FinishPersist(0))) ==
              s.(files := s.files[path := sessions], saving := map[], clock := now)
    ensures Apply(s, Label(now, AbortPersist(0))) == s.(saving := map[], clock := now)
  {
  }

  lemma RestoreStarts(s: State, path: string, now: int)
    requires s.restoring == map[] && path in s.files && s.clock <= now
    ensures Enabled(s, Label(now, StartRestore(0, path)))
    ensures Apply(s, Label(now, StartRestore(0, path))) ==
            s.(restoring := map[0 := Live(s.files[path], now)], clock := now)
  {
    hide Live;
  }

  lemma RestoreGoesOn(s: State, rest: Sessions, id: Uuid, now: int)
    requires s.restoring == map[0 := rest] && s.clock <= now
    ensures id in rest ==>
              && Enabled(s, Label(now, RestoreOne(0, id)))
              && Apply(s, Label(now, RestoreOne(0, id))) ==
                 s.(sessions := s.sessions[id := rest[id]], restoring := map[0 := rest - {id}], clock := now)
    ensures Enabled(s, Label(now, EndRestore(0)))
    ensures Apply(s, Label(now, EndRestore(0))) == s.(restoring := map[], clock := now)
  {
  }

  predicate Part(rest: Sessions, all: Sessions) {
    rest.Keys <= all.Keys && forall id | id in rest :: rest[id] == all[id]
  }

  /** All of `all` but `rest` has been inserted. */
  function Inserted(sessions: Sessions, all: Sessions, rest: Sessions): Sessions {
    sessions + (all - rest.Keys)
  }

  lemma OneMore(sessions: Sessions, all: Sessions, rest: Sessions, id: Uuid)
    requires Part(rest, all) && id in rest
    ensures Inserted(sessions, all, rest)[id := rest[id]] == Inserted(sessions, all, rest - {id})
    ensures Part(rest - {id}, all) && |rest - {id}| < |rest|
  {
    FewerLeft(rest, all, id);
  }

  lemma FewerLeft(rest: Sessions, all: Sessions, id: Uuid)
    requires Part(rest, all) && id in rest
    ensures Part(rest - {id}, all) && |rest - {id}| < |rest|
  {
    var smaller := rest - {id};
    assert rest.Keys == smaller.Keys + {id} && |rest.Keys| == |rest| && |smaller.Keys| == |smaller|;
  }

  lemma InsertedEnds(sessions: Sessions, all: Sessions)
    ensures Part(all, all) && Inserted(sessions, all, all) == sessions
    ensures Inserted(sessions, all, map[]) == sessions + all
  {
    var none: Sessions := map[];
    assert none.Keys == {} && all - {} == all;
  }

  /** The files hold what the protocol says, in some order. */
  ghost predicate Written(disk: map<string, seq<Context>>, files: map<string, Sessions>) {
    disk.Keys == files.Keys && forall path | path in disk :: Lists(disk[path], files[path])
  }

  lemma KeyedBy(s: State, id: Uuid)
    requires Inv(s) && id in s.sessions
    ensures s.sessions[id].id == id && s.sessions[id].expiresAt <= s.clock + DEFAULT_SESSION_SECS
  {
  }

  lemma WrittenNext(
    disk: map<string, seq<Context>>, files: map<string, Sessions>, path: string, file: seq<Context>, sessions: Sessions)
    requires Written(disk, files) && Lists(file, sessions)
    ensures Written(disk[path := file], files[path := sessions])
  {
    hide Lists;
  }

  predicate ListsLive(file: seq<Context>, id: Uuid, now: int) {
    exists i | 0 <= i < |file| :: file[i].id == id && IsLive(file[i], now)
  }

  lemma ListedLive(file: seq<Context>, sessions: Sessions, id: Uuid, now: int)
    requires Lists(file, sessions)
    ensures ListsLive(file, id, now) <==> HoldsLive(sessions, id, now)
  {
    if HoldsLive(sessions, id, now) {
      var i :| 0 <= i < |file| && file[i].id == id;
      assert file[i] == sessions[id];
    }
  }

  lemma OnlyFilesCount(s: State, disk: map<string, seq<Context>>, id: Uuid, now: int)
    requires s.refreshing == map[] && s.saving == map[] && s.restoring == map[] && Written(disk, s.files)
    ensures InFlight(s, id) || OnFile(s, id, now) <==> exists path | path in disk :: ListsLive(disk[path], id, now)
  {
    forall path | path in disk
      ensures ListsLive(disk[path], id, now) <==> HoldsLive(s.files[path], id, now)
    {
      ListedLive(disk[path], s.files[path], id, now);
    }
    hide ListsLive, HoldsLive;
    assert Listed(s.files, id, now) <==> exists path | path in disk :: ListsLive(disk[path], id, now);
  }

  lemma RemovedNothing(after: Sessions, before: Sessions, id: Uuid)
    requires after == before - {id} && id !in before
    ensures after == before
  {
  }

  lemma RemoveStep(s: State, id: Uuid, now: int)
    requires s.clock <= now
    ensures Apply(s, Label(now, Remove(id))) == s.(sessions := s.sessions - {id}, clock := now)
  {
  }

  function Elements(ids: seq<Uuid>): set<Uuid> {
    set id | id in ids
  }

  lemma NoElements()
    ensures Elements([]) == {}
  {
  }

  lemma NextElement(ids: seq<Uuid>, i: nat)
    requires i < |ids| && forall j, k | 0 <= j < k < |ids| :: ids[j] != ids[k]
    ensures Elements(ids[..i + 1]) == Elements(ids[..i]) + {ids[i]} && ids[i] !in Elements(ids[..i]) && ids[i] in ids
  {
    assert ids[..i + 1] == ids[..i] + [ids[i]];
  }

  lemma SubtractNext(sessions: Sessions, gone: set<Uuid>, id: Uuid)
    ensures (sessions - gone) - {id} == sessions - (gone + {id})
  {
  }

  lemma AllOfAgentGone(before: Sessions, ids: seq<Uuid>, agent: Uuid)
    requires forall id :: id in ids <==> id in before && before[id].agent == agent
    ensures before - Elements(ids[..|ids|]) == before - OfAgent(before, agent).Keys
    ensures OfAgent(before - Elements(ids[..|ids|]), agent) == map[]
  {
    assert ids[..|ids|] == ids && Elements(ids) == OfAgent(before, agent).Keys;
  }
}
