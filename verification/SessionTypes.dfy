/** Session contexts, the store's map of them, and its maintenance. */
module SessionTypes {
  import opened Wrappers

  const DEFAULT_SESSION_SECS: int := 3600

  /** The security context of a session; `expiresAt` is a Unix time in seconds. */
  datatype Context = Context(
    id: Uuid, agent: Uuid, token: string, role: string, scopes: seq<string>, taskType: string, expiresAt: int)

  type Sessions = map<Uuid, Context>

  datatype SessionError = SessionNotFound | SessionExpired | GuardNotReady | GuardFailed | FileFailed

  predicate IsLive(ctx: Context, now: int) {
    ctx.expiresAt > now
  }

  function Get(sessions: Sessions, id: Uuid, now: int): Result<Context, SessionError> {
    if id !in sessions then Err(SessionNotFound)
    else if IsLive(sessions[id], now) then Ok(sessions[id])
    else Err(SessionExpired)
  }

  function Live(sessions: Sessions, now: int): Sessions {
    map id | id in sessions && IsLive(sessions[id], now) :: sessions[id]
  }

  function OfAgent(sessions: Sessions, agent: Uuid): Sessions {
    map id | id in sessions && sessions[id].agent == agent :: sessions[id]
  }

  /** Every session is stored under its own identifier. */
  predicate Keyed(sessions: Sessions) {
    forall id | id in sessions :: sessions[id].id == id
  }

  /** The store after the contexts of a file have been inserted, those that have expired excepted. */
  function Restored(sessions: Sessions, file: seq<Context>, now: int): Sessions {
    if file == [] then sessions
    else
      var ctx := file[|file| - 1];
      var before := Restored(sessions, file[..|file| - 1], now);
      if IsLive(ctx, now) then before[ctx.id := ctx] else before
  }

  /** `items` lists the sessions, each once, in some order. */
  ghost predicate Lists(items: seq<Context>, sessions: Sessions) {
    && (forall i | 0 <= i < |items| :: items[i].id in sessions && sessions[items[i].id] == items[i])
    && (forall i, j | 0 <= i < j < |items| :: items[i].id != items[j].id)
    && (forall id | id in sessions :: exists i :: 0 <= i < |items| && items[i].id == id)
  }

  lemma {:induction false} RestoredHas(sessions: Sessions, file: seq<Context>, now: int, id: Uuid)
    requires forall i, j | 0 <= i < j < |file| :: file[i].id != file[j].id
    ensures forall i | 0 <= i < |file| && file[i].id == id && IsLive(file[i], now) ::
              id in Restored(sessions, file, now) && Restored(sessions, file, now)[id] == file[i]
    ensures (forall i | 0 <= i < |file| && file[i].id == id :: !IsLive(file[i], now)) ==>
              (id in Restored(sessions, file, now) <==> id in sessions)
              && (id in sessions ==> Restored(sessions, file, now)[id] == sessions[id])
  {
    if file != [] {
      RestoredHas(sessions, file[..|file| - 1], now, id);
    }
  }

  lemma RestoredAt(saved: Sessions, file: seq<Context>, sessions: Sessions, now: int, id: Uuid)
    requires Lists(file, saved)
    ensures id in Restored(sessions, file, now) <==> id in sessions || id in Live(saved, now)
    ensures id in Live(saved, now) ==>
              id in Restored(sessions, file, now) && Restored(sessions, file, now)[id] == saved[id]
    ensures id in sessions && id !in Live(saved, now) ==> Restored(sessions, file, now)[id] == sessions[id]
  {
    RestoredHas(sessions, file, now, id);
    hide Restored;
    if id in Live(saved, now) {
      var i :| 0 <= i < |file| && file[i].id == id;
      assert file[i] == saved[id] && IsLive(file[i], now);
    }
  }

  /** Restoring a file puts those of its sessions that are still live over what the store holds. */
  lemma RestoredIsOverlay(saved: Sessions, file: seq<Context>, sessions: Sessions, now: int)
    requires Lists(file, saved)
    ensures Restored(sessions, file, now) == sessions + Live(saved, now)
  {
    hide Lists, Restored;
    forall id { RestoredAt(saved, file, sessions, now, id); }
  }

  /**
   * A file written at `t1` and read at `t2` brings back exactly the sessions that are live at `t2`,
   * over whatever the store holds by then; into an empty store, nothing else.
   */
  lemma PersistThenRestore(saved: Sessions, file: seq<Context>, t1: int, sessions: Sessions, t2: int)
    requires Lists(file, Live(saved, t1)) && t1 <= t2
    ensures Restored(sessions, file, t2) == sessions + Live(saved, t2)
    ensures Restored(map[], file, t2) == Live(saved, t2)
  {
    RestoredIsOverlay(Live(saved, t1), file, sessions, t2);
    RestoredIsOverlay(Live(saved, t1), file, map[], t2);
    assert Live(Live(saved, t1), t2) == Live(saved, t2);
    assert map[] + Live(saved, t2) == Live(saved, t2);
  }

  // ---------------------------------------------------------------- the caller's view of a session

  /** A session as callers get it; instants are whole seconds. */
  datatype ClawDbSession = ClawDbSession(
    id: Uuid, agent: Uuid, workspace: Uuid, role: string, scopes: seq<string>, taskType: Option<string>,
    guardToken: string, createdAt: int, expiresAt: int, metadata: Json)

  const NIL_UUID: Uuid := 0

  function AsContext(session: ClawDbSession): Context {
    Context(
      session.id, session.agent, session.guardToken, session.role, session.scopes,
      if session.taskType.Some? then session.taskType.value else "", session.expiresAt)
  }

  /** `representable` is the range of the calendar type; an expiry beyond it becomes one hour from now. */
  function FromContext(ctx: Context, representable: int -> bool, now: int): ClawDbSession {
    ClawDbSession(
      ctx.id, ctx.agent, NIL_UUID, ctx.role, ctx.scopes, if ctx.taskType == "" then None else Some(ctx.taskType),
      ctx.token, now, if representable(ctx.expiresAt) then ctx.expiresAt else now + DEFAULT_SESSION_SECS, Null)
  }

  /** A context survives the detour exactly when its expiry is representable, or happens to be an hour away. */
  lemma ContextRoundTrip(ctx: Context, representable: int -> bool, now: int)
    ensures AsContext(FromContext(ctx, representable, now)) == ctx
       <==> representable(ctx.expiresAt) || ctx.expiresAt == now + DEFAULT_SESSION_SECS
  {
  }

  /** A session survives it exactly when it holds nothing that a context does not. */
  lemma SessionRoundTrip(session: ClawDbSession, representable: int -> bool, now: int)
    requires representable(session.expiresAt)
    ensures FromContext(AsContext(session), representable, now) == session
       <==> && session.workspace == NIL_UUID && session.metadata == Null && session.createdAt == now
            && session.taskType != Some("")
  {
  }
}
