/**
 * The session store as interleaved steps.  A refresh reads the session, waits for the guard, reads the
 * clock, and writes its copy back with a new token and a new expiry; a file is collected before it is
 * written, and restored session by session; anything may happen in between.
 */
module SessionProtocol {
  import opened Wrappers
  import opened SessionTypes

  datatype Saving = Saving(path: string, sessions: Sessions)

  /** A refresh in flight: the session as it was read, and what is to be written once the clock is read. */
  datatype Refresh = Refresh(copy: Context, renewed: Option<Context>)

  /**
   * `refreshing` holds the refreshes in flight, `saving` what is about to be written to a
   * file, `files` what has been, `restoring` what is still to be inserted from one; `ever` holds every
   * identifier given out.
   */
  datatype State = State(
    sessions: Sessions, refreshing: map<nat, Refresh>, saving: map<nat, Saving>, files: map<string, Sessions>,
    restoring: map<nat, Sessions>, ever: set<Uuid>, clock: int)

  datatype Event =
    // with the time at which the clock was read
    | Create(ctx: Context, readAt: int)
    | StartRefresh(task: nat, id: Uuid)
    | ReadClock(task: nat, token: string)
    | FinishRefresh(task: nat)
    | AbortRefresh(task: nat)
    | Remove(id: Uuid)
    | Purge(readAt: int)
    | StartPersist(task: nat, path: string)
    | FinishPersist(task: nat)
    | AbortPersist(task: nat)
    | StartRestore(task: nat, path: string)
    | RestoreOne(task: nat, id: Uuid)
    | EndRestore(task: nat)
    // the process ends and another one starts
    | Restart

  /** Something that happens at the time `now`. */
  datatype Label = Label(now: int, event: Event)

  function Initial(clock: int): State {
    State(map[], map[], map[], map[], map[], {}, clock)
  }

  /** The clock never goes back, and identifiers are fresh when they are given out. */
  predicate Enabled(s: State, l: Label) {
    && s.clock <= l.now
    && match l.event
       case Create(ctx, readAt) => ctx.id !in s.ever && readAt <= l.now
       case StartRefresh(task, _) => task !in s.refreshing
       case ReadClock(task, _) => task in s.refreshing && s.refreshing[task].renewed.None?
       case FinishRefresh(task) => task in s.refreshing && s.refreshing[task].renewed.Some?
       case AbortRefresh(task) => task in s.refreshing
       case StartPersist(task, _) => task !in s.saving
       case FinishPersist(task) => task in s.saving
       case AbortPersist(task) => task in s.saving
       case StartRestore(task, _) => task !in s.restoring
       case RestoreOne(task, id) => task in s.restoring && id in s.restoring[task]
       case EndRestore(task) => task in s.restoring
       case Purge(readAt) => readAt <= l.now
       case _ => true
  }

  function Renewed(ctx: Context, token: string, now: int): Context {
    ctx.(token := token, expiresAt := now + DEFAULT_SESSION_SECS)
  }

  function SessionsAfter(s: State, l: Label): Sessions
    requires Enabled(s, l)
  {
    match l.event
    case Create(ctx, readAt) => s.sessions[ctx.id := ctx.(expiresAt := readAt + DEFAULT_SESSION_SECS)]
    case FinishRefresh(task) => s.sessions[s.refreshing[task].copy.id := s.refreshing[task].renewed.value]
    case Remove(id) => s.sessions - {id}
    case Purge(readAt) => Live(s.sessions, readAt)
    case RestoreOne(task, id) => s.sessions[id := s.restoring[task][id]]
    case Restart => map[]
    case _ => s.sessions
  }

  function RefreshingAfter(s: State, l: Label): map<nat, Refresh>
    requires Enabled(s, l)
  {
    match l.event
    case StartRefresh(task, id) =>
      var found := Get(s.sessions, id, l.now);
      if found.Ok? then s.refreshing[task := Refresh(found.value, None)] else s.refreshing
    case ReadClock(task, token) =>
      var r := s.refreshing[task];
      s.refreshing[task := r.(renewed := Some(Renewed(r.copy, token, l.now)))]
    case FinishRefresh(task) => s.refreshing - {task}
    case AbortRefresh(task) => s.refreshing - {task}
    case Restart => map[]
    case _ => s.refreshing
  }

  function SavingAfter(s: State, l: Label): map<nat, Saving>
    requires Enabled(s, l)
  {
    match l.event
    case StartPersist(task, path) => s.saving[task := Saving(path, Live(s.sessions, l.now))]
    case FinishPersist(task) => s.saving - {task}
    case AbortPersist(task) => s.saving - {task}
    case Restart => map[]
    case _ => s.saving
  }

  function FilesAfter(s: State, l: Label): map<string, Sessions>
    requires Enabled(s, l)
  {
    match l.event
    case FinishPersist(task) => s.files[s.saving[task].path := s.saving[task].sessions]
    case _ => s.files
  }

  function RestoringAfter(s: State, l: Label): map<nat, Sessions>
    requires Enabled(s, l)
  {
    match l.event
    case StartRestore(task, path) =>
      if path in s.files then s.restoring[task := Live(s.files[path], l.now)] else s.restoring
    case RestoreOne(task, id) => s.restoring[task := s.restoring[task] - {id}]
    case EndRestore(task) => s.restoring - {task}
    case Restart => map[]
    case _ => s.restoring
  }

  function EverAfter(s: State, l: Label): set<Uuid> {
    if l.event.Create? then s.ever + {l.event.ctx.id} else s.ever
  }

  function Apply(s: State, l: Label): State
    requires Enabled(s, l)
  {
    State(
      SessionsAfter(s, l), RefreshingAfter(s, l), SavingAfter(s, l), FilesAfter(s, l), RestoringAfter(s, l),
      EverAfter(s, l), l.now)
  }

  /** The state after the run `labels` from `s`, or `None` when some label was not enabled. */
  function Run(s: State, labels: seq<Label>): Option<State> {
    if labels == [] then Some(s)
    else
      var before := Run(s, labels[..|labels| - 1]);
      var l := labels[|labels| - 1];
      if before.Some? && Enabled(before.value, l) then Some(Apply(before.value, l)) else None
  }

  // ---------------------------------------------------------------- expiry

  /** Sessions stored under their own identifiers, none of which outlives the hour that the manager grants. */
  predicate Granted(sessions: Sessions, ever: set<Uuid>, clock: int) {
    && Keyed(sessions) && sessions.Keys <= ever
    && forall id | id in sessions :: sessions[id].expiresAt <= clock + DEFAULT_SESSION_SECS
  }

  predicate GrantedOne(ctx: Context, ever: set<Uuid>, clock: int) {
    ctx.id in ever && ctx.expiresAt <= clock + DEFAULT_SESSION_SECS
  }

  /** What is to be written is no earlier than what was read. */
  predicate GrantedRefresh(r: Refresh, ever: set<Uuid>, clock: int) {
    && GrantedOne(r.copy, ever, clock)
    && (r.renewed.Some? ==>
          && r.renewed.value.id == r.copy.id && GrantedOne(r.renewed.value, ever, clock)
          && r.copy.expiresAt <= r.renewed.value.expiresAt)
  }

  ghost predicate CopiesGranted(refreshing: map<nat, Refresh>, ever: set<Uuid>, clock: int) {
    forall task | task in refreshing :: GrantedRefresh(refreshing[task], ever, clock)
  }

  ghost predicate SavesGranted(saving: map<nat, Saving>, ever: set<Uuid>, clock: int) {
    forall task | task in saving :: Granted(saving[task].sessions, ever, clock)
  }

  ghost predicate AllGranted<T>(many: map<T, Sessions>, ever: set<Uuid>, clock: int) {
    forall key | key in many :: Granted(many[key], ever, clock)
  }

  ghost predicate Inv(s: State) {
    && Granted(s.sessions, s.ever, s.clock)
    && CopiesGranted(s.refreshing, s.ever, s.clock)
    && SavesGranted(s.saving, s.ever, s.clock)
    && AllGranted(s.files, s.ever, s.clock)
    && AllGranted(s.restoring, s.ever, s.clock)
  }

  lemma GrantedLater(sessions: Sessions, ever: set<Uuid>, clock: int, ever': set<Uuid>, now: int)
    requires Granted(sessions, ever, clock) && ever <= ever' && clock <= now
    ensures Granted(sessions, ever', now)
  {
  }

  lemma GrantedFewer(sessions: Sessions, ever: set<Uuid>, clock: int, id: Uuid)
    requires Granted(sessions, ever, clock)
    ensures Granted(sessions - {id}, ever, clock) && forall now :: Granted(Live(sessions, now), ever, clock)
  {
  }

  lemma GrantedMore(sessions: Sessions, ever: set<Uuid>, clock: int, ctx: Context)
    requires Granted(sessions, ever, clock) && GrantedOne(ctx, ever, clock)
    ensures Granted(sessions[ctx.id := ctx], ever, clock)
  {
  }

  lemma GrantedMember(sessions: Sessions, ever: set<Uuid>, clock: int, id: Uuid)
    requires Granted(sessions, ever, clock) && id in sessions
    ensures sessions[id].id == id && GrantedOne(sessions[id], ever, clock)
  {
  }

  lemma InvLater(s: State, ever: set<Uuid>, now: int)
    requires Inv(s) && s.ever <= ever && s.clock <= now
    ensures Inv(s.(ever := ever, clock := now))
  {
    hide Granted;
    GrantedLater(s.sessions, s.ever, s.clock, ever, now);
    forall task | task in s.saving ensures Granted(s.saving[task].sessions, ever, now) {
      GrantedLater(s.saving[task].sessions, s.ever, s.clock, ever, now);
    }
    forall path | path in s.files ensures Granted(s.files[path], ever, now) {
      GrantedLater(s.files[path], s.ever, s.clock, ever, now);
    }
    forall task | task in s.restoring ensures Granted(s.restoring[task], ever, now) {
      GrantedLater(s.restoring[task], s.ever, s.clock, ever, now);
    }
  }

  lemma SessionsStep(s: State, l: Label)
    requires Inv(s.(ever := EverAfter(s, l), clock := l.now)) && Enabled(s, l)
    ensures Granted(SessionsAfter(s, l), EverAfter(s, l), l.now)
  {
    var ever := EverAfter(s, l);
    hide Granted, Live;
    match l.event {
      case Create(ctx, readAt) =>
        GrantedMore(s.sessions, ever, l.now, ctx.(expiresAt := readAt + DEFAULT_SESSION_SECS));
      case FinishRefresh(task) =>
        assert GrantedRefresh(s.refreshing[task], ever, l.now);
        GrantedMore(s.sessions, ever, l.now, s.refreshing[task].renewed.value);
      case Remove(id) =>
        GrantedFewer(s.sessions, ever, l.now, id);
      case Purge(_) =>
        GrantedFewer(s.sessions, ever, l.now, 0);
      case RestoreOne(task, id) =>
        GrantedMember(s.restoring[task], ever, l.now, id);
        GrantedMore(s.sessions, ever, l.now, s.restoring[task][id]);
      case Restart =>
        NothingGranted(ever, l.now);
      case _ =>
    }
  }

  lemma CopiesStep(s: State, l: Label)
    requires Inv(s.(ever := EverAfter(s, l), clock := l.now)) && Enabled(s, l)
    ensures CopiesGranted(RefreshingAfter(s, l), EverAfter(s, l), l.now)
  {
    hide Granted;
    if l.event.StartRefresh? && l.event.id in s.sessions {
      GrantedMember(s.sessions, EverAfter(s, l), l.now, l.event.id);
    }
  }

  lemma SavesStep(s: State, l: Label)
    requires Inv(s.(ever := EverAfter(s, l), clock := l.now)) && Enabled(s, l)
    ensures SavesGranted(SavingAfter(s, l), EverAfter(s, l), l.now)
    ensures AllGranted(FilesAfter(s, l), EverAfter(s, l), l.now)
  {
    hide Granted, Live;
    GrantedFewer(s.sessions, EverAfter(s, l), l.now, 0);
  }

  lemma RestoresStep(s: State, l: Label)
    requires Inv(s.(ever := EverAfter(s, l), clock := l.now)) && Enabled(s, l)
    ensures AllGranted(RestoringAfter(s, l), EverAfter(s, l), l.now)
  {
    hide Granted, Live;
    if l.event.StartRestore? && l.event.path in s.files {
      GrantedFewer(s.files[l.event.path], EverAfter(s, l), l.now, 0);
    } else if l.event.RestoreOne? {
      GrantedFewer(s.restoring[l.event.task], EverAfter(s, l), l.now, l.event.id);
    }
  }

  lemma NothingGranted(ever: set<Uuid>, now: int)
    ensures Granted(map[], ever, now)
  {
  }

  lemma StepKeepsInv(s: State, l: Label)
    requires Inv(s) && Enabled(s, l)
    ensures Inv(Apply(s, l)) && s.clock <= Apply(s, l).clock && s.ever <= Apply(s, l).ever
  {
    InvLater(s, EverAfter(s, l), l.now);
    SessionsStep(s, l);
    CopiesStep(s, l);
    SavesStep(s, l);
    RestoresStep(s, l);
    hide Granted, CopiesGranted, SavesGranted, AllGranted;
    hide SessionsAfter, RefreshingAfter, SavingAfter, FilesAfter, RestoringAfter;
  }

  lemma {:induction false} RunKeepsInv(s: State, labels: seq<Label>)
    requires Inv(s) && Run(s, labels).Some?
    ensures Inv(Run(s, labels).value) && s.clock <= Run(s, labels).value.clock && s.ever <= Run(s, labels).value.ever
  {
    if labels != [] {
      hide Inv, Apply, Enabled;
      RunKeepsInv(s, labels[..|labels| - 1]);
      StepKeepsInv(Run(s, labels[..|labels| - 1]).value, labels[|labels| - 1]);
    }
  }

  /** Whenever a refresh completes, the session's expiry is no earlier than the one that the refresh read. */
  lemma RefreshNeverShortensItsCopy(clock: int, labels: seq<Label>, s: State, l: Label)
    requires Run(Initial(clock), labels) == Some(s) && Enabled(s, l) && l.event.FinishRefresh?
    ensures var copy := s.refreshing[l.event.task].copy;
            copy.id in Apply(s, l).sessions && Apply(s, l).sessions[copy.id].expiresAt >= copy.expiresAt
  {
    RunKeepsInv(Initial(clock), labels);
    assert GrantedRefresh(s.refreshing[l.event.task], s.ever, s.clock);
  }

  /** The session that the step writes into the store under `id`, if it writes one. */
  function WrittenBy(s: State, l: Label, id: Uuid): Option<Context>
    requires Enabled(s, l)
  {
    match l.event
    case Create(ctx, readAt) =>
      if ctx.id == id then Some(ctx.(expiresAt := readAt + DEFAULT_SESSION_SECS)) else None
    case FinishRefresh(task) => if s.refreshing[task].copy.id == id then s.refreshing[task].renewed else None
    case RestoreOne(task, other) => if other == id then Some(s.restoring[task][id]) else None
    case _ => None
  }

  /** What the last step of the run that wrote under `id` has written. */
  function LastWritten(s: State, labels: seq<Label>, id: Uuid): Option<Context>
    requires Run(s, labels).Some?
  {
    if labels == [] then None
    else
      var front := labels[..|labels| - 1];
      var written := WrittenBy(Run(s, front).value, labels[|labels| - 1], id);
      if written.Some? then written else LastWritten(s, front, id)
  }

  /** What the store holds under `id` is what was last written there, or what was there before. */
  lemma {:induction false} StoredIsLastWritten(s: State, labels: seq<Label>, id: Uuid)
    requires Run(s, labels).Some? && id in Run(s, labels).value.sessions
    ensures var written := LastWritten(s, labels, id);
            if written.Some? then Run(s, labels).value.sessions[id] == written.value
            else id in s.sessions && Run(s, labels).value.sessions[id] == s.sessions[id]
  {
    if labels != [] {
      var front, l := labels[..|labels| - 1], labels[|labels| - 1];
      var mid := Run(s, front).value;
      SessionStep(mid, l, id);
      hide Enabled, Apply, WrittenBy;
      if WrittenBy(mid, l, id).None? {
        StoredIsLastWritten(s, front, id);
      }
    }
  }

  lemma SessionStep(s: State, l: Label, id: Uuid)
    requires Enabled(s, l) && id in Apply(s, l).sessions
    ensures var written := WrittenBy(s, l, id);
            if written.Some? then Apply(s, l).sessions[id] == written.value
            else id in s.sessions && Apply(s, l).sessions[id] == s.sessions[id]
  {
  }

  /** The expiry that the step which writes `task` back leaves, against the one in the store before it. */
  predicate Shortens(s: State, l: Label, id: Uuid)
    requires Enabled(s, l)
  {
    id in s.sessions && id in Apply(s, l).sessions && Apply(s, l).sessions[id].expiresAt < s.sessions[id].expiresAt
  }

  /**
   * A refresh that read the clock at `at` and writes back after `between` shortens the session exactly
   * when the store still holds it and, since the clock was read, another refresh or a restore was the
   * last to write it, with a later expiry.
   */
  lemma RefreshShortensExactlyWhen(
    clock: int, before: seq<Label>, s: State, at: int, task: nat, token: string,
    between: seq<Label>, s': State, l: Label)
    requires Run(Initial(clock), before) == Some(s) && Enabled(s, Label(at, ReadClock(task, token)))
    requires Run(Apply(s, Label(at, ReadClock(task, token))), between) == Some(s')
    requires l.event == FinishRefresh(task) && Enabled(s', l)
    requires s'.refreshing[task] == Apply(s, Label(at, ReadClock(task, token))).refreshing[task]
    ensures var id := s.refreshing[task].copy.id;
            var written := LastWritten(Apply(s, Label(at, ReadClock(task, token))), between, id);
            Shortens(s', l, id)
            <==> id in s'.sessions && written.Some? && written.value.expiresAt > at + DEFAULT_SESSION_SECS
  {
    var read := Label(at, ReadClock(task, token));
    var id := s.refreshing[task].copy.id;
    RunKeepsInv(Initial(clock), before);
    StepKeepsInv(s, read);
    assert id in Apply(s, read).sessions ==> Apply(s, read).sessions[id].expiresAt <= at + DEFAULT_SESSION_SECS;
    assert s'.refreshing[task].renewed.value.expiresAt == at + DEFAULT_SESSION_SECS;
    hide Run, Inv;
    if id in s'.sessions {
      StoredIsLastWritten(Apply(s, read), between, id);
    }
  }

  /** Two refreshes are in flight for the session created as `ctx`; the one and then the other reads the clock. */
  lemma TwoRefreshes(ctx: Context) returns (labels: seq<Label>, s: State)
    ensures labels == [
              Label(0, Create(ctx, 0)), Label(0, StartRefresh(0, ctx.id)), Label(0, StartRefresh(1, ctx.id)),
              Label(1, ReadClock(0, "first")), Label(6, ReadClock(1, "second"))]
    ensures Run(Initial(0), labels) == Some(s) && s.clock == 6
    ensures var made := ctx.(expiresAt := 3600);
            && s.sessions == map[ctx.id := made]
            && s.refreshing == map[
                 0 := Refresh(made, Some(Renewed(made, "first", 1))),
                 1 := Refresh(made, Some(Renewed(made, "second", 6)))]
  {
    var made := ctx.(expiresAt := 3600);
    var create, startOne, startTwo :=
      Label(0, Create(ctx, 0)), Label(0, StartRefresh(0, ctx.id)), Label(0, StartRefresh(1, ctx.id));
    var readOne, readTwo := Label(1, ReadClock(0, "first")), Label(6, ReadClock(1, "second"));
    assert Run(Initial(0), []) == Some(Initial(0));
    hide Run;
    RunOne(Initial(0), [], create);
    var s1 := Apply(Initial(0), create);
    RunOne(Initial(0), [] + [create], startOne);
    var s2 := Apply(s1, startOne);
    assert s2.refreshing == map[0 := Refresh(made, None)];
    RunOne(Initial(0), [] + [create] + [startOne], startTwo);
    var s3 := Apply(s2, startTwo);
    assert s3.refreshing == map[0 := Refresh(made, None), 1 := Refresh(made, None)];
    RunOne(Initial(0), [] + [create] + [startOne] + [startTwo], readOne);
    var s4 := Apply(s3, readOne);
    RunOne(Initial(0), [] + [create] + [startOne] + [startTwo] + [readOne], readTwo);
    s := Apply(s4, readTwo);
    labels := [] + [create] + [startOne] + [startTwo] + [readOne] + [readTwo];
  }

  /** The refresh that read the clock first writes last: the session now ends five seconds earlier. */
  lemma RefreshCanShorten(ctx: Context) returns (labels: seq<Label>, s: State, l: Label)
    ensures Run(Initial(0), labels) == Some(s) && l == Label(6, FinishRefresh(0)) && Enabled(s, l)
    ensures Shortens(s, l, ctx.id)
    ensures s.sessions[ctx.id].expiresAt == 3606 && Apply(s, l).sessions[ctx.id].expiresAt == 3601
  {
    var before, s0 := TwoRefreshes(ctx);
    var other := Label(6, FinishRefresh(1));
    hide Run;
    RunOne(Initial(0), before, other);
    labels, s, l := before + [other], Apply(s0, other), Label(6, FinishRefresh(0));
  }

  // ---------------------------------------------------------------- revocation

  ghost predicate BeingRefreshed(refreshing: map<nat, Refresh>, id: Uuid) {
    exists task :: task in refreshing && refreshing[task].copy.id == id
  }

  ghost predicate BeingRestored(restoring: map<nat, Sessions>, id: Uuid) {
    exists task :: task in restoring && id in restoring[task]
  }

  /** A refresh of the session is in flight, or a restore that has still to insert it. */
  ghost predicate InFlight(s: State, id: Uuid) {
    BeingRefreshed(s.refreshing, id) || BeingRestored(s.restoring, id)
  }

  predicate HoldsLive(sessions: Sessions, id: Uuid, now: int) {
    id in sessions && IsLive(sessions[id], now)
  }

  ghost predicate BeingSaved(saving: map<nat, Saving>, id: Uuid, now: int) {
    exists task :: task in saving && HoldsLive(saving[task].sessions, id, now)
  }

  ghost predicate Listed(files: map<string, Sessions>, id: Uuid, now: int) {
    exists path :: path in files && HoldsLive(files[path], id, now)
  }

  /** A file, written or about to be, lists the session, and it has not expired by `now`. */
  ghost predicate OnFile(s: State, id: Uuid, now: int) {
    BeingSaved(s.saving, id, now) || Listed(s.files, id, now)
  }

  /** A session that once existed, has been removed, and that nothing can bring back. */
  ghost predicate Dead(s: State, id: Uuid) {
    id in s.ever && id !in s.sessions && !InFlight(s, id) && !OnFile(s, id, s.clock)
  }

  /** Time only takes sessions off the files. */
  lemma DeadLater(s: State, now: int, id: Uuid)
    requires Dead(s, id) && s.clock <= now
    ensures Dead(s.(clock := now), id)
  {
    forall task | task in s.saving ensures !HoldsLive(s.saving[task].sessions, id, now) {
      assert !HoldsLive(s.saving[task].sessions, id, s.clock);
    }
    forall path | path in s.files ensures !HoldsLive(s.files[path], id, now) {
      assert !HoldsLive(s.files[path], id, s.clock);
    }
  }

  lemma StoreStaysWithout(s: State, l: Label, id: Uuid)
    requires Dead(s, id) && Enabled(s, l)
    ensures id !in SessionsAfter(s, l)
  {
    hide OnFile;
    assert l.event.FinishRefresh? ==> s.refreshing[l.event.task].copy.id != id;
    assert l.event.RestoreOne? ==> l.event.id != id by {
      assert l.event.RestoreOne? ==> l.event.id in s.restoring[l.event.task];
    }
  }

  lemma CopyHasItsId(s: State, l: Label, id: Uuid)
    requires Granted(s.sessions, s.ever, s.clock) && id !in s.sessions && !BeingRefreshed(s.refreshing, id)
             && Enabled(s, l)
    ensures !BeingRefreshed(RefreshingAfter(s, l), id)
  {
  }

  lemma FilesStayWithout(s: State, l: Label, id: Uuid)
    requires id !in s.sessions && !BeingSaved(s.saving, id, l.now) && !Listed(s.files, id, l.now) && Enabled(s, l)
    ensures !BeingSaved(SavingAfter(s, l), id, l.now) && !Listed(FilesAfter(s, l), id, l.now)
  {
    assert l.event.FinishPersist? ==> !HoldsLive(s.saving[l.event.task].sessions, id, l.now);
  }

  lemma RestoresStayWithout(s: State, l: Label, id: Uuid)
    requires !Listed(s.files, id, l.now) && !BeingRestored(s.restoring, id) && Enabled(s, l)
    ensures !BeingRestored(RestoringAfter(s, l), id)
  {
    if l.event.StartRestore? && l.event.path in s.files {
      assert !HoldsLive(s.files[l.event.path], id, l.now);
    }
  }

  lemma StepKeepsDead(s: State, l: Label, id: Uuid)
    requires Inv(s) && Dead(s, id) && Enabled(s, l)
    ensures Dead(Apply(s, l), id)
  {
    DeadLater(s, l.now, id);
    StoreStaysWithout(s, l, id);
    CopyHasItsId(s, l, id);
    FilesStayWithout(s, l, id);
    RestoresStayWithout(s, l, id);
    hide BeingRefreshed, BeingRestored, BeingSaved, Listed, Inv;
    hide SessionsAfter, RefreshingAfter, SavingAfter, FilesAfter, RestoringAfter;
  }

  lemma {:induction false} DeadStaysDead(s: State, labels: seq<Label>, id: Uuid)
    requires Inv(s) && Dead(s, id) && Run(s, labels).Some?
    ensures Dead(Run(s, labels).value, id)
  {
    if labels != [] {
      hide Inv, Dead, Apply, Enabled;
      var front, l := labels[..|labels| - 1], labels[|labels| - 1];
      DeadStaysDead(s, front, id);
      RunKeepsInv(s, front);
      StepKeepsDead(Run(s, front).value, l, id);
    }
  }

  lemma RunOne(s: State, labels: seq<Label>, l: Label)
    requires Run(s, labels).Some? && Enabled(Run(s, labels).value, l)
    ensures Run(s, labels + [l]) == Some(Apply(Run(s, labels).value, l))
  {
    assert (labels + [l])[..|labels|] == labels;
  }

  /** A number that no element of `used` has. */
  lemma {:induction false} FreshTask(used: set<nat>) returns (task: nat)
    ensures forall other | other in used :: other < task
  {
    if used == {} {
      task := 0;
    } else {
      var other :| other in used;
      task := FreshTask(used - {other});
      assert forall o | o in used :: o == other || o in used - {other};
      if task <= other {
        task := other + 1;
      }
    }
  }

  lemma ComesBackByRefresh(s: State, id: Uuid, task: nat) returns (labels: seq<Label>)
    requires task in s.refreshing && s.refreshing[task].copy.id == id
    ensures Run(s, labels).Some? && id in Run(s, labels).value.sessions
  {
    var read, write := Label(s.clock, ReadClock(task, "")), Label(s.clock, FinishRefresh(task));
    if s.refreshing[task].renewed.Some? {
      RunOne(s, [], write);
      labels := [] + [write];
    } else {
      RunOne(s, [], read);
      RunOne(s, [] + [read], write);
      labels := [] + [read] + [write];
    }
  }

  lemma ComesBackByRestore(s: State, id: Uuid, task: nat) returns (labels: seq<Label>)
    requires task in s.restoring && id in s.restoring[task]
    ensures Run(s, labels).Some? && id in Run(s, labels).value.sessions
  {
    labels := [] + [Label(s.clock, RestoreOne(task, id))];
    RunOne(s, [], labels[0]);
  }

  lemma ComesBackOnceSaved(s: State, id: Uuid, task: nat) returns (labels: seq<Label>)
    requires task in s.saving && HoldsLive(s.saving[task].sessions, id, s.clock)
    ensures Run(s, labels).Some? && id in Run(s, labels).value.sessions
  {
    var l := Label(s.clock, FinishPersist(task));
    RunOne(s, [], l);
    labels := ComesBackFromFile(s, [] + [l], Apply(s, l), id, s.saving[task].path);
  }

  /** What is in flight or on file can come back, at once. */
  lemma ComesBack(s: State, id: Uuid) returns (labels: seq<Label>)
    requires InFlight(s, id) || OnFile(s, id, s.clock)
    ensures Run(s, labels).Some? && id in Run(s, labels).value.sessions
  {
    if task :| task in s.refreshing && s.refreshing[task].copy.id == id {
      labels := ComesBackByRefresh(s, id, task);
    } else if task :| task in s.restoring && id in s.restoring[task] {
      labels := ComesBackByRestore(s, id, task);
    } else if path :| path in s.files && HoldsLive(s.files[path], id, s.clock) {
      assert Run(s, []) == Some(s);
      labels := ComesBackFromFile(s, [], s, id, path);
    } else {
      var task :| task in s.saving && HoldsLive(s.saving[task].sessions, id, s.clock);
      labels := ComesBackOnceSaved(s, id, task);
    }
  }

  lemma ComesBackFromFile(s0: State, before: seq<Label>, s: State, id: Uuid, path: string) returns (labels: seq<Label>)
    requires Run(s0, before) == Some(s) && path in s.files && HoldsLive(s.files[path], id, s.clock)
    ensures Run(s0, labels).Some? && id in Run(s0, labels).value.sessions
  {
    var task := FreshTask(s.restoring.Keys);
    var start, insert := Label(s.clock, StartRestore(task, path)), Label(s.clock, RestoreOne(task, id));
    hide Run;
    RunOne(s0, before, start);
    RunOne(s0, before + [start], insert);
    labels := before + [start] + [insert];
  }

  /**
   * Revoking is final exactly when no refresh of the session is in flight, no restore has still to
   * insert it, and no file, written or about to be, lists it unexpired: from then on it never comes
   * back, and otherwise it can.
   */
  lemma RevocationIsFinal(clock: int, labels: seq<Label>, s: State, now: int, id: Uuid)
    requires Run(Initial(clock), labels) == Some(s) && s.clock <= now && id in s.sessions
    ensures var revoked := Apply(s, Label(now, Remove(id)));
            (forall later | Run(revoked, later).Some? :: id !in Run(revoked, later).value.sessions)
            <==> !InFlight(s, id) && !OnFile(s, id, now)
  {
    RunKeepsInv(Initial(clock), labels);
    var revoked := Apply(s, Label(now, Remove(id)));
    StepKeepsInv(s, Label(now, Remove(id)));
    assert InFlight(revoked, id) <==> InFlight(s, id);
    assert OnFile(revoked, id, now) <==> OnFile(s, id, now);
    assert id in revoked.ever && id !in revoked.sessions && revoked.clock == now;
    hide Run, Inv, InFlight, OnFile, Apply, Enabled;
    if InFlight(s, id) || OnFile(s, id, now) {
      var later := ComesBack(revoked, id);
    } else {
      forall later | Run(revoked, later).Some?
        ensures id !in Run(revoked, later).value.sessions
      {
        DeadStaysDead(revoked, later, id);
      }
    }
  }

  lemma {:induction false} RunBoth(s: State, a: seq<Label>, b: seq<Label>)
    requires Run(s, a + b).Some?
    ensures Run(s, a).Some? && Run(Run(s, a).value, b) == Run(s, a + b)
    decreases |b|
  {
    if b == [] {
      assert a + b == a;
    } else {
      hide Enabled, Apply;
      assert (a + b)[..|a + b| - 1] == a + b[..|b| - 1];
      RunBoth(s, a, b[..|b| - 1]);
    }
  }

  /** Step `i` of the run removes the session, and nothing can bring it back at that moment. */
  ghost predicate RemovedForGood(s: State, labels: seq<Label>, i: nat, id: Uuid) {
    && i < |labels| && labels[i].event == Remove(id)
    && Run(s, labels[..i]).Some?
    && var mid := Run(s, labels[..i]).value;
       !InFlight(mid, id) && !OnFile(mid, id, labels[i].now)
  }

  lemma RemovedStaysAway(s: State, labels: seq<Label>, i: nat, id: Uuid)
    requires Inv(s) && id in s.ever && RemovedForGood(s, labels, i, id) && Run(s, labels).Some?
    ensures id !in Run(s, labels).value.sessions
  {
    var front, l, rest := labels[..i], labels[i], labels[i + 1..];
    var mid := Run(s, front).value;
    hide Run, Inv, InFlight, OnFile;
    assert labels == (front + [l]) + rest;
    RunBoth(s, front + [l], rest);
    RunLast(s, front, l);
    RunKeepsInv(s, front);
    StepKeepsInv(mid, l);
    assert Dead(Apply(mid, l), id) by { RemovedIsDead(mid, l, id); }
    DeadStaysDead(Apply(mid, l), rest, id);
  }

  lemma RunLast(s: State, labels: seq<Label>, l: Label)
    requires Run(s, labels + [l]).Some?
    ensures Run(s, labels).Some? && Enabled(Run(s, labels).value, l)
    ensures Run(s, labels + [l]).value == Apply(Run(s, labels).value, l)
  {
    assert (labels + [l])[..|labels|] == labels;
  }

  lemma RemovedIsDead(s: State, l: Label, id: Uuid)
    requires Enabled(s, l) && l.event == Remove(id) && id in s.ever && !InFlight(s, id) && !OnFile(s, id, l.now)
    ensures Dead(Apply(s, l), id)
  {
  }

  /**
   * Revoking all sessions of an agent among other requests: the sessions are listed, and each is removed
   * at some later step.  Where each removal is final, whatever the agent has in the end is not what was
   * listed.
   */
  lemma RevokeAllInterleaved(clock: int, before: seq<Label>, s: State, agent: Uuid, labels: seq<Label>, s': State)
    requires Run(Initial(clock), before) == Some(s) && Run(s, labels) == Some(s')
    requires forall id | id in OfAgent(s.sessions, agent) :: exists i :: RemovedForGood(s, labels, i, id)
    ensures OfAgent(s'.sessions, agent).Keys !! OfAgent(s.sessions, agent).Keys
  {
    RunKeepsInv(Initial(clock), before);
    forall id | id in OfAgent(s.sessions, agent)
      ensures id !in s'.sessions
    {
      var i: nat :| RemovedForGood(s, labels, i, id);
      RemovedStaysAway(s, labels, i, id);
    }
  }

  // ---------------------------------------------------------------- purging

  function WithoutPurges(labels: seq<Label>): seq<Label> {
    if labels == [] then []
    else
      var l := labels[|labels| - 1];
      WithoutPurges(labels[..|labels| - 1]) + (if l.event.Purge? then [] else [l])
  }

  /** `more` has the sessions of `fewer` and besides them only some that have expired. */
  predicate Unpurged(fewer: Sessions, more: Sessions, now: int) {
    && fewer.Keys <= more.Keys
    && (forall id | id in fewer :: fewer[id] == more[id])
    && (forall id | id in more && id !in fewer :: more[id].expiresAt <= now)
  }

  /** The two states differ in sessions that have expired and in the time of the last step only. */
  predicate AlikeButExpired(a: State, b: State) {
    a.(sessions := b.sessions, clock := b.clock) == b && b.clock <= a.clock && Unpurged(a.sessions, b.sessions, a.clock)
  }

  lemma UnpurgedLive(fewer: Sessions, more: Sessions, clock: int, now: int)
    requires Unpurged(fewer, more, clock) && clock <= now
    ensures Live(fewer, now) == Live(more, now) && Unpurged(fewer, more, now)
    ensures forall readAt | readAt <= now :: Unpurged(Live(fewer, readAt), more, now)
    ensures forall id :: Get(fewer, id, now).Ok? || Get(more, id, now).Ok? ==> Get(fewer, id, now) == Get(more, id, now)
  {
  }

  lemma UnpurgedStep(fewer: Sessions, more: Sessions, now: int, id: Uuid, ctx: Context)
    requires Unpurged(fewer, more, now)
    ensures Unpurged(fewer[id := ctx], more[id := ctx], now) && Unpurged(fewer - {id}, more - {id}, now)
  {
  }

  lemma SessionsUnpurged(a: State, b: State, l: Label)
    requires AlikeButExpired(a, b) && Enabled(a, l) && Enabled(b, l)
    requires Unpurged(a.sessions, b.sessions, l.now)
    requires l.event.Purge? ==> Unpurged(Live(a.sessions, l.event.readAt), b.sessions, l.now)
    ensures Unpurged(SessionsAfter(a, l), if l.event.Purge? then b.sessions else SessionsAfter(b, l), l.now)
  {
    hide Live, Unpurged;
    match l.event {
      case Create(ctx, readAt) =>
        UnpurgedStep(a.sessions, b.sessions, l.now, ctx.id, ctx.(expiresAt := readAt + DEFAULT_SESSION_SECS));
      case FinishRefresh(task) =>
        UnpurgedStep(a.sessions, b.sessions, l.now, a.refreshing[task].copy.id, a.refreshing[task].renewed.value);
      case Remove(id) =>
        UnpurgedStep(a.sessions, b.sessions, l.now, id, Context(0, 0, "", "", [], "", 0));
      case RestoreOne(task, id) =>
        UnpurgedStep(a.sessions, b.sessions, l.now, id, a.restoring[task][id]);
      case Restart =>
        NothingUnpurged(l.now);
      case _ =>
    }
  }

  lemma OthersAlike(a: State, b: State, l: Label)
    requires AlikeButExpired(a, b) && Enabled(a, l) && Enabled(b, l)
    requires Live(a.sessions, l.now) == Live(b.sessions, l.now)
    requires forall id :: Get(a.sessions, id, l.now).Ok? || Get(b.sessions, id, l.now).Ok? ==>
                            Get(a.sessions, id, l.now) == Get(b.sessions, id, l.now)
    ensures RefreshingAfter(a, l) == RefreshingAfter(b, l) && SavingAfter(a, l) == SavingAfter(b, l)
    ensures FilesAfter(a, l) == FilesAfter(b, l) && RestoringAfter(a, l) == RestoringAfter(b, l)
    ensures EverAfter(a, l) == EverAfter(b, l)
  {
    hide Live, Get, Unpurged;
  }

  lemma StepUnpurged(a: State, b: State, l: Label)
    requires AlikeButExpired(a, b) && Enabled(a, l)
    ensures l.event.Purge? ==> AlikeButExpired(Apply(a, l), b)
    ensures !l.event.Purge? ==> Enabled(b, l) && AlikeButExpired(Apply(a, l), Apply(b, l))
  {
    UnpurgedLive(a.sessions, b.sessions, a.clock, l.now);
    SessionsUnpurged(a, b, l);
    OthersAlike(a, b, l);
    hide Live, Get, Unpurged, SessionsAfter;
    if !l.event.Purge? {
      hide RefreshingAfter, SavingAfter, FilesAfter, RestoringAfter, EverAfter;
    }
  }

  lemma NothingUnpurged(now: int)
    ensures Unpurged(map[], map[], now)
  {
  }

  /** A run without its purges is a run, and it differs only in sessions that have expired. */
  lemma {:induction false} PurgesCanBeDropped(s: State, labels: seq<Label>)
    requires Run(s, labels).Some?
    ensures Run(s, WithoutPurges(labels)).Some?
    ensures AlikeButExpired(Run(s, labels).value, Run(s, WithoutPurges(labels)).value)
  {
    if labels != [] {
      var front, l := labels[..|labels| - 1], labels[|labels| - 1];
      hide AlikeButExpired, Enabled, Apply;
      PurgesCanBeDropped(s, front);
      StepUnpurged(Run(s, front).value, Run(s, WithoutPurges(front)).value, l);
      if !l.event.Purge? {
        assert WithoutPurges(labels)[..|WithoutPurges(labels)| - 1] == WithoutPurges(front);
      } else {
        assert WithoutPurges(labels) == WithoutPurges(front);
      }
    }
  }

  /** So purging is invisible: every lookup then or later finds the same session or fails as well. */
  lemma PurgingIsInvisible(clock: int, labels: seq<Label>, s: State, id: Uuid, now: int)
    requires Run(Initial(clock), labels) == Some(s) && s.clock <= now
    ensures var unpurged := Run(Initial(clock), WithoutPurges(labels));
            && unpurged.Some?
            && Live(unpurged.value.sessions, now) == Live(s.sessions, now)
            && (Get(s.sessions, id, now).Ok? || Get(unpurged.value.sessions, id, now).Ok? ==>
                  Get(s.sessions, id, now) == Get(unpurged.value.sessions, id, now))
  {
    PurgesCanBeDropped(Initial(clock), labels);
    var b := Run(Initial(clock), WithoutPurges(labels)).value;
    hide Run, Live, Get;
    UnpurgedLive(s.sessions, b.sessions, s.clock, now);
  }

  /** What a purge does change is the reason given: an expired session is reported as unknown. */
  lemma PurgeChangesTheReason(sessions: Sessions, id: Uuid, purged: int, now: int)
    requires purged <= now
    ensures Get(Live(sessions, purged), id, now) == Get(sessions, id, now)
       <==> !(id in sessions && sessions[id].expiresAt <= purged)
  {
  }
}
