/**
 What the startup's invariant means: no action happens twice, restoring comes to an end, and a stored session
 comes back as it was stored.
 */
module StartupRestore {
  import opened Picking
  import opened SessionEntries
  import opened SessionStore
  import opened Strings
  import opened StartupModel
  import opened StartupRuns

  // ---- each action once ----

  /** The place of an action in the startup. */
  function Rank(a: Act): int {
    match a
    case Splash(msg) => if msg == "ksmserver" then 0 else if msg == "desktop" then 3 else 11
    case LaunchWM(_) => 1
    case RunAutoStart(phase) => if phase == 0 then 2 else if phase == 1 then 5 else 7
    case RunKcmInit(phase) => if phase == 1 then 4 else 10
    case StartApp(_, _) => 6
    case LoadSecondPhase => 8
    case RunUserAutostart => 9
    case SubSessionOpened => 12
  }

  /** Whether b may come after a. */
  predicate Later(a: Act, b: Act) {
    Rank(a) < Rank(b) || (a.LaunchWM? && b.LaunchWM?) || (a.StartApp? && b.StartApp? && a.number < b.number)
  }

  ghost predicate InTurn(acts: seq<Act>) {
    forall i, j :: 0 <= i < j < |acts| ==> Later(acts[i], acts[j])
  }

  lemma InTurnJoins(a: seq<Act>, b: seq<Act>, k: int)
    requires InTurn(a) && InTurn(b) && (forall x :: x in a ==> Rank(x) < k) && (forall x :: x in b ==> k <= Rank(x))
    ensures InTurn(a + b)
  {
    forall i, j | 0 <= i < j < |a + b| ensures Later((a + b)[i], (a + b)[j]) {
      if i < |a| && j >= |a| {
        assert a[i] in a && b[j - |a|] in b;
      }
    }
  }

  lemma AppsInTurn(g: Group, ns: seq<nat>)
    requires Increasing(ns)
    ensures InTurn(Apps(g, ns)) && forall x :: x in Apps(g, ns) ==> Rank(x) == 6
  {
  }

  /** Applications that are started in turn. */
  ghost predicate AppsOnly(apps: seq<Act>) {
    InTurn(apps) && forall x :: x in apps ==> Rank(x) == 6
  }

  /** Whatever the stage, the actions of a startup come one after the other in their places. */
  lemma ScriptInTurn(stage: Stage, kcm: bool, launches: seq<Command>, apps: seq<Act>)
    requires AppsOnly(apps)
    ensures InTurn(Script(stage, kcm, launches, apps))
  {
    hide InTurn;
    SmallInTurn(kcm, launches);
    var s1 := Opening(launches) + [RunAutoStart(0)];
    InTurnJoins(Opening(launches), [RunAutoStart(0)], 2);
    InTurnJoins(s1, Kcm1(kcm), 3);
    InTurnJoins(s1 + Kcm1(kcm), [RunAutoStart(1)], 5);
    InTurnJoins(Early(kcm, launches), apps, 6);
    InTurnJoins(Early(kcm, launches) + apps, Finish(kcm), 7);
    InTurnJoins(Early(kcm, launches) + apps + Finish(kcm), [Splash("ready")], 11);
  }

  lemma SmallInTurn(kcm: bool, launches: seq<Command>)
    ensures InTurn(Opening(launches)) && InTurn([RunAutoStart(0)]) && InTurn(Kcm1(kcm)) && InTurn([RunAutoStart(1)])
    ensures InTurn(Finish(kcm)) && InTurn([Splash("ready")])
    ensures forall x :: x in Opening(launches) ==> Rank(x) < 2
  {
  }

  lemma DefaultGroup(s: Starter)
    requires StartupRuns.Kept(s) && s.DefaultSession()
    ensures s.StoredGroup() == EMPTY_GROUP
  {
  }

  /** A default session has no applications to start. */
  lemma NothingTried(r: Run, e: Event, u: Starter)
    requires Starting(r.s.stage) && r.started == [] && Handle(r.s, e) == u.TryRestoreNext()
    requires u.stage == Restoring && u.acts == r.s.acts && u.StoredGroup() == r.s.StoredGroup() == EMPTY_GROUP
    ensures Step(r, e).started == []
  {
    hide Handle, Step, Starter.TryRestoreNext, Restore;
    TryingActs(u);
    FinishPlain(u.kcm.signals);
    NothingStored(u.session.wm, u.session.clients, u.progress.lastAppStarted, u.progress.appsToStart);
    StepNotes(r, e, [], if u.TryRestoreNext().stage == FinishingStartup then Finish(u.kcm.signals) else []);
  }

  lemma StepStartsNothing(r: Run, e: Event)
    requires StartupRuns.Inv(r) && Allowed(r.s, e) && Starting(r.s.stage) && r.s.DefaultSession() && r.started == []
    ensures Step(r, e).started == []
  {
    hide Handle, Step, StartupRuns.Kept, Moves, StartupRuns.InOrder, StartupRuns.Noted, RestoredRight, Orderly;
    hide Starter.TryRestoreNext;
    if Tries(r.s, e) {
      DefaultGroup(r.s);
      TriesIs(r.s, e);
      NothingTried(r, e, Before(r.s, e));
    } else if e.WmProcessChanged? {
      RelaunchStarts(r, e.running);
    } else {
      NotedSignals(r);
      if e.Registered? || e.RestoreTimer? { IdleEvents(r.s, e); } else { PhaseMoves(r.s, e); }
      MovingStarts(r, e);
    }
  }

  /** The applications started so far were started in turn, and none in a default session. */
  ghost predicate StartedInTurn(r: Run) {
    AppsOnly(r.apps) && (Starting(r.s.stage) && r.s.DefaultSession() ==> r.started == [])
  }

  lemma StepStartsInTurn(r: Run, e: Event)
    requires StartupRuns.Inv(r) && Allowed(r.s, e) && StartedInTurn(r)
    ensures StartedInTurn(Step(r, e))
  {
    hide StartupRuns.Inv, Step, Handle, Allowed, AppsOnly;
    var q := Step(r, e);
    StepKeepsInv(r, e);
    InvParts(q);
    if Starting(q.s.stage) {
      StepKeepsGroup(r, e);
      if r.s.DefaultSession() { StepStartsNothing(r, e); }
      StartedApps(q);
    } else if Starting(r.s.stage) {
      ReadyComesLast(r, e);
    } else {
      NoneNoted(r, e);
    }
  }

  lemma NoneNoted(r: Run, e: Event)
    requires !Starting(r.s.stage)
    ensures Step(r, e).apps == r.apps
  {
    hide Handle;
  }

  lemma StartedApps(q: Run)
    requires StartupRuns.Inv(q) && Starting(q.s.stage) && (q.s.DefaultSession() ==> q.started == [])
    ensures AppsOnly(q.apps)
  {
    hide StartupRuns.Inv, Apps, InTurn;
    InvParts(q);
    NoApps(q.s.StoredGroup());
    AppsInTurn(q.s.StoredGroup(), if q.s.stage == Restoring || q.s.stage == FinishingStartup then q.started else []);
  }

  lemma {:induction false} RunStartsInTurn(r: Run, es: seq<Event>)
    requires StartupRuns.Inv(r) && AllowedAll(r, es) && StartedInTurn(r)
    ensures StartedInTurn(Execute(r, es))
    decreases |es|
  {
    hide StartupRuns.Inv, Step, Allowed, StartedInTurn;
    if es != [] {
      StepKeepsInv(r, es[0]);
      StepStartsInTurn(r, es[0]);
      RunStartsInTurn(Step(r, es[0]), es[1..]);
    }
  }

  /** In every run, whatever happens, no action of the startup but the launch of a window manager is done twice: neither
      so far, while it goes on, nor up to its end, once it has been ready. */
  lemma NothingTwice(s: Starter, name: Option<string>, es: seq<Event>, i: nat, j: nat)
    requires Fresh(s) && AllowedAll(Begun(s, name), es)
    requires var r := Execute(Begun(s, name), es);
      var script := Script(r.s.stage, r.s.kcm.available, r.launches, r.apps);
      i < j < |script| && j < |r.s.acts| && r.s.acts[i] == r.s.acts[j]
    ensures var r := Execute(Begun(s, name), es);
      && Script(r.s.stage, r.s.kcm.available, r.launches, r.apps) <= r.s.acts
      && (Starting(r.s.stage) ==> Script(r.s.stage, r.s.kcm.available, r.launches, r.apps) == r.s.acts)
      && r.s.acts[i].LaunchWM?
  {
    hide Fresh, AllowedAll, Execute, Script, StartupRuns.Inv, StartupRuns.Begun, AppsOnly;
    EveryStartup(s, name, es);
    BeginsInv(s, name);
    NothingBegun(s, name);
    RunStartsInTurn(Begun(s, name), es);
    var r := Execute(Begun(s, name), es);
    ScriptDone(r);
    ScriptInTurn(r.s.stage, r.s.kcm.available, r.launches, r.apps);
    var script := Script(r.s.stage, r.s.kcm.available, r.launches, r.apps);
    assert r.s.acts[i] == script[i] && r.s.acts[j] == script[j];
    assert Later(script[i], script[j]);
  }

  lemma ScriptDone(r: Run)
    requires StartupRuns.Inv(r)
    ensures Script(r.s.stage, r.s.kcm.available, r.launches, r.apps) <= r.s.acts
    ensures Starting(r.s.stage) ==> Script(r.s.stage, r.s.kcm.available, r.launches, r.apps) == r.s.acts
  {
  }

  lemma NothingBegun(s: Starter, name: Option<string>)
    ensures StartedInTurn(Begun(s, name))
  {
    hide Starter.RestoreSession, Starter.StartDefaultSession;
  }

  lemma InvParts(r: Run)
    requires StartupRuns.Inv(r)
    ensures Starting(r.s.stage) ==> r.s.acts == Script(r.s.stage, r.s.kcm.available, r.launches, r.apps)
    ensures r.s.stage == Restoring || r.s.stage == FinishingStartup ==> r.apps == Apps(r.s.StoredGroup(), r.started)
    ensures Starting(r.s.stage) && r.s.stage != Restoring && r.s.stage != FinishingStartup ==> r.apps == []
    ensures (r.s.stage == Restoring || r.s.stage == FinishingStartup) && !r.s.DefaultSession() ==> Increasing(r.started)
  {
  }

  // ---- restoring exactly what was stored ----

  /** The numbers up to n whose entries may be started. */
  function RestartableNumbers(g: Group, wm: string, n: nat): (r: seq<nat>)
    ensures forall k :: k in r <==> 1 <= k <= n && Restartable(g.Read(k), wm)
  {
    if n == 0 then [] else RestartableNumbers(g, wm, n - 1) + (if Restartable(g.Read(n), wm) then [n] else [])
  }

  lemma {:induction false} RestartableIncreasing(g: Group, wm: string, n: nat)
    ensures Increasing(RestartableNumbers(g, wm, n))
  {
    if n != 0 {
      RestartableIncreasing(g, wm, n - 1);
      var a := RestartableNumbers(g, wm, n - 1);
      assert forall i :: 0 <= i < |a| ==> a[i] in a;
    }
  }

  lemma FirstIsLeast(a: seq<nat>)
    requires Increasing(a) && a != []
    ensures a[0] in a && Increasing(a[1..]) && (forall n :: n in a ==> a[0] <= n)
    ensures forall n :: n in a[1..] <==> n in a && n != a[0]
  {
    assert a == [a[0]] + a[1..];
  }

  /** Two increasing sequences with the same elements are the same. */
  lemma {:induction false} IncreasingUnique(a: seq<nat>, b: seq<nat>)
    requires Increasing(a) && Increasing(b) && forall n :: n in a <==> n in b
    ensures a == b
    decreases |a|
  {
    hide Increasing;
    HasFirst(a);
    HasFirst(b);
    if a != [] {
      FirstIsLeast(a);
      FirstIsLeast(b);
      IncreasingUnique(a[1..], b[1..]);
      assert a == [a[0]] + a[1..] && b == [b[0]] + b[1..];
    }
  }

  lemma HasFirst(a: seq<nat>)
    ensures a == [] || a[0] in a
  {
  }

  /** When a stored session's startup has come to its last phase and clients have connected orderly, it has started
      exactly the restartable entries, each once and in the stored order. */
  lemma RestoresWhatIsStored(s: Starter, name: string, es: seq<Event>)
    requires Fresh(s) && AllowedAll(Begun(s, Some(name)), es)
    requires var r := Execute(Begun(s, Some(name)), es);
      r.s.stage == FinishingStartup && r.orderly && !r.s.DefaultSession()
    ensures var r := Execute(Begun(s, Some(name)), es);
      && r.started == RestartableNumbers(r.s.StoredGroup(), r.s.session.wm, r.s.StoredGroup().count)
      && Increasing(r.started)
      && (forall n :: n in r.started <==> 1 <= n <= r.s.StoredGroup().count && var e := r.s.StoredGroup().Read(n);
            e.restartCommand != [] && e.restartStyle != 3 && e.program != r.s.session.wm && !e.wasWm)
      && r.s.acts == Early(r.s.kcm.available, r.launches) + Apps(r.s.StoredGroup(), r.started) + Finish(r.s.kcm.available)
  {
    hide Fresh, Begun, AllowedAll, Execute, StartupRuns.Inv;
    EveryStartup(s, Some(name), es);
    var r := Execute(Begun(s, Some(name)), es);
    InvParts(r);
    RightNumbers(r);
    RestartableIncreasing(r.s.StoredGroup(), r.s.session.wm, r.s.StoredGroup().count);
  }

  lemma RightNumbers(r: Run)
    requires StartupRuns.Inv(r) && r.s.stage == FinishingStartup && r.orderly && !r.s.DefaultSession()
    ensures r.started == RestartableNumbers(r.s.StoredGroup(), r.s.session.wm, r.s.StoredGroup().count)
  {
    var g := r.s.StoredGroup();
    RestartableIncreasing(g, r.s.session.wm, g.count);
    IncreasingUnique(r.started, RestartableNumbers(g, r.s.session.wm, g.count));
  }

  /** Entries without an id are started without waiting; only the last one of a go can have one. */
  lemma {:induction false} WaitsForEachId(g: Group, wm: string, clients: seq<string>, k: nat, count: nat)
    ensures var r := Restore(g, wm, clients, k, count);
      && (forall i :: 0 <= i < |r.started| - 1 ==> g.Read(r.started[i]).clientId == "")
      && (r.started != [] && g.Read(r.started[|r.started| - 1]).clientId != "" <==> r.waits)
    decreases count - k
  {
    if k < count { WaitsForEachId(g, wm, clients, k + 1, count); }
  }

  // ---- restoring ends ----

  predicate Waiting(s: Starter) { (s.stage == Restoring || s.stage == RestoringSubSession) && s.progress.timer }

  function FireAll(s: Starter, n: nat): Starter
    decreases n
  {
    if n == 0 || !Waiting(s) then s else FireAll(Handle(s, RestoreTimer), n - 1)
  }

  /** However few applications register, the restore timer brings restoring, also that of a sub-session, to its end. */
  lemma {:induction false} FiringEnds(s: Starter, n: nat)
    requires Waiting(s) ==> n > 0 && s.progress.appsToStart - s.progress.lastAppStarted < n
    ensures !Waiting(FireAll(s, n))
    decreases n
  {
    hide Starter.TryRestoreNext, Starter.StartAutoStart2;
    if Waiting(s) {
      FiringAdvances(s);
      FiringEnds(Handle(s, RestoreTimer), n - 1);
    }
  }

  lemma FiringAdvances(s: Starter)
    requires Waiting(s)
    ensures var t := Handle(s, RestoreTimer);
      Waiting(t) ==> s.progress.lastAppStarted < t.progress.lastAppStarted <= t.progress.appsToStart == s.progress.appsToStart
  {
    RestoreStops(s.StoredGroup(), s.session.wm, s.session.clients, s.progress.lastAppStarted, s.progress.appsToStart);
  }

  /** Opening a part of the session leaves a startup going just if none is: the server then only restores that part,
      and when it is done it is idle without ever having been ready. */
  lemma OpeningStopsStartup(s: Starter, name: string)
    ensures (Starting(s.stage) ==> Starting(s.RestoreSubSession(name).stage)) <==> !Starting(s.stage)
  {
    hide Starter.TryRestoreNext;
    var t := s.(session := s.session.(group := "SubSession: " + name));
    TryingActs(t.(stage := RestoringSubSession, progress := Progress(t.StoredGroup().count, 0, "", s.progress.timer)));
  }

  // ---- from storing to restoring ----

  /** Who is started again: whoever has a restart command and neither was nor is the window manager. */
  function Restarted(ids: seq<ClientId>, props: map<ClientId, Properties>, was: string, wm: string): seq<ClientId>
    requires forall i :: 0 <= i < |ids| ==> ids[i] in props
  {
    if ids == [] then [] else
      var c := ids[|ids| - 1];
      Restarted(ids[..|ids| - 1], props, was, wm) +
      (if props[c].RestartCommand() != [] && props[c].Program() != was && props[c].Program() != wm then [c] else [])
  }

  /** The restartable entries of a stored session are its clients to be started again, in the same order. */
  lemma {:induction false} StoredThenRestartable(ids: seq<ClientId>, props: map<ClientId, Properties>, was: string, wm: string,
                                                  g: Group, n: nat)
    requires n <= |ids| && (forall i :: 0 <= i < |ids| ==> ids[i] in props && props[ids[i]].RestartStyleHint() != SM_RESTART_NEVER)
    requires forall i :: 0 <= i < |ids| ==> g.Read(i + 1) == EntryFor(props[ids[i]], was)
    ensures var ns, cs := RestartableNumbers(g, wm, n), Restarted(ids[..n], props, was, wm);
      && |ns| == |cs|
      && forall i :: 0 <= i < |ns| ==> cs[i] in props && g.Read(ns[i]) == EntryFor(props[cs[i]], was)
  {
    hide Properties.RestartCommand, Properties.Program, Properties.RestartStyleHint, Group.Read;
    if n != 0 {
      StoredThenRestartable(ids, props, was, wm, g, n - 1);
      assert ids[..n][..n - 1] == ids[..n - 1];
      assert g.Read(n - 1 + 1) == EntryFor(props[ids[n - 1]], was);
    }
  }

  lemma {:induction false} FirstWmCommand(g: Group, wm: string, n: nat)
    requires n >= 1 && g.Read(1).program == wm
    ensures WmStartCommands(g, wm, n) != [] && WmStartCommands(g, wm, n)[0] == g.Read(1).restartCommand
    decreases n
  {
    if n > 1 {
      FirstWmCommand(g, wm, n - 1);
    } else {
      assert WmStartCommands(g, wm, 0) == [];
    }
  }

  // ---- the stored group stays the same while it is restored ----

  lemma StepKeepsGroup(r: Run, e: Event)
    requires StartupRuns.Inv(r) && Allowed(r.s, e) && Starting(Step(r, e).s.stage)
    ensures Starting(r.s.stage) && Step(r, e).s.session.group == r.s.session.group
    ensures Step(r, e).s.session.config == r.s.session.config
  {
    hide Handle, Step, StartupRuns.Kept, Before, Starter.TryRestoreNext;
    StepServer(r, e);
    if !Starting(r.s.stage) {
      var _, _ := OpensParts(r.s, e);
    } else if Tries(r.s, e) {
      TriesIs(r.s, e);
      TriesSession(r.s, e);
      TryingSession(Before(r.s, e));
    } else {
      PhaseSession(r.s, e);
    }
  }

  lemma {:induction false} RunKeepsGroup(r: Run, es: seq<Event>)
    requires StartupRuns.Inv(r) && AllowedAll(r, es) && Starting(Execute(r, es).s.stage)
    ensures Starting(r.s.stage) && Execute(r, es).s.session.group == r.s.session.group
    ensures Execute(r, es).s.session.config == r.s.session.config
    decreases |es|
  {
    hide StartupRuns.Inv, Step, Allowed;
    if es != [] {
      StepKeepsInv(r, es[0]);
      RunKeepsGroup(Step(r, es[0]), es[1..]);
      StepKeepsGroup(r, es[0]);
    }
  }

  /** The stored clients that are started again: those that say how, and neither were nor are the window manager. */
  ghost function Returns(props: map<ClientId, Properties>, was: string, wm: string): ClientId -> bool {
    c => c in props && !Says(props[c].list, "RestartCommand", "LISTofARRAY8", [])
         && !Text(props[c].list, "Program", was) && !Text(props[c].list, "Program", wm)
  }

  /** And of all clients those that want to be stored, too. */
  ghost function ComesBack(props: map<ClientId, Properties>, excluded: set<string>, was: string, wm: string): ClientId -> bool {
    c => c in props && !LeftOut(props[c].list, excluded) && !Says(props[c].list, "RestartCommand", "LISTofARRAY8", [])
         && !Text(props[c].list, "Program", was) && !Text(props[c].list, "Program", wm)
  }

  lemma {:induction false} RestartedPicks(ids: seq<ClientId>, props: map<ClientId, Properties>, was: string, wm: string)
    requires forall i :: 0 <= i < |ids| ==> ids[i] in props
    ensures Picks(Restarted(ids, props, was, wm), ids, Returns(props, was, wm))
  {
    hide Picks, PicksAt, Says, Text, Properties.RestartCommand, Properties.Program;
    var p := Returns(props, was, wm);
    if ids == [] {
      PicksNone(p);
    } else {
      var rest, c := ids[..|ids| - 1], ids[|ids| - 1];
      RestartedPicks(rest, props, was, wm);
      PicksOn(Restarted(rest, props, was, wm), rest, p, c);
      OnlyTheGetters(props[c]);
      assert rest + [c] == ids;
      assert p(c) <==> props[c].RestartCommand() != [] && props[c].Program() != was && props[c].Program() != wm;
      assert Restarted(rest, props, was, wm) + [] == Restarted(rest, props, was, wm);
    }
  }

  /** A session stored from some clients comes back: by its last phase the startup has started exactly those clients
      that are not left out, say how to restart them, and neither were nor are the window manager. Each is started once,
      in the stored order, with the command it gave. */
  lemma SessionComesBack(s: Starter, name: string, es: seq<Event>, ids: seq<ClientId>, stored: seq<ClientId>,
                         props: map<ClientId, Properties>, was: string, excluded: set<string>) returns (again: seq<ClientId>)
    requires Fresh(s) && AllowedAll(Begun(s, Some(name)), es)
    requires Picks(stored, ids, NotLeftOut(props, excluded))
    requires "Session: " + name in s.session.config
    requires Writes(s.session.config["Session: " + name], stored, props, was)
    requires var r := Execute(Begun(s, Some(name)), es); r.s.stage == FinishingStartup && r.orderly
    ensures var r := Execute(Begun(s, Some(name)), es);
      && Picks(again, ids, ComesBack(props, excluded, was, r.s.session.wm))
      && r.s.acts == Early(r.s.kcm.available, r.launches) + r.apps + Finish(r.s.kcm.available) && |r.apps| == |again|
      && (forall i :: 0 <= i < |again| ==> again[i] in props && r.apps[i].StartApp?)
      && (forall i :: 0 <= i < |again| ==> Says(props[again[i]].list, "RestartCommand", "LISTofARRAY8", r.apps[i].command))
  {
    hide Fresh, AllowedAll, Execute, StartupRuns.Inv, Begun, Restarted, RestartableNumbers, Group.Read, Early, Finish, Apps,
      Picks, Writes, NotLeftOut, Returns, ComesBack, Says, EntryFor, Properties.RestartStyleHint, Properties.RestartCommand;
    var b := Begun(s, Some(name));
    EveryStartup(s, Some(name), es);
    BeginsInv(s, Some(name));
    RunKeepsGroup(b, es);
    BegunGroup(s, name);
    var r := Execute(b, es);
    RestoresWhatIsStored(s, name, es);
    InvParts(r);
    var g, wm := r.s.StoredGroup(), r.s.session.wm;
    WrittenReads(g, stored, props, was);
    StoredAgain(stored, ids, props, excluded);
    StoredThenRestartable(stored, props, was, wm, g, |stored|);
    assert stored[..|stored|] == stored;
    again := Restarted(stored, props, was, wm);
    RestartedPicks(stored, props, was, wm);
    BothPick(again, stored, ids, props, was, wm, excluded);
    forall i | 0 <= i < |again| ensures Says(props[again[i]].list, "RestartCommand", "LISTofARRAY8", r.apps[i].command) {
      OnlyTheGetters(props[again[i]]);
      EntryCommand(props[again[i]], was);
    }
  }

  lemma EntryCommand(p: Properties, wm: string)
    ensures EntryFor(p, wm).restartCommand == p.RestartCommand() && EntryFor(p, wm).program == p.Program()
  {
  }

  lemma BothPick(again: seq<ClientId>, stored: seq<ClientId>, ids: seq<ClientId>, props: map<ClientId, Properties>,
                 was: string, wm: string, excluded: set<string>)
    requires Picks(stored, ids, NotLeftOut(props, excluded)) && Picks(again, stored, Returns(props, was, wm))
    ensures Picks(again, ids, ComesBack(props, excluded, was, wm))
  {
    hide Picks, Says, Text, LeftOut;
    PicksTwice(again, stored, ids, NotLeftOut(props, excluded), Returns(props, was, wm), ComesBack(props, excluded, was, wm));
  }

  lemma WrittenReads(g: Group, ids: seq<ClientId>, props: map<ClientId, Properties>, wm: string)
    requires Writes(g, ids, props, wm)
    ensures g.count == |ids|
    ensures forall i :: 0 <= i < |ids| ==> ids[i] in props && g.Read(i + 1) == EntryFor(props[ids[i]], wm)
  {
    hide EntryOf, EntryFor;
    forall i | 0 <= i < |ids| ensures ids[i] in props && g.Read(i + 1) == EntryFor(props[ids[i]], wm) {
      EntryForIs(g.entries[i + 1], props[ids[i]], wm);
    }
  }

  lemma StoredAgain(stored: seq<ClientId>, ids: seq<ClientId>, props: map<ClientId, Properties>, excluded: set<string>)
    requires Picks(stored, ids, NotLeftOut(props, excluded))
    ensures forall i :: 0 <= i < |stored| ==> stored[i] in props && props[stored[i]].RestartStyleHint() != SM_RESTART_NEVER
  {
    hide Picks, LeftOut, Properties.RestartStyleHint, Properties.Program, Properties.RestartCommand, Lower, FileName;
    PickedFrom(stored, ids, NotLeftOut(props, excluded));
    forall i | 0 <= i < |stored| ensures stored[i] in props && props[stored[i]].RestartStyleHint() != SM_RESTART_NEVER {
      assert stored[i] in stored;
      StorableIs(props[stored[i]], excluded);
    }
  }

  lemma BegunGroup(s: Starter, name: string)
    requires Fresh(s)
    ensures Begun(s, Some(name)).s.session.group == "Session: " + name && "Session: " + name != ""
    ensures Begun(s, Some(name)).s.session.config == s.session.config
  {
    hide WmStartCommands;
    assert |"Session: " + name| > 0;
  }

  /** The first window manager is stored first, unless it is left out, and then it is the one that is launched, with the
      command it gave. */
  lemma StoredWmIsLaunched(s: Starter, name: string, ids: seq<ClientId>, k: nat, stored: seq<ClientId>,
                           props: map<ClientId, Properties>, was: string, excluded: set<string>)
    requires Fresh(s) && s.session.wm != "" && k < |ids| && ids[k] in props && !LeftOut(props[ids[k]].list, excluded)
    requires Text(props[ids[k]].list, "Program", s.session.wm)
    requires Picks(stored, [ids[k]] + ids[..k] + ids[k + 1..], NotLeftOut(props, excluded))
    requires "Session: " + name in s.session.config
    requires Writes(s.session.config["Session: " + name], stored, props, was)
    ensures var launches := Begun(s, Some(name)).launches;
      |launches| == 1 && Says(props[ids[k]].list, "RestartCommand", "LISTofARRAY8", launches[0])
  {
    hide Picks, Writes, LeftOut, Says, Text, Fresh, Begun, WmStartCommands, EntryFor, Group.Read;
    var g := s.session.config["Session: " + name];
    PicksHead(stored, [ids[k]] + ids[..k] + ids[k + 1..], NotLeftOut(props, excluded));
    WrittenReads(g, stored, props, was);
    assert g.Read(0 + 1) == EntryFor(props[stored[0]], was);
    OnlyTheGetters(props[ids[k]]);
    EntryCommand(props[ids[k]], was);
    FirstWmCommand(g, s.session.wm, g.count);
    LaunchedFirst(s, name, g);
  }

  lemma LaunchedFirst(s: Starter, name: string, g: Group)
    requires Fresh(s) && s.session.wm != "" && "Session: " + name in s.session.config && g == s.session.config["Session: " + name]
    requires WmStartCommands(g, s.session.wm, g.count) != []
    ensures Begun(s, Some(name)).launches == [WmStartCommands(g, s.session.wm, g.count)[0]]
  {
    hide WmStartCommands;
    var t := s.RestoreSession(name);
    var command := WmStartCommands(g, s.session.wm, g.count)[0];
    assert t.acts == [Splash("ksmserver"), LaunchWM(command)];
    assert t.acts[..1] == [Splash("ksmserver")] && t.acts[..1][..0] == [] && Launches(t.acts) == [command];
  }
}
