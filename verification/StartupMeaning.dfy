/**
 What the startup's parts come to, said of the events that happened and of the stored entries: when the gate is open,
 which window manager is launched, and which entries one go at restoring starts.
 */
module StartupMeaning {
  import opened Picking
  import opened SessionStore
  import opened StartupModel
  import opened StartupRuns

  // ---- the gate ----

  /** How many suspensions of an application are left after some events when n were left before them. The suspend timer
      forgets them all, and a resume without a suspension is ignored. */
  function Outstanding(app: string, n: nat, es: seq<Event>): nat
    decreases |es|
  {
    if es == [] then n
    else if es[0] == Suspend(app) then Outstanding(app, n + 1, es[1..])
    else if es[0] == Resume(app) then Outstanding(app, if n == 0 then 0 else n - 1, es[1..])
    else if es[0] == SuspendTimer then Outstanding(app, 0, es[1..])
    else Outstanding(app, n, es[1..])
  }

  /** The gate has this many suspensions on its books. */
  ghost predicate Books(s: Starter, left: string -> nat) {
    forall app :: (app in s.gate.suspended <==> left(app) > 0) && (app in s.gate.suspended ==> s.gate.suspended[app] == left(app))
  }

  /** What an event does to them. */
  ghost function Left(e: Event, left: string -> nat): string -> nat {
    app => if e == Suspend(app) then left(app) + 1
           else if e == Resume(app) then if left(app) == 0 then 0 else left(app) - 1
           else if e == SuspendTimer then 0
           else left(app)
  }

  lemma TryingSuspends(s: Starter)
    ensures s.TryRestoreNext().gate.suspended == s.gate.suspended
  {
  }

  lemma PhasesSuspend(s: Starter)
    ensures s.AutoStart1Done().gate.suspended == s.gate.suspended
    ensures s.ResumeStartupInternal().gate.suspended == map[]
  {
    hide Starter.TryRestoreNext;
    var u := s.(gate := s.gate.(suspended := map[]));
    TryingSuspends(s.(wake := s.wake.(auto1 := false)).Pass(Restoring).(progress := s.progress.(lastAppStarted := 0, lastIdStarted := "")));
    TryingSuspends(u.(wake := u.wake.(auto1 := false)).Pass(Restoring).(progress := u.progress.(lastAppStarted := 0, lastIdStarted := "")));
  }

  lemma OthersSuspend(s: Starter, e: Event)
    requires !e.Suspend? && !e.Resume? && !e.SuspendTimer?
    ensures Handle(s, e).gate.suspended == s.gate.suspended
  {
    hide Starter.TryRestoreNext, Starter.AutoStart1Done;
    PhasesSuspend(s);
    match e
    case Registered(_, id) => TryingSuspends(s.(session := s.session.(clients := s.session.clients + [id])));
    case RestoreTimer => TryingSuspends(s.(progress := s.progress.(timer := false)));
    case OpenSubSession(name) =>
      var t := s.(session := s.session.(group := "SubSession: " + name));
      TryingSuspends(t.(stage := RestoringSubSession, progress := Progress(t.StoredGroup().count, 0, "", s.progress.timer)));
    case _ =>
  }

  lemma ResumeSuspends(s: Starter, app: string)
    ensures var t, n := s.ResumeStartup(app).gate.suspended, if app in s.gate.suspended then s.gate.suspended[app] else 1;
      t == if n == 1 then s.gate.suspended - {app} else s.gate.suspended[app := n - 1]
  {
    hide Starter.ResumeStartupInternal;
    if app !in s.gate.suspended {
      assert s.gate.suspended - {app} == s.gate.suspended;
    } else if s.gate.suspended[app] == 1 {
      var u := s.(gate := s.gate.(suspended := s.gate.suspended - {app}));
      PhasesSuspend(u.(gate := u.gate.(timer := false)));
    }
  }

  lemma StepBooks(s: Starter, e: Event, left: string -> nat)
    requires Books(s, left)
    ensures Books(Handle(s, e), Left(e, left))
  {
    hide Starter.ResumeStartup, Starter.ResumeStartupInternal;
    if e.Resume? {
      ResumeSuspends(s, e.app);
    } else if e.SuspendTimer? {
      PhasesSuspend(s.(gate := s.gate.(timer := false)));
    } else if !e.Suspend? {
      hide Handle;
      OthersSuspend(s, e);
    }
  }

  /** What is left of all of them after some events. */
  ghost function LeftAfter(left: string -> nat, es: seq<Event>): string -> nat { app => Outstanding(app, left(app), es) }

  ghost function Nothing(): string -> nat { app => 0 }

  lemma OneMoreEvent(left: string -> nat, es: seq<Event>, app: string)
    requires es != []
    ensures LeftAfter(left, es)(app) == LeftAfter(Left(es[0], left), es[1..])(app)
  {
  }

  /** After any events, exactly those applications hold the gate of which suspensions are left. */
  lemma {:induction false} GateKeepsBooks(r: Run, left: string -> nat, es: seq<Event>)
    requires Books(r.s, left)
    ensures Books(Execute(r, es).s, LeftAfter(left, es))
    decreases |es|
  {
    hide Handle, Step, Books, Left, LeftAfter;
    if es == [] {
      BooksAgree(r.s, left, LeftAfter(left, es)) by { NothingHappens(left); }
    } else {
      StepBooks(r.s, es[0], left);
      StepServer(r, es[0]);
      GateKeepsBooks(Step(r, es[0]), Left(es[0], left), es[1..]);
      forall app ensures LeftAfter(left, es)(app) == LeftAfter(Left(es[0], left), es[1..])(app) { OneMoreEvent(left, es, app); }
      BooksAgree(Execute(r, es).s, LeftAfter(Left(es[0], left), es[1..]), LeftAfter(left, es));
    }
  }

  lemma NothingHappens(left: string -> nat)
    ensures forall app :: LeftAfter(left, [])(app) == left(app)
  {
  }

  lemma BooksAgree(s: Starter, left: string -> nat, more: string -> nat)
    requires Books(s, left) && forall app :: more(app) == left(app)
    ensures Books(s, more)
  {
  }

  lemma OpenWithoutBooks(s: Starter, left: string -> nat)
    requires Books(s, left)
    ensures s.Open() <==> forall app :: left(app) == 0
  {
    if forall app :: left(app) == 0 { assert forall app :: app !in s.gate.suspended; }
  }

  ghost function Suspensions(app: string, es: seq<Event>): nat { multiset(es)[Suspend(app)] }

  ghost function Resumptions(app: string, es: seq<Event>): nat { multiset(es)[Resume(app)] }

  /** Nobody ever resumes more often than it has suspended, with n suspensions to begin with. */
  ghost predicate Paired(app: string, n: nat, es: seq<Event>) {
    forall i :: 0 <= i <= |es| ==> Resumptions(app, es[..i]) <= n + Suspensions(app, es[..i])
  }

  lemma PairedRest(app: string, n: nat, m: nat, es: seq<Event>)
    requires es != [] && Paired(app, n, es)
    requires m + (if es[0] == Resume(app) then 1 else 0) == n + (if es[0] == Suspend(app) then 1 else 0)
    ensures Paired(app, m, es[1..])
  {
    forall i | 0 <= i <= |es[1..]| ensures Resumptions(app, es[1..][..i]) <= m + Suspensions(app, es[1..][..i]) {
      assert es[..i + 1] == [es[0]] + es[1..][..i];
      assert Resumptions(app, es[..i + 1]) <= n + Suspensions(app, es[..i + 1]);
    }
  }

  lemma {:induction false} OutstandingIs(app: string, n: nat, es: seq<Event>)
    requires SuspendTimer !in es && Paired(app, n, es)
    ensures Outstanding(app, n, es) == n + Suspensions(app, es) - Resumptions(app, es)
    decreases |es|
  {
    if es != [] {
      assert es[0] in es && es == [es[0]] + es[1..];
      FirstResumed(app, n, es);
      var m := if es[0] == Suspend(app) then n + 1 else if es[0] == Resume(app) then n - 1 else n;
      PairedRest(app, n, m, es);
      OutstandingIs(app, m, es[1..]);
    }
  }

  lemma FirstResumed(app: string, n: nat, es: seq<Event>)
    requires es != [] && Paired(app, n, es)
    ensures es[0] == Resume(app) ==> n > 0
  {
    assert es[..1] == [es[0]];
    assert Resumptions(app, es[..1]) <= n + Suspensions(app, es[..1]);
  }

  /** A startup whose gate has been cleared, by the timer or because it has just begun, and which every application
      resumes at most as often as it suspends it, has its gate open if and only if each has resumed it as often as it
      has suspended it. */
  lemma OpenWhenBalanced(s: Starter, name: Option<string>, before: seq<Event>, es: seq<Event>)
    requires Fresh(s) && (before == [] || before[|before| - 1] == SuspendTimer)
    requires SuspendTimer !in es && forall app :: Paired(app, 0, es)
    ensures Execute(Begun(s, name), before + es).s.Open() <==> forall app :: Suspensions(app, es) == Resumptions(app, es)
  {
    hide Execute, Begun, Outstanding, Paired, Suspensions, Resumptions, Books, Fresh;
    var r := Execute(Begun(s, name), before);
    ClearedAtFirst(s, name, before);
    ExecuteTwice(Begun(s, name), before, es);
    GateKeepsBooks(r, Nothing(), es);
    OpenWithoutBooks(Execute(r, es).s, LeftAfter(Nothing(), es));
    forall app ensures LeftAfter(Nothing(), es)(app) == 0 <==> Suspensions(app, es) == Resumptions(app, es) {
      OutstandingIs(app, 0, es);
    }
  }

  lemma ClearedAtFirst(s: Starter, name: Option<string>, before: seq<Event>)
    requires Fresh(s) && (before == [] || before[|before| - 1] == SuspendTimer)
    ensures Books(Execute(Begun(s, name), before).s, Nothing())
  {
    hide Begun, Handle, Step, Execute;
    BegunOpen(s, name);
    if before == [] {
      NoEvents(Begun(s, name));
    } else {
      var k := |before| - 1;
      var r := Execute(Begun(s, name), before[..k]);
      ExecuteTwice(Begun(s, name), before[..k], [SuspendTimer]);
      assert before[..k] + [SuspendTimer] == before;
      StepServer(r, SuspendTimer);
      TimerClears(r.s);
      OneEvent(r, SuspendTimer);
    }
  }

  lemma BegunOpen(s: Starter, name: Option<string>)
    requires Fresh(s)
    ensures Begun(s, name).s.gate.suspended == map[]
  {
    hide WmStartCommands, Launches;
  }

  lemma NoEvents(r: Run)
    ensures Execute(r, []) == r
  {
  }

  lemma OneEvent(r: Run, e: Event)
    ensures Execute(r, [e]) == Step(r, e)
  {
    hide Step;
    NoEvents(Step(r, e));
    assert [e][1..] == [];
  }

  lemma TimerClears(s: Starter)
    ensures Handle(s, SuspendTimer).gate.suspended == map[]
  {
    hide Starter.ResumeStartupInternal;
    PhasesSuspend(s.(gate := s.gate.(timer := false)));
  }

  lemma {:induction false} ExecuteTwice(r: Run, a: seq<Event>, b: seq<Event>)
    ensures Execute(r, a + b) == Execute(Execute(r, a), b)
    decreases |a|
  {
    hide Step;
    if a == [] {
      assert a + b == b;
    } else {
      assert (a + b)[1..] == a[1..] + b;
      ExecuteTwice(Step(r, a[0]), a[1..], b);
    }
  }

  // ---- window managers ----

  /** The first entry of this program, if any of the first n is one. */
  ghost predicate FirstOf(g: Group, wm: string, n: nat, k: nat) {
    1 <= k <= n && g.Read(k).program == wm && forall j :: 1 <= j < k ==> g.Read(j).program != wm
  }

  lemma {:induction false} FirstCommand(g: Group, wm: string, n: nat, k: nat)
    requires FirstOf(g, wm, n, k)
    ensures WmStartCommands(g, wm, n) != [] && WmStartCommands(g, wm, n)[0] == g.Read(k).restartCommand
  {
    hide Group.Read;
    if k < n { FirstCommand(g, wm, n - 1, k); } else { NoCommands(g, wm, n - 1); }
  }

  lemma {:induction false} NoCommands(g: Group, wm: string, n: nat)
    requires forall j :: 1 <= j <= n ==> g.Read(j).program != wm
    ensures WmStartCommands(g, wm, n) == []
  {
    hide Group.Read;
    if n != 0 { NoCommands(g, wm, n - 1); }
  }

  /** A startup begins by launching the configured window manager, unless it restores a session in which this window
      manager is stored: then with the command of its first entry. */
  lemma LaunchedAtFirst(s: Starter, name: Option<string>)
    requires Fresh(s)
    ensures var launches, wm := Begun(s, name).launches, s.session.wm;
      && |launches| == 1
      && (name.None? ==> launches[0] == s.session.wmCommands)
      && (name.Some? && "Session: " + name.value !in s.session.config ==> launches[0] == s.session.wmCommands)
      && (name.Some? && "Session: " + name.value in s.session.config ==>
            var g := s.session.config["Session: " + name.value];
            && (wm == "" || (forall k: nat :: !FirstOf(g, wm, g.count, k)) ==> launches[0] == s.session.wmCommands)
            && (wm != "" ==> forall k: nat :: FirstOf(g, wm, g.count, k) ==> launches[0] == g.Read(k).restartCommand))
  {
    hide WmStartCommands, Group.Read;
    BegunActs(s, name);
    var wm := s.session.wm;
    if name.Some? {
      if "Session: " + name.value in s.session.config {
        var g := s.session.config["Session: " + name.value];
        forall k: nat | FirstOf(g, wm, g.count, k)
          ensures WmStartCommands(g, wm, g.count) != [] && WmStartCommands(g, wm, g.count)[0] == g.Read(k).restartCommand
        {
          FirstCommand(g, wm, g.count, k);
        }
        if forall k: nat :: !FirstOf(g, wm, g.count, k) { NoneFirst(g, wm, g.count); }
      } else {
        NoneStored(wm);
      }
    }
  }

  lemma NoneStored(wm: string)
    ensures WmStartCommands(EMPTY_GROUP, wm, 0) == []
  {
  }

  lemma {:induction false} NoneFirst(g: Group, wm: string, n: nat)
    requires forall k: nat :: !FirstOf(g, wm, n, k)
    ensures WmStartCommands(g, wm, n) == []
  {
    hide FirstOf;
    NoneOf(g, wm, n, n);
    NoCommands(g, wm, n);
  }

  lemma {:induction false} NoneOf(g: Group, wm: string, n: nat, m: nat)
    requires m <= n && forall k: nat :: !FirstOf(g, wm, n, k)
    ensures forall j :: 1 <= j <= m ==> g.Read(j).program != wm
  {
    hide Group.Read;
    if m != 0 {
      NoneOf(g, wm, n, m - 1);
      assert !FirstOf(g, wm, n, m);
    }
  }

  /** The session's window manager, and what has been launched. */
  ghost predicate SameWm(r: Run, q: Run) {
    q.launches == r.launches && q.s.session.wm == r.s.session.wm && q.s.session.wmCommands == r.s.session.wmCommands
  }

  /** Only a window manager that fails to come up is replaced, by KWin and once. */
  lemma OnlyKwinReplaces(r: Run, e: Event)
    requires StartupRuns.Inv(r) && Allowed(r.s, e)
    ensures var q := Step(r, e);
      if e == WmProcessChanged(false) && r.s.stage == LaunchingWM && r.s.session.wm != "kwin"
      then q.launches == r.launches + [["kwin"]] && q.s.session.wm == "kwin" && q.s.session.wmCommands == ["kwin"]
      else SameWm(r, q)
  {
    hide StartupRuns.Kept, Moves, StartupRuns.InOrder, RestoredRight, Orderly, StartupRuns.Noted;
    hide Handle, Step, Starter.TryRestoreNext;
    StepServer(r, e);
    if e.WmProcessChanged? {
      ReplacingWm(r, e.running);
    } else {
      LaunchesNothing(r, e);
      OthersKeepWm(r.s, e);
    }
  }

  lemma ReplacingWm(r: Run, running: bool)
    ensures var q := Step(r, WmProcessChanged(running));
      if !running && r.s.stage == LaunchingWM && r.s.session.wm != "kwin"
      then q.launches == r.launches + [["kwin"]] && q.s.session.wm == "kwin" && q.s.session.wmCommands == ["kwin"]
      else SameWm(r, q)
  {
    var t := Handle(r.s, WmProcessChanged(running));
    if t.acts == r.s.acts {
      assert News(r.s, t) == [];
      assert r.launches + [] == r.launches;
    } else {
      assert News(r.s, t) == [LaunchWM(["kwin"])];
      assert [LaunchWM(["kwin"])][..0] == [] && Launches([LaunchWM(["kwin"])]) == [["kwin"]];
    }
  }

  lemma LaunchesNothing(r: Run, e: Event)
    requires StartupRuns.Inv(r) && Allowed(r.s, e) && !e.WmProcessChanged?
    ensures Step(r, e).launches == r.launches
  {
    hide StartupRuns.Kept, Moves, StartupRuns.InOrder, RestoredRight, Orderly, StartupRuns.Noted;
    hide Handle, Step, Starter.TryRestoreNext, Apps, Finish, Tail;
    var g := r.s.StoredGroup();
    NoApps(g);
    if !Starting(r.s.stage) {
      var ns, tail := OpensParts(r.s, e);
      PartsLaunchNothing(r, e, ns, tail);
    } else if Tries(r.s, e) {
      TriesIs(r.s, e);
      var u := Before(r.s, e);
      TryingActs(u);
      FinishPlain(u.kcm.signals);
      StepNotes(r, e, Go(u).started, if u.TryRestoreNext().stage == FinishingStartup then Finish(u.kcm.signals) else []);
    } else {
      NotedSignals(r);
      if r.s.stage == FinishingStartup { FinishingReports(r, e); }
      if e.Registered? || e.RestoreTimer? { IdleEvents(r.s, e); } else { PhaseMoves(r.s, e); }
      MovedActs(r.s, e);
      var tail := Tail(r.s.stage, Handle(r.s, e).stage, r.s.kcm.available);
      TailPlain(r.s.stage, Handle(r.s, e).stage, r.s.kcm.available);
      assert Apps(g, []) + tail == tail;
      StepNotes(r, e, [], tail);
    }
  }

  lemma NotedSignals(r: Run)
    requires StartupRuns.Inv(r)
    ensures r.s.stage == AutoStart1 || r.s.stage == Restoring ==> r.s.kcm.signals == r.s.kcm.available
  {
  }

  lemma MovedActs(s: Starter, e: Event)
    requires Moves(s, Handle(s, e))
    ensures Handle(s, e).acts == s.acts + Tail(s.stage, Handle(s, e).stage, s.kcm.available)
  {
    hide Handle, Tail;
  }

  lemma PartsLaunchNothing(r: Run, e: Event, ns: seq<nat>, tail: seq<Act>)
    requires Handle(r.s, e).acts == r.s.acts + (Apps(Handle(r.s, e).StoredGroup(), ns) + tail)
    requires forall m :: m in tail ==> m.SubSessionOpened?
    ensures Step(r, e).launches == r.launches
  {
    hide Handle, Numbers, Starts, Launches;
    NotesOf(Handle(r.s, e).StoredGroup(), ns, tail);
    assert News(r.s, Handle(r.s, e)) == Apps(Handle(r.s, e).StoredGroup(), ns) + tail;
    assert r.launches + [] == r.launches;
  }

  lemma OthersKeepWm(s: Starter, e: Event)
    requires !e.WmProcessChanged?
    ensures Handle(s, e).session.wm == s.session.wm && Handle(s, e).session.wmCommands == s.session.wmCommands
  {
    hide Restore;
  }

  /** At most two window managers are ever launched, the second of them being KWin. */
  ghost predicate LaunchedFew(r: Run) {
    || |r.launches| == 1
    || (|r.launches| == 2 && r.launches[1] == ["kwin"] && r.s.session.wm == "kwin")
  }

  lemma {:induction false} LaunchedTwiceAtMost(r: Run, es: seq<Event>)
    requires StartupRuns.Inv(r) && AllowedAll(r, es) && LaunchedFew(r)
    ensures LaunchedFew(Execute(r, es))
    decreases |es|
  {
    hide StartupRuns.Inv, Step, Allowed;
    if es != [] {
      StepKeepsInv(r, es[0]);
      OnlyKwinReplaces(r, es[0]);
      LaunchedTwiceAtMost(Step(r, es[0]), es[1..]);
    }
  }

  // ---- one go at restoring ----

  /** Entry n has a command to start it with, wants to be started, and is and was no window manager. */
  ghost predicate MayStart(g: Group, n: nat, wm: string) {
    var e := g.Read(n);
    e.restartCommand != [] && e.restartStyle != 3 && e.program != wm && !e.wasWm
  }

  /** The go has started, in order, all the entries behind k and up to last that may be started and whose clients are not
      there yet. It stops at the first one that has an identity, to wait for it; otherwise it goes through all of them. */
  ghost predicate Goes(g: Group, wm: string, clients: seq<string>, k: nat, count: nat, r: Restored) {
    && Increasing(r.started)
    && (forall n :: n in r.started <==> k < n <= r.last && MayStart(g, n, wm) && g.Read(n).clientId !in clients)
    && (forall n :: n in r.started && g.Read(n).clientId != "" ==> n == r.last && r.waits)
    && (if r.waits then r.last in r.started && r.last <= count && g.Read(r.last).clientId != "" else r.last == if k < count then count else k)
  }

  lemma {:induction false} RestoreGoes(g: Group, wm: string, clients: seq<string>, k: nat, count: nat)
    ensures Goes(g, wm, clients, k, count, Restore(g, wm, clients, k, count))
    decreases count - k
  {
    hide Group.Read;
    if k < count {
      RestoreGoes(g, wm, clients, k + 1, count);
      var rest, n := Restore(g, wm, clients, k + 1, count), k + 1;
      if g.Read(n).clientId in clients || !MayStart(g, n, wm) {
        Passes(g, wm, clients, k, count, rest);
      } else if g.Read(n).clientId == "" {
        StartsToo(g, wm, clients, k, count, rest);
      } else {
        StopsThere(g, wm, clients, k, count);
      }
    }
  }

  lemma Passes(g: Group, wm: string, clients: seq<string>, k: nat, count: nat, r: Restored)
    requires k < count && Goes(g, wm, clients, k + 1, count, r) && (g.Read(k + 1).clientId in clients || !MayStart(g, k + 1, wm))
    ensures Goes(g, wm, clients, k, count, r)
  {
    hide Group.Read, MayStart, Increasing;
  }

  lemma StopsThere(g: Group, wm: string, clients: seq<string>, k: nat, count: nat)
    requires k < count && g.Read(k + 1).clientId !in clients && MayStart(g, k + 1, wm) && g.Read(k + 1).clientId != ""
    ensures Goes(g, wm, clients, k, count, Restored([k + 1], k + 1, true))
  {
    hide Group.Read, MayStart;
  }

  lemma StartsToo(g: Group, wm: string, clients: seq<string>, k: nat, count: nat, r: Restored)
    requires k < count && Goes(g, wm, clients, k + 1, count, r)
    requires g.Read(k + 1).clientId !in clients && MayStart(g, k + 1, wm) && g.Read(k + 1).clientId == ""
    ensures Goes(g, wm, clients, k, count, r.(started := [k + 1] + r.started))
  {
    hide Group.Read, MayStart;
    FrontIncreases(k + 1, r.started);
  }

  lemma FrontIncreases(n: nat, ns: seq<nat>)
    requires Increasing(ns) && forall m :: m in ns ==> n < m
    ensures Increasing([n] + ns)
  {
    assert forall i :: 0 <= i < |ns| ==> ns[i] in ns;
  }

  /** What going on with the restoring has come to: the applications of one go are started, and then the server waits
      for the last of them, or begins the last phase unless the gate is closed, or says that a part of the session is open. */
  ghost predicate WentOn(s: Starter, t: Starter, r: Restored, apps: seq<Act>) {
    var g := s.StoredGroup();
    && Goes(g, s.session.wm, s.session.clients, s.progress.lastAppStarted, s.progress.appsToStart, r)
    && |apps| == |r.started|
    && (forall i :: 0 <= i < |apps| ==> apps[i] == StartApp(r.started[i], g.Read(r.started[i]).restartCommand))
    && t.progress.timer == r.waits
    && (r.waits ==>
          && t.stage == s.stage && t.acts == s.acts + apps
          && t.progress.lastAppStarted == r.last && t.progress.lastIdStarted == g.Read(r.last).clientId)
    && (!r.waits && s.stage == Restoring && s.gate.suspended == map[] ==> t.stage == FinishingStartup && s.acts + apps <= t.acts)
    && (!r.waits && s.stage == Restoring && s.gate.suspended != map[] ==> t.stage == Restoring && t.gate.held && t.acts == s.acts + apps)
    && (!r.waits && s.stage == RestoringSubSession ==> t.stage == Idle && t.acts == s.acts + apps + [SubSessionOpened])
  }

  lemma TryingGoesOn(s: Starter)
    requires s.stage == Restoring || s.stage == RestoringSubSession
    ensures WentOn(s, s.TryRestoreNext(), Go(s), Apps(s.StoredGroup(), Go(s).started))
  {
    hide Group.Read, Goes, Restore;
    RestoreGoes(s.StoredGroup(), s.session.wm, s.session.clients, s.progress.lastAppStarted, s.progress.appsToStart);
    TryingActs(s);
    var apps := Apps(s.StoredGroup(), Go(s).started);
    assert s.acts + (apps + []) == s.acts + apps;
    assert s.acts + (apps + [SubSessionOpened]) == s.acts + apps + [SubSessionOpened];
  }

  /** The restore timer makes the restoring go on, and so does a client that registers under the identity waited for. */
  lemma AwaitedGoesOn(s: Starter, e: Event) returns (u: Starter, r: Restored, apps: seq<Act>)
    requires s.stage == Restoring || s.stage == RestoringSubSession
    requires e == RestoreTimer || (e.Registered? && e.previousId == Some(s.progress.lastIdStarted))
    ensures WentOn(u, Handle(s, e), r, apps) && u.stage == s.stage && u.acts == s.acts && u.gate == s.gate
    ensures u.session == s.session.(clients := if e.Registered? then s.session.clients + [e.id] else s.session.clients)
    ensures u.progress.(timer := true) == s.progress.(timer := true)
  {
    hide Starter.TryRestoreNext, WentOn;
    u := if e.Registered? then s.(session := s.session.(clients := s.session.clients + [e.id])) else s.(progress := s.progress.(timer := false));
    r, apps := Go(u), Apps(u.StoredGroup(), Go(u).started);
    TryingGoesOn(u);
  }

  /** Opening a part of the session starts with the first of its entries. */
  lemma OpeningGoesOn(s: Starter, name: string) returns (u: Starter, r: Restored, apps: seq<Act>)
    ensures WentOn(u, Handle(s, OpenSubSession(name)), r, apps)
    ensures u.stage == RestoringSubSession && u.acts == s.acts && u.progress.lastAppStarted == 0
    ensures u.session == s.session.(group := "SubSession: " + name)
    ensures u.progress.appsToStart == if "SubSession: " + name in s.session.config then s.session.config["SubSession: " + name].count else 0
  {
    hide Starter.TryRestoreNext, WentOn;
    var t := s.(session := s.session.(group := "SubSession: " + name));
    u := t.(stage := RestoringSubSession, progress := Progress(t.StoredGroup().count, 0, "", s.progress.timer));
    r, apps := Go(u), Apps(u.StoredGroup(), Go(u).started);
    TryingGoesOn(u);
  }

  // ---- reports ----

  /** A report that the phase it belongs to has been waiting for is not listened to again, even if the startup is held. */
  lemma ReportsTakenOnce(s: Starter, e: Event)
    requires (e.AutoStart0Reported? && s.stage == AutoStart0) || (e.AutoStart1Reported? && s.stage == AutoStart1)
      || ((e.AutoStart2Reported? || e.KcmPhase2Reported?) && s.stage == FinishingStartup)
    ensures !Allowed(Handle(s, e), e)
  {
    hide Starter.TryRestoreNext;
    TryingListens(s.(wake := s.wake.(auto1 := false)).Pass(Restoring).(progress := s.progress.(lastAppStarted := 0, lastIdStarted := "")));
  }

  lemma TryingListens(s: Starter)
    ensures s.TryRestoreNext().wake.auto1 == s.wake.auto1
  {
    hide Restore;
  }
}
