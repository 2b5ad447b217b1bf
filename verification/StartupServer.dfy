/**
 The startup's handlers as they run, changing the server's fields in place. Each is proved to do what
 StartupModel.dfy says it does to the server's value. Fields that belong together are kept as records.
 */
module StartupServer {
  import opened SessionStore
  import opened StartupModel

  /** The server's value before anything has happened. */
  function Created(wm: string, wmCommands: Command, config: map<string, Group>, kcmAvailable: bool, someApps: nat): Starter {
    Starter(Idle, Gate(map[], false, false), Progress(someApps, 0, "", false),
            Wakeups(false, false, false, 0, false, false), Kcm(kcmAvailable, false, false, false),
            Session(wm, wmCommands, [], config, ""), [])
  }

  class KSMStartup {
    var state: Stage
    var gate: Gate           // startupSuspendCount, startupSuspendTimeoutTimer
    var progress: Progress   // appsToStart, lastAppStarted, lastIdStarted, restoreTimer
    var wake: Wakeups        // connected signals, running single shot timers
    var kcm: Kcm             // kcminitSignals, waitAutoStart2, waitKcmInit2
    var session: Session     // wm, wmCommands, clients, configuration, sessionGroup
    var acts: seq<Act>

    ghost function Model(): Starter reads this { Starter(state, gate, progress, wake, kcm, session, acts) }

    /** How many applications there are to start is left open until a session is restored. */
    constructor (wm: string, wmCommands: Command, config: map<string, Group>, kcmAvailable: bool, someApps: nat)
      ensures Model() == Created(wm, wmCommands, config, kcmAvailable, someApps)
    {
      state, gate, progress := Idle, Gate(map[], false, false), Progress(someApps, 0, "", false);
      wake, kcm := Wakeups(false, false, false, 0, false, false), Kcm(kcmAvailable, false, false, false);
      session, acts := Session(wm, wmCommands, [], config, ""), [];
    }

    function ReadGroup(): (g: Group) reads this
      ensures g == Model().StoredGroup()
    {
      if session.group in session.config then session.config[session.group] else EMPTY_GROUP
    }

    // ---- beginning ----

    method ConnectSignals()
      modifies this`acts, this`wake
      ensures Model() == old(Model()).Listen()
    {
      acts := acts + [Splash("ksmserver")];
      wake := wake.(auto0 := true, auto1 := true, auto2 := true);
    }

    method RestoreSession(name: string)
      modifies this
      ensures Model() == old(Model()).RestoreSession(name)
    {
      hide WmStartCommands;
      if state != Idle { return; }
      state := LaunchingWM;
      session := session.(group := "Session: " + name);
      var g := ReadGroup();
      progress := progress.(appsToStart := g.count);
      ConnectSignals();
      var wmStartCommands := [];
      if session.wm != "" { wmStartCommands := FindWmCommands(g); }
      LaunchWM(if wmStartCommands == [] then session.wmCommands else wmStartCommands[0]);
    }

    method FindWmCommands(g: Group) returns (commands: seq<Command>)
      ensures commands == WmStartCommands(g, session.wm, g.count)
    {
      commands := [];
      for i := 0 to g.count
        invariant commands == WmStartCommands(g, session.wm, i)
      {
        if g.Read(i + 1).program == session.wm { commands := commands + [g.Read(i + 1).restartCommand]; }
      }
    }

    method StartDefaultSession()
      modifies this
      ensures Model() == old(Model()).StartDefaultSession()
    {
      if state != Idle { return; }
      state := LaunchingWM;
      session := session.(group := "");
      ConnectSignals();
      LaunchWM(session.wmCommands);
    }

    method LaunchWM(command: Command)
      modifies this`acts, this`wake
      ensures Model() == old(Model()).Launch(command)
    {
      acts := acts + [StartupModel.LaunchWM(command)];
      wake := wake.(launchTimers := wake.launchTimers + 1);
    }

    method WmProcessChange(running: bool)
      modifies this
      ensures Model() == old(Model()).WmProcessChange(running)
    {
      if state != LaunchingWM { return; }
      if !running {
        if session.wm == "kwin" { return; }
        session := session.(wm := "kwin", wmCommands := ["kwin"]);
        LaunchWM(["kwin"]);
      }
    }

    // ---- the gate ----

    method CheckStartupSuspend() returns (open: bool)
      modifies this`gate
      ensures open == old(Model()).Open() && Model() == if open then old(Model()) else old(Model()).Hold()
    {
      if gate.suspended == map[] { return true; }
      gate := gate.(held := true);
      if !gate.timer { gate := gate.(timer := true); }
      return false;
    }

    method SuspendStartup(app: string)
      modifies this`gate
      ensures Model() == old(Model()).SuspendStartup(app)
    {
      var count := gate.suspended;
      if app !in count { count := count[app := 0]; }
      count := count[app := count[app] + 1];
      gate := gate.(suspended := count);
    }

    method ResumeStartup(app: string)
      modifies this
      ensures Model() == old(Model()).ResumeStartup(app)
    {
      hide Starter.ResumeStartupInternal;
      if app !in gate.suspended { return; }
      var count := gate.suspended[app := gate.suspended[app] - 1];
      if count[app] == 0 {
        assert count - {app} == gate.suspended - {app};
        gate := gate.(suspended := count - {app});
        if gate.suspended == map[] && gate.timer {
          gate := gate.(timer := false);
          ResumeStartupInternal();
        }
      } else {
        gate := gate.(suspended := count);
      }
    }

    method StartupSuspendTimeout()
      modifies this
      ensures Model() == old(Model()).StartupSuspendTimeout()
    {
      hide Starter.ResumeStartupInternal;
      gate := gate.(timer := false);  // it is single shot
      ResumeStartupInternal();
    }

    method ResumeStartupInternal()
      modifies this
      ensures Model() == old(Model()).ResumeStartupInternal()
    {
      hide Starter.StartAutoStart0, Starter.AutoStart0Done, Starter.AutoStart1Done, Starter.StartAutoStart2;
      gate := gate.(suspended := map[]);
      match state
      case LaunchingWM => StartAutoStart0();
      case AutoStart0 => AutoStart0Done();
      case AutoStart1 => AutoStart1Done();
      case Restoring => StartAutoStart2();
      case _ =>
    }

    // ---- the phases ----

    method StartAutoStart0()
      modifies this
      ensures Model() == old(Model()).StartAutoStart0()
    {
      if state != LaunchingWM { return; }
      var open := CheckStartupSuspend();
      if !open { return; }
      state, gate := AutoStart0, gate.(held := false);
      acts := acts + [RunAutoStart(0)];
    }

    method AutoStart0Done()
      modifies this
      ensures Model() == old(Model()).AutoStart0Done()
    {
      if state != AutoStart0 { return; }
      wake := wake.(auto0 := false);
      var open := CheckStartupSuspend();
      if !open { return; }
      ghost var before := acts;
      acts := acts + [Splash("desktop")];
      state, gate := KcmInitPhase1, gate.(held := false);
      kcm := kcm.(signals := kcm.available);
      wake := wake.(kcm1Timer := true);
      if kcm.signals { acts := acts + [RunKcmInit(1)]; }
      assert acts == before + ([Splash("desktop")] + if kcm.available then [RunKcmInit(1)] else []);
    }

    method KcmPhase1Done()
      modifies this
      ensures Model() == old(Model()).KcmPhase1Done()
    {
      if state != KcmInitPhase1 { return; }
      StartAutoStart1();
    }

    method StartAutoStart1()
      modifies this
      ensures Model() == old(Model()).KcmPhase1Done()
    {
      if state != KcmInitPhase1 { return; }
      state := AutoStart1;
      acts := acts + [RunAutoStart(1)];
    }

    method AutoStart1Done()
      modifies this
      ensures Model() == old(Model()).AutoStart1Done()
    {
      hide Starter.StartAutoStart2, Starter.TryRestoreNext;
      if state != AutoStart1 { return; }
      wake := wake.(auto1 := false);
      var open := CheckStartupSuspend();
      if !open { return; }
      progress := progress.(lastAppStarted := 0, lastIdStarted := "");
      state, gate := Restoring, gate.(held := false);
      if session.group == "" {
        StartAutoStart2();
      } else {
        TryRestoreNext();
      }
    }

    /** A client has registered, perhaps under an earlier id. */
    method ClientRegistered(previousId: Option<string>)
      modifies this
      ensures Model() == old(Model()).ClientRegistered(previousId)
    {
      hide Starter.TryRestoreNext;
      if previousId.Some? && progress.lastIdStarted == previousId.value { TryRestoreNext(); }
    }

    method AlreadyStarted(clientId: string) returns (started: bool)
      ensures started == (clientId in session.clients)
    {
      for i := 0 to |session.clients|
        invariant clientId !in session.clients[..i]
      {
        if session.clients[i] == clientId { return true; }
      }
      return false;
    }

    method MayStart(e: Entry) returns (starts: bool)
      ensures starts == (e.clientId !in session.clients && Restartable(e, session.wm))
    {
      var alreadyStarted := AlreadyStarted(e.clientId);
      if alreadyStarted { return false; }
      if e.restartCommand == [] || e.restartStyle == SM_RESTART_NEVER { return false; }
      if session.wm == e.program { return false; }  // it is running already
      if e.wasWm { return false; }                  // it is no longer the window manager
      return true;
    }

    method TryRestoreNext()
      modifies this
      ensures Model() == old(Model()).TryRestoreNext()
    {
      hide Starter.StartAutoStart2, Restore, Apps;
      if state != Restoring && state != RestoringSubSession { return; }
      progress := progress.(timer := false);
      gate := gate.(timer := false);
      var g := ReadGroup();
      var waits := StartNext(g);
      if waits { return; }
      progress := progress.(appsToStart := 0, lastIdStarted := "");
      if state == Restoring {
        StartAutoStart2();
      } else {
        state := Idle;
        acts := acts + [SubSessionOpened];
      }
    }

    /** Starts the next entry, if it may be started; it is waited for if it has an id. */
    method StartOne(g: Group) returns (starts: bool, waits: bool)
      modifies this`progress, this`acts
      ensures var n := old(progress).lastAppStarted + 1;
        && starts == (g.Read(n).clientId !in session.clients && Restartable(g.Read(n), session.wm))
        && waits == (starts && g.Read(n).clientId != "")
        && acts == old(acts) + (if starts then [StartApp(n, g.Read(n).restartCommand)] else [])
        && progress == Progress(old(progress).appsToStart, n, if starts then g.Read(n).clientId else old(progress).lastIdStarted,
                                waits || old(progress).timer)
    {
      hide Group.Read, Restartable;
      progress := progress.(lastAppStarted := progress.lastAppStarted + 1);
      var n := progress.lastAppStarted;
      var e := g.Read(n);
      starts := MayStart(e);
      waits := false;
      if starts {
        acts := acts + [StartApp(n, e.restartCommand)];
        progress := progress.(lastIdStarted := e.clientId);
        if progress.lastIdStarted != "" {
          progress := progress.(timer := true);
          waits := true;
        }
      }
    }

    /** Starts entries until one of them is to be waited for or none is left. */
    method StartNext(g: Group) returns (waits: bool)
      modifies this`progress, this`acts
      ensures var r := Restore(g, session.wm, session.clients, old(progress).lastAppStarted, old(progress).appsToStart);
        && waits == r.waits && progress.lastAppStarted == r.last && acts == old(acts) + Apps(g, r.started)
        && progress.appsToStart == old(progress).appsToStart
        && (waits ==> progress.lastIdStarted == g.Read(r.last).clientId && progress.timer)
        && (!waits ==> progress.timer == old(progress).timer)
    {
      hide Group.Read, Apps, Restartable, Restore;
      NoneStarted(g, acts);
      ghost var r := Restore(g, session.wm, session.clients, progress.lastAppStarted, progress.appsToStart);
      ghost var started: seq<nat> := [];
      waits := false;
      while !waits && progress.lastAppStarted < progress.appsToStart
        invariant !waits ==>
          r == StartedThen(started, Restore(g, session.wm, session.clients, progress.lastAppStarted, progress.appsToStart))
        invariant waits ==> r == Restored(started, progress.lastAppStarted, true)
        invariant waits ==> progress.lastIdStarted == g.Read(progress.lastAppStarted).clientId
        invariant progress.appsToStart == old(progress).appsToStart && progress.timer == (waits || old(progress).timer)
        invariant acts == old(acts) + Apps(g, started)
        decreases !waits, progress.appsToStart - progress.lastAppStarted
      {
        RestoreGoesOn(g, session.wm, session.clients, progress.lastAppStarted, progress.appsToStart, started);
        AppsGrow(g, started, progress.lastAppStarted + 1);
        var starts: bool;
        starts, waits := StartOne(g);
        if starts { started := started + [progress.lastAppStarted]; }
      }
      if !waits { RestoreIsOver(g, session.wm, session.clients, progress.lastAppStarted, progress.appsToStart, started); }
    }

    method StartAutoStart2()
      modifies this
      ensures Model() == old(Model()).StartAutoStart2()
    {
      if state != Restoring { return; }
      var open := CheckStartupSuspend();
      if !open { return; }
      ghost var before := acts;
      state, gate := FinishingStartup, gate.(held := false);
      kcm := kcm.(waitAutoStart2 := true, waitKcmInit2 := true);
      acts := acts + [RunAutoStart(2)];
      acts := acts + [LoadSecondPhase];
      acts := acts + [RunUserAutostart];
      wake := wake.(kcm2Timer := true);
      if kcm.signals { acts := acts + [RunKcmInit(2)]; }
      assert acts == before + ([RunAutoStart(2), LoadSecondPhase, RunUserAutostart] + if kcm.signals then [RunKcmInit(2)] else []);
    }

    method AutoStart2Done()
      modifies this
      ensures Model() == old(Model()).AutoStart2Done()
    {
      if state != FinishingStartup { return; }
      wake := wake.(auto2 := false);
      kcm := kcm.(waitAutoStart2 := false);
      FinishStartup();
    }

    method KcmPhase2Done()
      modifies this
      ensures Model() == old(Model()).KcmPhase2Done()
    {
      if state != FinishingStartup { return; }
      kcm := kcm.(signals := false, waitKcmInit2 := false);
      FinishStartup();
    }

    method KcmPhase2Timeout()
      modifies this
      ensures Model() == old(Model()).KcmPhase2Timeout()
    {
      if !kcm.waitKcmInit2 { return; }
      KcmPhase2Done();
    }

    method FinishStartup()
      modifies this`state, this`acts
      ensures Model() == old(Model()).FinishStartup()
    {
      if state != FinishingStartup { return; }
      if kcm.waitAutoStart2 || kcm.waitKcmInit2 { return; }
      acts := acts + [Splash("ready")];
      state := Idle;
    }

    method RestoreSubSession(name: string)
      modifies this
      ensures Model() == old(Model()).RestoreSubSession(name)
    {
      hide Starter.TryRestoreNext;
      session := session.(group := "SubSession: " + name);
      var g := ReadGroup();
      progress := progress.(appsToStart := g.count, lastAppStarted := 0, lastIdStarted := "");
      state := RestoringSubSession;
      TryRestoreNext();
    }
  }

  lemma AppsGrow(g: Group, ns: seq<nat>, n: nat)
    ensures Apps(g, ns + [n]) == Apps(g, ns) + [StartApp(n, g.Read(n).restartCommand)]
  {
  }

  lemma NoneStarted(g: Group, acts: seq<Act>)
    ensures acts + Apps(g, []) == acts
  {
  }

  ghost function StartedThen(started: seq<nat>, rest: Restored): Restored { rest.(started := started + rest.started) }

  lemma RestoreGoesOn(g: Group, wm: string, clients: seq<string>, k: nat, count: nat, started: seq<nat>)
    requires k < count
    ensures var e := g.Read(k + 1);
      StartedThen(started, Restore(g, wm, clients, k, count)) ==
        if e.clientId in clients || !Restartable(e, wm) then StartedThen(started, Restore(g, wm, clients, k + 1, count))
        else if e.clientId == "" then StartedThen(started + [k + 1], Restore(g, wm, clients, k + 1, count))
        else Restored(started + [k + 1], k + 1, true)
  {
    var more := Restore(g, wm, clients, k + 1, count).started;
    assert started + ([k + 1] + more) == started + [k + 1] + more;
  }

  lemma RestoreIsOver(g: Group, wm: string, clients: seq<string>, k: nat, count: nat, started: seq<nat>)
    requires k >= count
    ensures StartedThen(started, Restore(g, wm, clients, k, count)) == Restored(started, k, false)
  {
    assert started + [] == started;
  }
}
