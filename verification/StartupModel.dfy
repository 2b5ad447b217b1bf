/**
 The session manager's startup as a value: phases that hand over to each other, a gate that applications can
 close for a while, and the stored session's applications started one after the other.
 */
module StartupModel {
  import opened SessionStore

  datatype Stage =
    | Idle | LaunchingWM | AutoStart0 | KcmInitPhase1 | AutoStart1 | Restoring | FinishingStartup | RestoringSubSession

  datatype Act =
    | Splash(msg: string)
    | LaunchWM(command: Command)
    | RunAutoStart(phase: nat)
    | RunKcmInit(phase: nat)
    | StartApp(number: nat, command: Command)
    | LoadSecondPhase
    | RunUserAutostart
    | SubSessionOpened

  /** Which applications suspended the startup, and how often; held is what an observer sees. */
  datatype Gate = Gate(suspended: map<string, int>, timer: bool, held: bool)

  /** The restoring of a session: how many entries there are, and how far it has come. */
  datatype Progress = Progress(appsToStart: nat, lastAppStarted: nat, lastIdStarted: string, timer: bool)

  /** Whom the server still listens to, and which of its single shot timers run. */
  datatype Wakeups = Wakeups(auto0: bool, auto1: bool, auto2: bool, launchTimers: nat, kcm1Timer: bool, kcm2Timer: bool)

  datatype Kcm = Kcm(available: bool, signals: bool, waitAutoStart2: bool, waitKcmInit2: bool)

  datatype Session = Session(wm: string, wmCommands: Command, clients: seq<string>, config: map<string, Group>, group: string)

  // ---- restoring ----

  /** Entries that may be started at all, whoever is connected. */
  predicate Restartable(e: Entry, wm: string) {
    e.restartCommand != [] && e.restartStyle != SM_RESTART_NEVER && e.program != wm && !e.wasWm
  }

  /** What one go at restoring does: which entries it starts, how far it comes, whether it waits for the last. */
  datatype Restored = Restored(started: seq<nat>, last: nat, waits: bool)

  function Restore(g: Group, wm: string, clients: seq<string>, k: nat, count: nat): (r: Restored)
    decreases count - k
  {
    if k >= count then Restored([], k, false)
    else
      var e := g.Read(k + 1);
      if e.clientId in clients || !Restartable(e, wm) then Restore(g, wm, clients, k + 1, count)
      else if e.clientId == "" then
        var r := Restore(g, wm, clients, k + 1, count);
        r.(started := [k + 1] + r.started)
      else Restored([k + 1], k + 1, true)
  }

  function Apps(g: Group, ns: seq<nat>): (r: seq<Act>)
    ensures |r| == |ns| && forall i :: 0 <= i < |ns| ==> r[i] == StartApp(ns[i], g.Read(ns[i]).restartCommand)
  {
    seq(|ns|, i requires 0 <= i < |ns| => StartApp(ns[i], g.Read(ns[i]).restartCommand))
  }

  /** The stored commands of window managers, in order. */
  function WmStartCommands(g: Group, wm: string, n: nat): seq<Command> {
    if n == 0 then [] else
      WmStartCommands(g, wm, n - 1) + (if g.Read(n).program == wm then [g.Read(n).restartCommand] else [])
  }

  datatype Starter = Starter(stage: Stage, gate: Gate, progress: Progress, wake: Wakeups, kcm: Kcm, session: Session, acts: seq<Act>) {

    function Do(more: seq<Act>): Starter { this.(acts := acts + more) }

    function StoredGroup(): Group {
      if session.group in session.config then session.config[session.group] else EMPTY_GROUP
    }

    predicate DefaultSession() { session.group == "" }

    // ---- beginning ----

    function RestoreSession(name: string): Starter {
      if stage != Idle then this
      else
        var s := this.(stage := LaunchingWM, session := session.(group := "Session: " + name));
        var commands := if session.wm != "" then WmStartCommands(s.StoredGroup(), session.wm, s.StoredGroup().count) else [];
        s.(progress := progress.(appsToStart := s.StoredGroup().count)).Listen()
         .Launch(if commands == [] then session.wmCommands else commands[0])
    }

    function StartDefaultSession(): Starter {
      if stage != Idle then this
      else this.(stage := LaunchingWM, session := session.(group := "")).Listen().Launch(session.wmCommands)
    }

    function Listen(): Starter {
      Do([Splash("ksmserver")]).(wake := wake.(auto0 := true, auto1 := true, auto2 := true))
    }

    function Launch(command: Command): Starter {
      Do([LaunchWM(command)]).(wake := wake.(launchTimers := wake.launchTimers + 1))
    }

    /** A window manager that does not come up is replaced by KWin, once. */
    function WmProcessChange(running: bool): Starter {
      if stage != LaunchingWM || running || session.wm == "kwin" then this
      else this.(session := session.(wm := "kwin", wmCommands := ["kwin"])).Launch(["kwin"])
    }

    // ---- the gate ----

    predicate Open() { gate.suspended == map[] }

    function Hold(): Starter { this.(gate := gate.(timer := true, held := true)) }

    function Pass(next: Stage): Starter { this.(stage := next, gate := gate.(held := false)) }

    function SuspendStartup(app: string): Starter {
      this.(gate := gate.(suspended := gate.suspended[app := (if app in gate.suspended then gate.suspended[app] else 0) + 1]))
    }

    function ResumeStartup(app: string): Starter {
      if app !in gate.suspended then this
      else if gate.suspended[app] != 1 then
        this.(gate := gate.(suspended := gate.suspended[app := gate.suspended[app] - 1]))
      else
        var s := this.(gate := gate.(suspended := gate.suspended - {app}));
        if s.Open() && gate.timer then s.(gate := s.gate.(timer := false)).ResumeStartupInternal() else s
    }

    function StartupSuspendTimeout(): Starter { this.(gate := gate.(timer := false)).ResumeStartupInternal() }

    function ResumeStartupInternal(): Starter {
      var s := this.(gate := gate.(suspended := map[]));
      match stage
      case LaunchingWM => s.StartAutoStart0()
      case AutoStart0 => s.AutoStart0Done()
      case AutoStart1 => s.AutoStart1Done()
      case Restoring => s.StartAutoStart2()
      case _ => s
    }

    // ---- the phases ----

    function StartAutoStart0(): Starter {
      if stage != LaunchingWM then this
      else if !Open() then Hold()
      else Pass(AutoStart0).Do([RunAutoStart(0)])
    }

    /** Whether the startup is held or not, klauncher's report is not listened to again. */
    function AutoStart0Done(): Starter {
      if stage != AutoStart0 then this
      else
        var s := this.(wake := wake.(auto0 := false));
        if !Open() then s.Hold()
        else
          s.Pass(KcmInitPhase1).(kcm := kcm.(signals := kcm.available), wake := s.wake.(kcm1Timer := true))
           .Do([Splash("desktop")] + if kcm.available then [RunKcmInit(1)] else [])
    }

    function KcmPhase1Done(): Starter {
      if stage != KcmInitPhase1 then this else this.(stage := AutoStart1).Do([RunAutoStart(1)])
    }

    function AutoStart1Done(): Starter {
      if stage != AutoStart1 then this
      else
        var s := this.(wake := wake.(auto1 := false));
        if !Open() then s.Hold()
        else
          var t := s.Pass(Restoring).(progress := progress.(lastAppStarted := 0, lastIdStarted := ""));
          if DefaultSession() then t.StartAutoStart2() else t.TryRestoreNext()
    }

    function ClientRegistered(previousId: Option<string>): Starter {
      if previousId.Some? && progress.lastIdStarted == previousId.value then TryRestoreNext() else this
    }

    function TryRestoreNext(): Starter {
      if stage != Restoring && stage != RestoringSubSession then this
      else
        var g := StoredGroup();
        var r := Restore(g, session.wm, session.clients, progress.lastAppStarted, progress.appsToStart);
        var s := this.(gate := gate.(timer := false)).Do(Apps(g, r.started));
        if r.waits then s.(progress := progress.(lastAppStarted := r.last, lastIdStarted := g.Read(r.last).clientId, timer := true))
        else
          var t := s.(progress := Progress(0, r.last, "", false));
          if stage == Restoring then t.StartAutoStart2() else t.(stage := Idle).Do([SubSessionOpened])
    }

    function StartAutoStart2(): Starter {
      if stage != Restoring then this
      else if !Open() then Hold()
      else
        Pass(FinishingStartup).(kcm := kcm.(waitAutoStart2 := true, waitKcmInit2 := true), wake := wake.(kcm2Timer := true))
          .Do([RunAutoStart(2), LoadSecondPhase, RunUserAutostart] + if kcm.signals then [RunKcmInit(2)] else [])
    }

    function AutoStart2Done(): Starter {
      if stage != FinishingStartup then this
      else this.(wake := wake.(auto2 := false), kcm := kcm.(waitAutoStart2 := false)).FinishStartup()
    }

    function KcmPhase2Done(): Starter {
      if stage != FinishingStartup then this
      else this.(kcm := kcm.(signals := false, waitKcmInit2 := false)).FinishStartup()
    }

    function KcmPhase2Timeout(): Starter { if kcm.waitKcmInit2 then KcmPhase2Done() else this }

    function FinishStartup(): Starter {
      if stage != FinishingStartup || kcm.waitAutoStart2 || kcm.waitKcmInit2 then this
      else this.(stage := Idle).Do([Splash("ready")])
    }

    /** Opens a part of the session that was closed earlier, whatever the server is doing. */
    function RestoreSubSession(name: string): Starter {
      var s := this.(session := session.(group := "SubSession: " + name));
      s.(stage := RestoringSubSession, progress := Progress(s.StoredGroup().count, 0, "", progress.timer)).TryRestoreNext()
    }
  }

  datatype Option<+T> = None | Some(value: T)
}
