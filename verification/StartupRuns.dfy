/**
 What every run of the startup keeps: the actions come in their order, each once; a closed gate never loses
 the startup; and a stored session is restored entry by entry.
 */
module StartupRuns {
  import opened Picking
  import opened SessionStore
  import opened StartupModel

  datatype Event =
    | WmProcessChanged(running: bool)
    | LaunchTimer
    | WmSetProgram
    | AutoStart0Reported
    | KcmPhase1Reported
    | Kcm1Timer
    | AutoStart1Reported
    | Registered(previousId: Option<string>, id: string)
    | Left(id: string)
    | RestoreTimer
    | AutoStart2Reported
    | KcmPhase2Reported
    | Kcm2Timer
    | Suspend(app: string)
    | Resume(app: string)
    | SuspendTimer
    | OpenSubSession(name: string)

  function Without(ids: seq<string>, id: string): seq<string> {
    if ids == [] then [] else if ids[0] == id then ids[1..] else [ids[0]] + Without(ids[1..], id)
  }

  /** A timer that fires is no longer running. */
  function Handle(s: Starter, e: Event): Starter {
    match e
    case WmProcessChanged(running) => s.WmProcessChange(running)
    case LaunchTimer =>
      s.(wake := s.wake.(launchTimers := if s.wake.launchTimers > 0 then s.wake.launchTimers - 1 else 0)).StartAutoStart0()
    case WmSetProgram => s.StartAutoStart0()
    case AutoStart0Reported => s.AutoStart0Done()
    case KcmPhase1Reported => s.KcmPhase1Done()
    case Kcm1Timer => s.(wake := s.wake.(kcm1Timer := false)).KcmPhase1Done()
    case AutoStart1Reported => s.AutoStart1Done()
    case Registered(previousId, id) => s.(session := s.session.(clients := s.session.clients + [id])).ClientRegistered(previousId)
    case Left(id) => s.(session := s.session.(clients := Without(s.session.clients, id)))
    case RestoreTimer => s.(progress := s.progress.(timer := false)).TryRestoreNext()
    case AutoStart2Reported => s.AutoStart2Done()
    case KcmPhase2Reported => s.KcmPhase2Done()
    case Kcm2Timer => s.(wake := s.wake.(kcm2Timer := false)).KcmPhase2Timeout()
    case Suspend(app) => s.SuspendStartup(app)
    case Resume(app) => s.ResumeStartup(app)
    case SuspendTimer => s.StartupSuspendTimeout()
    case OpenSubSession(name) => s.RestoreSubSession(name)
  }

  /** Reports come only while they are listened to, timers fire only when they run, and part of a session is
      opened only when the startup is over. */
  predicate Allowed(s: Starter, e: Event) {
    match e
    case LaunchTimer => s.wake.launchTimers > 0
    case AutoStart0Reported => s.wake.auto0
    case AutoStart1Reported => s.wake.auto1
    case AutoStart2Reported => s.wake.auto2
    case KcmPhase1Reported => s.kcm.signals
    case KcmPhase2Reported => s.kcm.signals
    case Kcm1Timer => s.wake.kcm1Timer
    case Kcm2Timer => s.wake.kcm2Timer
    case RestoreTimer => s.progress.timer
    case SuspendTimer => s.gate.timer
    case OpenSubSession(_) => s.stage == Idle
    case _ => true
  }

  predicate Starting(stage: Stage) {
    stage != Idle && stage != RestoringSubSession
  }

  predicate Gated(stage: Stage) {
    stage == LaunchingWM || stage == AutoStart0 || stage == AutoStart1 || stage == Restoring
  }

  // ---- nothing is ever lost ----

  /** Whenever the startup is held the suspend timer runs and somebody has to resume; otherwise the timer is off. */
  ghost predicate GateKept(s: Starter) {
    && (s.gate.held <==> s.gate.timer)
    && (s.gate.held ==> s.gate.suspended != map[] && Gated(s.stage))
    && (s.gate.held && s.stage == Restoring && !s.DefaultSession() ==> s.progress.lastAppStarted >= s.progress.appsToStart)
  }

  /** Something is always armed that moves the startup on. */
  ghost predicate Awake(s: Starter) {
    && (s.stage == LaunchingWM ==> s.gate.held || s.wake.launchTimers > 0)
    && (s.stage == AutoStart0 ==> s.gate.held || s.wake.auto0)
    && (s.stage == KcmInitPhase1 ==> s.wake.kcm1Timer)
    && (s.stage == AutoStart1 ==> s.gate.held || s.wake.auto1)
    && (s.stage == Restoring ==> s.gate.held || s.progress.timer)
    && (s.stage == RestoringSubSession ==> s.progress.timer && !s.DefaultSession())
    && (s.stage == FinishingStartup ==>
          && (s.kcm.waitAutoStart2 || s.kcm.waitKcmInit2)
          && (s.kcm.waitAutoStart2 ==> s.wake.auto2) && (s.kcm.waitKcmInit2 ==> s.wake.kcm2Timer))
    && (s.stage == LaunchingWM || s.stage == AutoStart0 || s.stage == KcmInitPhase1 ==> s.wake.auto1)
    && (s.stage == LaunchingWM ==> s.wake.auto0)
    && (Starting(s.stage) && s.stage != FinishingStartup ==> s.wake.auto2)
    && (s.stage == Restoring && s.DefaultSession() ==> s.gate.held)
    && "" !in s.session.config
  }

  lemma {:induction false} RestoreStops(g: Group, wm: string, clients: seq<string>, k: nat, count: nat)
    ensures var r := Restore(g, wm, clients, k, count);
      && (r.waits ==> k < r.last <= count && g.Read(r.last).clientId != "")
      && (!r.waits ==> r.last == if k < count then count else k)
    decreases count - k
  {
    if k < count { RestoreStops(g, wm, clients, k + 1, count); }
  }

  /** A group that is not stored has nothing to start. */
  lemma {:induction false} NothingStored(wm: string, clients: seq<string>, k: nat, count: nat)
    ensures Restore(EMPTY_GROUP, wm, clients, k, count) == Restored([], if k < count then count else k, false)
    decreases count - k
  {
    if k < count { NothingStored(wm, clients, k + 1, count); }
  }

  ghost predicate Kept(s: Starter) { GateKept(s) && Awake(s) }

  lemma TryingKeeps(s: Starter)
    requires (s.stage == Restoring || s.stage == RestoringSubSession) && "" !in s.session.config
    requires s.stage == Restoring ==> s.wake.auto2
    requires s.gate.held ==> s.gate.suspended != map[] && s.stage == Restoring
    requires s.gate.held && !s.DefaultSession() ==> s.progress.lastAppStarted >= s.progress.appsToStart
    requires s.stage == RestoringSubSession ==> !s.DefaultSession()
    ensures Kept(s.TryRestoreNext())
  {
    RestoreStops(s.StoredGroup(), s.session.wm, s.session.clients, s.progress.lastAppStarted, s.progress.appsToStart);
    if s.DefaultSession() {
      NothingStored(s.session.wm, s.session.clients, s.progress.lastAppStarted, s.progress.appsToStart);
    }
  }

  lemma RestoringKeeps(s: Starter)
    requires Awake(s) && s.stage == AutoStart1 && (if s.Open() then !s.gate.timer else s.gate.held == s.gate.timer)
    ensures Kept(s.AutoStart1Done())
  {
    hide Starter.TryRestoreNext;
    var t := s.(wake := s.wake.(auto1 := false)).Pass(Restoring)
              .(progress := s.progress.(lastAppStarted := 0, lastIdStarted := ""));
    if s.Open() && !s.DefaultSession() { TryingKeeps(t); }
  }

  /** Resuming a held startup starts exactly the phase that was held, with the gate open. */
  lemma ResumingRestarts(s: Starter)
    requires Awake(s) && s.gate.held && !s.gate.timer && Gated(s.stage)
    ensures var t := s.ResumeStartupInternal();
      && Kept(t) && t.Open() && !t.gate.held
      && match s.stage
         case LaunchingWM => t.stage == AutoStart0
         case AutoStart0 => t.stage == KcmInitPhase1
         case AutoStart1 => t.stage == Restoring || t.stage == FinishingStartup
         case _ => t.stage == FinishingStartup
  {
    hide Starter.TryRestoreNext;
    var u := s.(gate := s.gate.(suspended := map[]));
    if s.stage == AutoStart1 {
      RestoringKeeps(u);
      RestoringPasses(u);
    }
  }

  lemma RestoringPasses(u: Starter)
    requires Awake(u) && u.stage == AutoStart1 && u.Open()
    ensures var t := u.AutoStart1Done();
      t.Open() && !t.gate.held && (t.stage == Restoring || t.stage == FinishingStartup)
  {
  }

  lemma StepKeeps(s: Starter, e: Event)
    requires Kept(s) && Allowed(s, e)
    ensures Kept(Handle(s, e))
  {
    hide Starter.TryRestoreNext, Starter.AutoStart1Done, Starter.ResumeStartupInternal;
    match e
    case AutoStart1Reported => if s.stage == AutoStart1 { RestoringKeeps(s); } else { NotInAutoStart1(s); }
    case SuspendTimer => ResumingRestarts(s.(gate := s.gate.(timer := false)));
    case Resume(app) => StepResume(s, app);
    case RestoreTimer => TryingAgainKeeps(s.(progress := s.progress.(timer := false)));
    case Registered(previousId, id) => TryingAgainKeeps(s.(session := s.session.(clients := s.session.clients + [id])));
    case OpenSubSession(name) =>
      var t := s.(session := s.session.(group := "SubSession: " + name));
      TryingKeeps(t.(stage := RestoringSubSession, progress := Progress(t.StoredGroup().count, 0, "", s.progress.timer)));
    case _ =>
  }

  lemma NotInAutoStart1(s: Starter)
    requires s.stage != AutoStart1
    ensures s.AutoStart1Done() == s
  {
  }

  lemma TryingAgainKeeps(s: Starter)
    requires GateKept(s) && (Awake(s) || ((s.stage == Restoring || s.stage == RestoringSubSession) && Awake(s.(progress := s.progress.(timer := true)))))
    ensures s.stage == Restoring || s.stage == RestoringSubSession ==> Kept(s.TryRestoreNext())
    ensures s.stage != Restoring && s.stage != RestoringSubSession ==> s.TryRestoreNext() == s && Kept(s)
  {
    if s.stage == Restoring || s.stage == RestoringSubSession { TryingKeeps(s); }
  }

  lemma StepResume(s: Starter, app: string)
    requires Kept(s)
    ensures Kept(s.ResumeStartup(app))
  {
    hide Starter.ResumeStartupInternal;
    if app in s.gate.suspended && s.gate.suspended[app] == 1 && s.gate.suspended - {app} == map[] && s.gate.timer {
      ResumingRestarts(s.(gate := Gate(map[], false, true)));
    }
  }

  /** Whoever ends a suspension last, or the timer, restarts exactly the phase that was held. */
  lemma NoWakeupLost(s: Starter, e: Event)
    requires Kept(s) && s.gate.held
    requires e == SuspendTimer || (e.Resume? && s.gate.suspended == map[e.app := 1])
    ensures Allowed(s, e)
    ensures var t := Handle(s, e);
      && t.Open() && !t.gate.held
      && match s.stage
         case LaunchingWM => t.stage == AutoStart0
         case AutoStart0 => t.stage == KcmInitPhase1
         case AutoStart1 => t.stage == Restoring || t.stage == FinishingStartup
         case _ => t.stage == FinishingStartup
  {
    hide Starter.ResumeStartupInternal;
    if e == SuspendTimer {
      ResumingRestarts(s.(gate := s.gate.(timer := false)));
    } else {
      assert s.gate.suspended - {e.app} == map[];
      ResumingRestarts(s.(gate := Gate(map[], false, true)));
      var t := s.(gate := Gate(map[], false, true));
      assert s.ResumeStartup(e.app) == t.ResumeStartupInternal();
    }
  }

  /** A phase behind the gate begins only while nobody suspends the startup. */
  lemma GateRespected(s: Starter, e: Event)
    requires Kept(s) && Allowed(s, e) && Gated(s.stage) && Handle(s, e).stage != s.stage
    ensures Handle(s, e).Open()
  {
    hide Starter.TryRestoreNext;
    TryingRespects(s.(progress := s.progress.(timer := false)));
    if e.Registered? { TryingRespects(s.(session := s.session.(clients := s.session.clients + [e.id]))); }
    if s.stage == AutoStart1 {
      var u := s.(wake := s.wake.(auto1 := false)).Pass(Restoring)
                .(progress := s.progress.(lastAppStarted := 0, lastIdStarted := ""));
      TryingOpen(u);
      TryingOpen(u.(gate := Gate(map[], false, false)));
    }
  }

  lemma TryingRespects(s: Starter)
    ensures s.stage == Restoring && s.TryRestoreNext().stage != Restoring ==> s.TryRestoreNext().Open()
    ensures s.stage != Restoring && s.stage != RestoringSubSession ==> s.TryRestoreNext() == s
  {
  }

  lemma TryingOpen(s: Starter)
    ensures s.TryRestoreNext().gate.suspended == s.gate.suspended
  {
  }

  // ---- the order of things ----

  /** The startup with what an observer notes of it: the window managers launched, the entries started, the
      actions that started them, whether every client that connected had an id that no wanted entry was still to be
      started under, and which of the second phases reported. */
  datatype Run = Run(s: Starter, launches: seq<Command>, started: seq<nat>, apps: seq<Act>, orderly: bool,
                     autoStart2: bool, kcmInit2: bool)

  function Numbers(acts: seq<Act>): seq<nat> {
    if acts == [] then [] else
      Numbers(acts[..|acts| - 1]) + (if acts[|acts| - 1].StartApp? then [acts[|acts| - 1].number] else [])
  }

  function Starts(acts: seq<Act>): seq<Act> {
    if acts == [] then [] else
      Starts(acts[..|acts| - 1]) + (if acts[|acts| - 1].StartApp? then [acts[|acts| - 1]] else [])
  }

  function Launches(acts: seq<Act>): seq<Command> {
    if acts == [] then [] else
      Launches(acts[..|acts| - 1]) + (if acts[|acts| - 1].LaunchWM? then [acts[|acts| - 1].command] else [])
  }

  predicate Wanted(e: Entry) { e.restartCommand != [] && e.restartStyle != SM_RESTART_NEVER && !e.wasWm }

  /** Every wanted entry with this id has been started. */
  ghost predicate NothingElseWants(g: Group, id: string, started: seq<nat>) {
    forall n :: 1 <= n <= g.count && g.Read(n).clientId == id && Wanted(g.Read(n)) ==> n in started
  }

  ghost function News(s: Starter, t: Starter): seq<Act> {
    if |s.acts| <= |t.acts| then t.acts[|s.acts|..] else []
  }

  ghost function Step(r: Run, e: Event): Run {
    var s := Handle(r.s, e);
    var news := News(r.s, s);
    Run(s,
        r.launches + Launches(news),
        if Starting(r.s.stage) then r.started + Numbers(news) else r.started,
        if Starting(r.s.stage) then r.apps + Starts(news) else r.apps,
        r.orderly && (e.Registered? && Starting(r.s.stage) ==> NothingElseWants(r.s.StoredGroup(), e.id, r.started)),
        r.autoStart2 || (e.AutoStart2Reported? && r.s.stage == FinishingStartup),
        r.kcmInit2 || ((e.KcmPhase2Reported? || e.Kcm2Timer?) && r.s.stage == FinishingStartup))
  }

  function Launched(commands: seq<Command>): (r: seq<Act>)
    ensures |r| == |commands| && forall i :: 0 <= i < |commands| ==> r[i] == LaunchWM(commands[i])
  {
    seq(|commands|, i requires 0 <= i < |commands| => LaunchWM(commands[i]))
  }

  function Kcm1(kcm: bool): seq<Act> { [Splash("desktop")] + if kcm then [RunKcmInit(1)] else [] }

  function Finish(kcm: bool): seq<Act> {
    [RunAutoStart(2), LoadSecondPhase, RunUserAutostart] + if kcm then [RunKcmInit(2)] else []
  }

  function Opening(launches: seq<Command>): seq<Act> { [Splash("ksmserver")] + Launched(launches) }

  function Early(kcm: bool, launches: seq<Command>): seq<Act> {
    Opening(launches) + [RunAutoStart(0)] + Kcm1(kcm) + [RunAutoStart(1)]
  }

  /** The actions of a startup up to some phase; Idle is reached when it is over. */
  function Script(stage: Stage, kcm: bool, launches: seq<Command>, apps: seq<Act>): seq<Act> {
    match stage
    case LaunchingWM => Opening(launches)
    case AutoStart0 => Opening(launches) + [RunAutoStart(0)]
    case KcmInitPhase1 => Opening(launches) + [RunAutoStart(0)] + Kcm1(kcm)
    case AutoStart1 => Early(kcm, launches)
    case Restoring => Early(kcm, launches) + apps
    case FinishingStartup => Early(kcm, launches) + apps + Finish(kcm)
    case _ => Early(kcm, launches) + apps + Finish(kcm) + [Splash("ready")]
  }

  ghost predicate InOrder(r: Run) {
    var script := Script(r.s.stage, r.s.kcm.available, r.launches, r.apps);
    if Starting(r.s.stage) then r.s.acts == script
    else script <= r.s.acts && forall i :: |script| <= i < |r.s.acts| ==> r.s.acts[i].StartApp? || r.s.acts[i].SubSessionOpened?
  }

  ghost predicate Noted(r: Run) {
    var stage := r.s.stage;
    && (stage == LaunchingWM || stage == AutoStart0 || stage == KcmInitPhase1 || stage == AutoStart1 ==>
          r.started == [] && r.apps == [])
    && (stage == Restoring || stage == FinishingStartup ==> r.apps == Apps(r.s.StoredGroup(), r.started))
    && (stage == KcmInitPhase1 || stage == AutoStart1 || stage == Restoring ==> r.s.kcm.signals == r.s.kcm.available)
    && (stage == FinishingStartup ==>
          (!r.s.kcm.waitAutoStart2 ==> r.autoStart2) && (!r.s.kcm.waitKcmInit2 ==> r.kcmInit2))
  }

  lemma {:induction false} NotesOfApps(g: Group, ns: seq<nat>)
    ensures Numbers(Apps(g, ns)) == ns && Starts(Apps(g, ns)) == Apps(g, ns) && Launches(Apps(g, ns)) == []
  {
    if ns != [] {
      var k := |ns| - 1;
      assert Apps(g, ns)[..k] == Apps(g, ns[..k]);
      NotesOfApps(g, ns[..k]);
      assert ns[..k] + [ns[k]] == ns && Apps(g, ns[..k]) + [Apps(g, ns)[k]] == Apps(g, ns);
    }
  }

  lemma {:induction false} NotesOfOthers(acts: seq<Act>, tail: seq<Act>)
    requires forall m :: m in tail ==> !m.StartApp? && !m.LaunchWM?
    ensures Numbers(acts + tail) == Numbers(acts) && Starts(acts + tail) == Starts(acts)
    ensures Launches(acts + tail) == Launches(acts)
  {
    if tail == [] {
      assert acts + tail == acts;
    } else {
      var k := |tail| - 1;
      assert (acts + tail)[..|acts| + k] == acts + tail[..k];
      NotesOfOthers(acts, tail[..k]);
    }
  }

  /** What the observer notes of applications being started, followed by other actions. */
  lemma NotesOf(g: Group, ns: seq<nat>, tail: seq<Act>)
    requires forall m :: m in tail ==> !m.StartApp? && !m.LaunchWM?
    ensures Numbers(Apps(g, ns) + tail) == ns && Starts(Apps(g, ns) + tail) == Apps(g, ns)
    ensures Launches(Apps(g, ns) + tail) == []
  {
    hide Numbers, Starts, Launches, Apps;
    NotesOfApps(g, ns);
    NotesOfOthers(Apps(g, ns), tail);
  }

  /** The step sent on the applications ns and then the other actions of tail. */
  lemma StepNotes(r: Run, e: Event, ns: seq<nat>, tail: seq<Act>)
    requires Handle(r.s, e).acts == r.s.acts + (Apps(r.s.StoredGroup(), ns) + tail)
    requires forall m :: m in tail ==> !m.StartApp? && !m.LaunchWM?
    ensures var q := Step(r, e);
      && q.launches == r.launches
      && q.started == (if Starting(r.s.stage) then r.started + ns else r.started)
      && q.apps == (if Starting(r.s.stage) then r.apps + Apps(r.s.StoredGroup(), ns) else r.apps)
  {
    hide Handle;
    assert News(r.s, Handle(r.s, e)) == Apps(r.s.StoredGroup(), ns) + tail;
    NotesOf(r.s.StoredGroup(), ns, tail);
    assert r.launches + [] == r.launches;
  }

  /** What one go at restoring starts. */
  ghost function Go(s: Starter): Restored {
    Restore(s.StoredGroup(), s.session.wm, s.session.clients, s.progress.lastAppStarted, s.progress.appsToStart)
  }

  lemma TryingActs(s: Starter)
    requires s.stage == Restoring || s.stage == RestoringSubSession
    ensures var t := s.TryRestoreNext();
      && t.kcm.available == s.kcm.available && t.StoredGroup() == s.StoredGroup()
      && t.stage == (if Go(s).waits || (s.stage == Restoring && !s.Open()) then s.stage
                     else if s.stage == Restoring then FinishingStartup else Idle)
      && t.acts == s.acts + (Apps(s.StoredGroup(), Go(s).started)
                             + (if t.stage == FinishingStartup then Finish(s.kcm.signals)
                                else if t.stage == Idle then [SubSessionOpened] else []))
      && (t.stage == FinishingStartup ==> t.kcm.waitAutoStart2 && t.kcm.waitKcmInit2)
      && (t.stage != FinishingStartup ==> t.kcm == s.kcm)
  {
    var apps := Apps(s.StoredGroup(), Go(s).started);
    assert apps + [] == apps;
    assert s.acts + apps + Finish(s.kcm.signals) == s.acts + (apps + Finish(s.kcm.signals));
    assert s.acts + apps + [SubSessionOpened] == s.acts + (apps + [SubSessionOpened]);
  }

  lemma AppsJoin(g: Group, a: seq<nat>, b: seq<nat>)
    ensures Apps(g, a) + Apps(g, b) == Apps(g, a + b)
  {
  }

  lemma Glue(x: seq<Act>, apps: seq<Act>, more: seq<Act>, tail: seq<Act>)
    ensures x + apps + (more + tail) == x + (apps + more) + tail
    ensures x + [] == x && apps + [] == apps
  {
  }

  /** Restoring goes on, and may hand over to the last phase. */
  lemma RestoringOrdered(r: Run, e: Event, s: Starter)
    requires InOrder(r) && Noted(r) && s.stage == Restoring && Handle(r.s, e) == s.TryRestoreNext()
    requires r.s.stage == Restoring || r.s.stage == AutoStart1
    requires s.acts == r.s.acts && s.kcm == r.s.kcm && s.StoredGroup() == r.s.StoredGroup()
    ensures InOrder(Step(r, e)) && Noted(Step(r, e))
  {
    hide Handle, Starter.TryRestoreNext, Restore, Numbers, Starts, Launches, Apps, Early, Finish, InOrder, Noted, Step;
    TryingActs(s);
    var g, t, more := s.StoredGroup(), s.TryRestoreNext(), Apps(s.StoredGroup(), Go(s).started);
    var tail := if t.stage == FinishingStartup then Finish(s.kcm.signals) else [];
    FinishPlain(s.kcm.signals);
    StepNotes(r, e, Go(s).started, tail);
    StepServer(r, e);
    AppsJoin(g, r.started, Go(s).started);
    Glue(Early(s.kcm.available, r.launches), r.apps, more, tail);
    BeforeRestoring(r);
    assert t.acts == Script(t.stage, t.kcm.available, r.launches, r.apps + more);
    assert Apps(g, []) == [] by { NoApps(g); }
    RestoredNoted(Step(r, e), g);
  }

  lemma NoApps(g: Group)
    ensures Apps(g, []) == []
  {
  }

  lemma FinishPlain(kcm: bool)
    ensures forall m :: m in Finish(kcm) ==> !m.StartApp? && !m.LaunchWM?
  {
  }

  lemma StepServer(r: Run, e: Event)
    ensures Step(r, e).s == Handle(r.s, e)
  {
    hide Handle;
  }

  lemma BeforeRestoring(r: Run)
    requires InOrder(r) && Noted(r) && (r.s.stage == Restoring || r.s.stage == AutoStart1)
    ensures r.s.acts == Early(r.s.kcm.available, r.launches) + r.apps && r.s.kcm.signals == r.s.kcm.available
    ensures r.s.stage == AutoStart1 ==> r.started == [] && r.apps == []
    ensures r.apps == Apps(r.s.StoredGroup(), r.started)
  {
    assert Early(r.s.kcm.available, r.launches) + [] == Early(r.s.kcm.available, r.launches);
    NoApps(r.s.StoredGroup());
  }

  lemma RestoredNoted(q: Run, g: Group)
    requires q.s.stage == Restoring || q.s.stage == FinishingStartup
    requires q.s.acts == Script(q.s.stage, q.s.kcm.available, q.launches, q.apps)
    requires g == q.s.StoredGroup() && q.apps == Apps(g, q.started)
    requires q.s.stage == Restoring ==> q.s.kcm.signals == q.s.kcm.available
    requires q.s.stage == FinishingStartup ==> q.s.kcm.waitAutoStart2 && q.s.kcm.waitKcmInit2
    ensures InOrder(q) && Noted(q)
  {
  }

  /** A step that starts no application and launches no window manager. */
  lemma PlainOrdered(r: Run, e: Event, tail: seq<Act>)
    requires InOrder(r) && Noted(r) && Handle(r.s, e).acts == r.s.acts + tail && Starting(r.s.stage)
    requires forall m :: m in tail ==> !m.StartApp? && !m.LaunchWM?
    requires Handle(r.s, e).kcm.available == r.s.kcm.available
    requires Script(Handle(r.s, e).stage, r.s.kcm.available, r.launches, r.apps)
          == Script(r.s.stage, r.s.kcm.available, r.launches, r.apps) + tail
    ensures InOrder(Step(r, e)) && Step(r, e).started == r.started && Step(r, e).apps == r.apps
  {
    hide Handle, Script, Numbers, Starts, Launches;
    var none := Apps(r.s.StoredGroup(), []);
    assert none + tail == tail;
    StepNotes(r, e, [], tail);
    assert r.started + [] == r.started && r.apps + [] == r.apps;
  }

  predicate Follows(from: Stage, to: Stage) {
    || to == from
    || (from == LaunchingWM && to == AutoStart0)
    || (from == AutoStart0 && to == KcmInitPhase1)
    || (from == KcmInitPhase1 && to == AutoStart1)
    || (from == AutoStart1 && (to == Restoring || to == FinishingStartup))
    || (from == Restoring && to == FinishingStartup)
    || (from == FinishingStartup && to == Idle)
  }

  function Tail(from: Stage, to: Stage, kcm: bool): seq<Act> {
    if from == to then [] else
      match to
      case AutoStart0 => [RunAutoStart(0)]
      case KcmInitPhase1 => Kcm1(kcm)
      case AutoStart1 => [RunAutoStart(1)]
      case FinishingStartup => Finish(kcm)
      case Idle => [Splash("ready")]
      case _ => []
  }

  /** Where a step that neither restores nor launches may lead, and what it does on the way. */
  ghost predicate Moves(s: Starter, t: Starter) {
    && Follows(s.stage, t.stage) && t.acts == s.acts + Tail(s.stage, t.stage, s.kcm.available)
    && t.kcm.available == s.kcm.available && t.StoredGroup() == s.StoredGroup()
    && (s.stage == AutoStart0 && t.stage == KcmInitPhase1 ==> t.kcm.signals == t.kcm.available)
    && (s.stage != AutoStart0 && t.stage != FinishingStartup && t.stage != Idle ==> t.kcm.signals == s.kcm.signals)
    && (s.stage != FinishingStartup && t.stage == FinishingStartup ==> t.kcm.waitAutoStart2 && t.kcm.waitKcmInit2)
  }

  lemma TailPlain(from: Stage, to: Stage, kcm: bool)
    ensures forall m :: m in Tail(from, to, kcm) ==> !m.StartApp? && !m.LaunchWM?
  {
  }

  lemma ScriptGoesOn(from: Stage, to: Stage, kcm: bool, launches: seq<Command>, apps: seq<Act>)
    requires Starting(from) && Follows(from, to) && (from != Restoring && from != FinishingStartup ==> apps == [])
    ensures Script(to, kcm, launches, apps) == Script(from, kcm, launches, apps) + Tail(from, to, kcm)
  {
  }

  lemma NoActs(s: Starter)
    ensures s.acts + [] == s.acts
  {
  }

  /** The handlers that neither restore nor launch. */
  lemma PhaseMoves(s: Starter, e: Event)
    requires Starting(s.stage) && Kept(s) && Allowed(s, e)
    requires s.stage == Restoring ==> s.kcm.signals == s.kcm.available
    requires s.stage == AutoStart1 ==> (s.kcm.signals == s.kcm.available && (s.DefaultSession() || Handle(s, e).stage == AutoStart1))
    requires !e.WmProcessChanged? && !e.OpenSubSession? && !e.RestoreTimer? && !e.Registered?
    ensures Moves(s, Handle(s, e))
  {
    hide Starter.TryRestoreNext, Starter.ResumeStartupInternal;
    NoActs(s);
    match e
    case Resume(app) =>
      if app in s.gate.suspended && s.gate.suspended[app] == 1 && s.gate.suspended - {app} == map[] && s.gate.timer {
        ResumingMoves(s, s.(gate := Gate(map[], false, s.gate.held)));
      }
    case SuspendTimer => ResumingMoves(s, s.(gate := s.gate.(timer := false)));
    case LaunchTimer =>
    case WmSetProgram =>
    case AutoStart0Reported =>
    case KcmPhase1Reported =>
    case Kcm1Timer =>
    case AutoStart1Reported => if s.stage == AutoStart1 && s.Open() { ReportPasses(s); }
    case Left(_) =>
    case AutoStart2Reported =>
    case KcmPhase2Reported =>
    case Kcm2Timer =>
    case Suspend(_) =>
  }

  lemma ResumingMoves(s: Starter, u: Starter)
    requires Kept(s) && s.gate.held && u.stage == s.stage && u.kcm == s.kcm && u.session == s.session && u.acts == s.acts
    requires s.stage == Restoring ==> s.kcm.signals == s.kcm.available
    requires s.stage == AutoStart1 ==>
      s.kcm.signals == s.kcm.available && (s.DefaultSession() || u.ResumeStartupInternal().stage == AutoStart1)
    ensures Moves(s, u.ResumeStartupInternal())
  {
    hide Starter.TryRestoreNext;
    NoActs(s);
    if s.stage == AutoStart1 && !s.DefaultSession() { ResumedPasses(u); }
  }

  lemma ReportPasses(s: Starter)
    requires s.stage == AutoStart1 && s.Open()
    ensures s.AutoStart1Done().stage != AutoStart1
  {
  }

  /** Resuming never leaves the startup in the phase before the restoring. */
  lemma ResumedPasses(u: Starter)
    requires u.stage == AutoStart1
    ensures u.ResumeStartupInternal().stage != AutoStart1
  {
  }

  lemma MovingOrdered(r: Run, e: Event)
    requires InOrder(r) && Noted(r) && Starting(r.s.stage) && Moves(r.s, Handle(r.s, e))
    requires r.s.stage == FinishingStartup && Handle(r.s, e).stage == FinishingStartup ==>
      && (!Handle(r.s, e).kcm.waitAutoStart2 ==> Step(r, e).autoStart2)
      && (!Handle(r.s, e).kcm.waitKcmInit2 ==> Step(r, e).kcmInit2)
    ensures InOrder(Step(r, e)) && Noted(Step(r, e))
  {
    hide Handle, Script, Tail, Finish, Kcm1, InOrder, Step;
    NoApps(r.s.StoredGroup());
    ScriptGoesOn(r.s.stage, Handle(r.s, e).stage, r.s.kcm.available, r.launches, r.apps);
    TailPlain(r.s.stage, Handle(r.s, e).stage, r.s.kcm.available);
    PlainOrdered(r, e, Tail(r.s.stage, Handle(r.s, e).stage, r.s.kcm.available));
    StepServer(r, e);
  }

  /** A report that the last phase waits for is noted, and the startup is over when both have come. */
  lemma FinishingReports(r: Run, e: Event)
    requires Noted(r) && r.s.stage == FinishingStartup && Allowed(r.s, e)
    ensures !Handle(r.s, e).kcm.waitAutoStart2 ==> Step(r, e).autoStart2
    ensures !Handle(r.s, e).kcm.waitKcmInit2 ==> Step(r, e).kcmInit2
  {
    hide Numbers, Starts, Launches, NothingElseWants;
  }

  lemma RelaunchOrdered(r: Run, running: bool)
    requires InOrder(r) && Noted(r) && Starting(r.s.stage)
    ensures InOrder(Step(r, WmProcessChanged(running))) && Noted(Step(r, WmProcessChanged(running)))
  {
    var t := Handle(r.s, WmProcessChanged(running));
    if t.acts == r.s.acts {
      assert News(r.s, t) == [];
      assert Step(r, WmProcessChanged(running)) == r.(s := t) by {
        assert r.launches + [] == r.launches && r.started + [] == r.started && r.apps + [] == r.apps;
      }
    } else {
      var news := [LaunchWM(["kwin"])];
      assert News(r.s, t) == news;
      assert news[..0] == [] && Launches(news) == [["kwin"]] && Numbers(news) == [] && Starts(news) == [];
      assert r.started + [] == r.started && r.apps + [] == r.apps;
      assert Launched(r.launches + [["kwin"]]) == Launched(r.launches) + news;
      assert [Splash("ksmserver")] + Launched(r.launches) + news == [Splash("ksmserver")] + (Launched(r.launches) + news);
    }
  }

  /** Whether the step is a go at restoring the session's applications. */
  predicate Tries(s: Starter, e: Event) {
    || (s.stage == Restoring && (e.RestoreTimer? || (e.Registered? && e.previousId == Some(s.progress.lastIdStarted))))
    || (s.stage == AutoStart1 && !s.DefaultSession() && Handle(s, e).stage != AutoStart1)
  }

  /** The server as it is when that go begins. */
  ghost function Before(s: Starter, e: Event): Starter {
    match e
    case RestoreTimer => s.(progress := s.progress.(timer := false))
    case Registered(_, id) => s.(session := s.session.(clients := s.session.clients + [id]))
    case _ =>
      s.(wake := s.wake.(auto1 := false), stage := Restoring, gate := Gate(map[], false, false),
         progress := s.progress.(lastAppStarted := 0, lastIdStarted := ""))
  }

  /** With the gate open, the report of the first autostart phase begins the restoring. */
  lemma OpenBegins(s: Starter, u: Starter, e: Event)
    requires u == s.(gate := Gate(map[], false, u.gate.held)) && s.stage == AutoStart1 && !s.DefaultSession()
    requires !e.RestoreTimer? && !e.Registered?
    ensures u.AutoStart1Done() == Before(s, e).TryRestoreNext()
    ensures u.ResumeStartupInternal() == u.AutoStart1Done()
  {
    hide Starter.TryRestoreNext;
  }

  lemma TriesIs(s: Starter, e: Event)
    requires Kept(s) && Allowed(s, e) && Tries(s, e)
    ensures Handle(s, e) == Before(s, e).TryRestoreNext()
    ensures var u := Before(s, e);
      u.stage == Restoring && u.acts == s.acts && u.kcm == s.kcm && u.StoredGroup() == s.StoredGroup()
  {
    hide Starter.TryRestoreNext, Starter.ResumeStartupInternal, Starter.AutoStart1Done;
    if s.stage == AutoStart1 {
      if e.AutoStart1Reported? {
        if !s.Open() { StaysHeld(s); }
        OpenBegins(s, s, e);
      } else if e.SuspendTimer? {
        OpenBegins(s, s.(gate := Gate(map[], false, s.gate.held)), e);
        ResumingForgets(s.(gate := s.gate.(timer := false)));
      } else if e.Resume? {
        OpenBegins(s, s.(gate := Gate(map[], false, s.gate.held)), e);
        ResumeBegins(s, e.app);
      } else if e.Registered? {
        NotRestoring(s.(session := s.session.(clients := s.session.clients + [e.id])));
      } else if e.RestoreTimer? {
        NotRestoring(s.(progress := s.progress.(timer := false)));
      }
    }
  }

  lemma ResumeBegins(s: Starter, app: string)
    ensures s.ResumeStartup(app).stage != s.stage ==>
      s.ResumeStartup(app) == s.(gate := Gate(map[], false, s.gate.held)).ResumeStartupInternal()
  {
    hide Starter.ResumeStartupInternal;
    if app in s.gate.suspended && s.gate.suspended[app] == 1 && s.gate.timer && s.gate.suspended - {app} == map[] {
      assert s.gate.(suspended := s.gate.suspended - {app}).(timer := false) == Gate(map[], false, s.gate.held);
    }
  }

  lemma StaysHeld(s: Starter)
    requires s.stage == AutoStart1 && !s.Open()
    ensures s.AutoStart1Done().stage == AutoStart1
  {
  }

  lemma ResumingForgets(s: Starter)
    ensures s.ResumeStartupInternal() == s.(gate := s.gate.(suspended := map[])).ResumeStartupInternal()
  {
    hide Starter.TryRestoreNext;
  }

  /** A client registers, or a stale timer fires, while nothing is waited for. */
  lemma IdleEvents(s: Starter, e: Event)
    requires Starting(s.stage) && (e.Registered? || e.RestoreTimer?) && !Tries(s, e)
    ensures Moves(s, Handle(s, e))
  {
    NoActs(s);
  }

  lemma AfterStartup(r: Run, e: Event)
    requires Kept(r.s) && Allowed(r.s, e) && InOrder(r) && !Starting(r.s.stage)
    ensures InOrder(Step(r, e)) && Noted(Step(r, e))
  {
    hide Handle, Numbers, Starts, Launches;
    var ns, tail := OpensParts(r.s, e);
    var s, q := Handle(r.s, e), Step(r, e);
    NotesOf(s.StoredGroup(), ns, tail);
    assert News(r.s, s) == Apps(s.StoredGroup(), ns) + tail;
    assert q.launches == r.launches && q.apps == r.apps by { assert r.launches + [] == r.launches; }
    var script := Script(Idle, r.s.kcm.available, r.launches, r.apps);
    assert script <= r.s.acts + News(r.s, s);
    forall i | |script| <= i < |s.acts| ensures s.acts[i].StartApp? || s.acts[i].SubSessionOpened? {
      if i >= |r.s.acts| { assert s.acts[i] == News(r.s, s)[i - |r.s.acts|]; }
    }
  }

  /** After the startup only parts of a session are opened. */
  lemma OpensParts(s: Starter, e: Event) returns (ns: seq<nat>, tail: seq<Act>)
    requires Kept(s) && Allowed(s, e) && !Starting(s.stage)
    ensures !Starting(Handle(s, e).stage) && Handle(s, e).kcm.available == s.kcm.available
    ensures Handle(s, e).acts == s.acts + (Apps(Handle(s, e).StoredGroup(), ns) + tail)
    ensures forall m :: m in tail ==> m.SubSessionOpened?
  {
    hide Starter.TryRestoreNext;
    ns, tail := [], [];
    NoApps(Handle(s, e).StoredGroup());
    NoActs(s);
    match e {
      case RestoreTimer => ns, tail := PartOpens(s, s.(progress := s.progress.(timer := false)));
      case Registered(previousId, id) =>
        if previousId == Some(s.progress.lastIdStarted) {
          ns, tail := PartOpens(s, s.(session := s.session.(clients := s.session.clients + [id])));
        }
      case OpenSubSession(name) =>
        var t := s.(session := s.session.(group := "SubSession: " + name));
        ns, tail := PartOpens(s, t.(stage := RestoringSubSession,
                                    progress := Progress(t.StoredGroup().count, 0, "", s.progress.timer)));
      case Resume(app) => if app in s.gate.suspended { }
      case _ =>
    }
  }

  lemma PartOpens(s: Starter, u: Starter) returns (ns: seq<nat>, tail: seq<Act>)
    requires u.acts == s.acts && !Starting(u.stage)
    ensures var t := u.TryRestoreNext();
      && !Starting(t.stage) && t.kcm.available == u.kcm.available
      && t.acts == s.acts + (Apps(t.StoredGroup(), ns) + tail)
    ensures forall m :: m in tail ==> m.SubSessionOpened?
  {
    hide Starter.TryRestoreNext;
    ns, tail := [], [];
    if u.stage == RestoringSubSession {
      TryingActs(u);
      ns, tail := Go(u).started, if u.TryRestoreNext().stage == Idle then [SubSessionOpened] else [];
    } else {
      NotRestoring(u);
      NoApps(u.StoredGroup());
      NoActs(s);
    }
  }

  lemma NotRestoring(u: Starter)
    requires u.stage != Restoring && u.stage != RestoringSubSession
    ensures u.TryRestoreNext() == u
  {
  }

  lemma StepOrdered(r: Run, e: Event)
    requires Kept(r.s) && Allowed(r.s, e) && InOrder(r) && Noted(r)
    ensures InOrder(Step(r, e)) && Noted(Step(r, e))
  {
    hide Handle, InOrder, Step, Kept, Moves, Before;
    if !Starting(r.s.stage) {
      AfterStartup(r, e);
    } else if e.WmProcessChanged? {
      RelaunchOrdered(r, e.running);
    } else if Tries(r.s, e) {
      TriesIs(r.s, e);
      RestoringOrdered(r, e, Before(r.s, e));
    } else {
      if r.s.stage == FinishingStartup { FinishingReports(r, e); }
      if e.Registered? || e.RestoreTimer? { IdleEvents(r.s, e); } else { PhaseMoves(r.s, e); }
      MovingOrdered(r, e);
    }
  }

  // ---- which applications are restored ----

  /** The entries started so far are restartable ones in the stored order, each once; and if clients connect orderly,
      no restartable entry has been passed over. */
  ghost predicate RestoredRight(r: Run) {
    var g, k := r.s.StoredGroup(), if r.s.stage == Restoring then r.s.progress.lastAppStarted else r.s.StoredGroup().count;
    (r.s.stage == Restoring || r.s.stage == FinishingStartup) && !r.s.DefaultSession() ==>
      && Increasing(r.started) && k <= g.count
      && (forall n :: n in r.started ==> 1 <= n <= k && Restartable(g.Read(n), r.s.session.wm))
      && (r.orderly ==> forall n :: 1 <= n <= k && Restartable(g.Read(n), r.s.session.wm) ==> n in r.started)
      && (r.s.stage == Restoring ==> r.s.progress.appsToStart == g.count || (r.s.progress.appsToStart == 0 && k == g.count))
  }

  /** A connected client's id is not one that a wanted entry is still to be started under. */
  ghost predicate Orderly(r: Run) {
    && (Starting(r.s.stage) && r.orderly && !r.s.DefaultSession() ==> forall id :: id in r.s.session.clients ==> NothingElseWants(r.s.StoredGroup(), id, r.started))
    && (r.s.stage == LaunchingWM || r.s.stage == AutoStart0 || r.s.stage == KcmInitPhase1 || r.s.stage == AutoStart1 ==>
          !r.s.DefaultSession() ==> r.s.progress.appsToStart == r.s.StoredGroup().count)
  }

  lemma {:induction false} RestoreInOrder(g: Group, wm: string, clients: seq<string>, k: nat, count: nat)
    ensures var r := Restore(g, wm, clients, k, count);
      && Increasing(r.started) && (k <= count ==> k <= r.last <= count)
      && (forall n :: n in r.started ==> k < n <= r.last && Restartable(g.Read(n), wm) && g.Read(n).clientId !in clients)
      && (forall n :: k < n <= r.last && Restartable(g.Read(n), wm) && g.Read(n).clientId !in clients ==> n in r.started)
    decreases count - k
  {
    if k < count {
      RestoreInOrder(g, wm, clients, k + 1, count);
      var ns := Restore(g, wm, clients, k + 1, count).started;
      assert forall i :: 0 <= i < |ns| ==> ns[i] in ns;
      assert Increasing([k + 1] + ns);
    }
  }

  /** One more go starts what is left, if nobody that connected took an id that was still wanted. */
  lemma GoingOnRestores(g: Group, wm: string, clients: seq<string>, k: nat, started: seq<nat>)
    requires k <= g.count && Increasing(started) && forall n :: n in started ==> 1 <= n <= k && Restartable(g.Read(n), wm)
    ensures var r := Restore(g, wm, clients, k, g.count);
      && Increasing(started + r.started) && k <= r.last <= g.count
      && (forall n :: n in started + r.started ==> 1 <= n <= r.last && Restartable(g.Read(n), wm))
      && ((forall n :: 1 <= n <= k && Restartable(g.Read(n), wm) ==> n in started)
          && (forall id :: id in clients ==> NothingElseWants(g, id, started)) ==>
            forall n :: 1 <= n <= r.last && Restartable(g.Read(n), wm) ==> n in started + r.started)
  {
    RestoreInOrder(g, wm, clients, k, g.count);
    var r := Restore(g, wm, clients, k, g.count);
    forall i, j | 0 <= i < j < |started + r.started| ensures (started + r.started)[i] < (started + r.started)[j] {
      if i < |started| { assert started[i] in started; }
      if j >= |started| { assert r.started[j - |started|] in r.started; }
    }
  }

  lemma TryingProgress(s: Starter)
    requires s.stage == Restoring && !s.DefaultSession()
    ensures var t := s.TryRestoreNext();
      && t.session == s.session && !t.DefaultSession()
      && (t.stage == Restoring ==> t.progress.lastAppStarted == Go(s).last)
      && (t.stage == Restoring ==> t.progress.appsToStart == (if Go(s).waits then s.progress.appsToStart else 0))
      && (!Go(s).waits ==> Go(s).last >= s.progress.appsToStart)
  {
    RestoreStops(s.StoredGroup(), s.session.wm, s.session.clients, s.progress.lastAppStarted, s.progress.appsToStart);
  }

  lemma TryingRestores(r: Run, e: Event, u: Starter)
    requires Noted(r) && RestoredRight(r) && Orderly(r) && Starting(r.s.stage) && !r.s.DefaultSession()
    requires u.stage == Restoring && Handle(r.s, e) == u.TryRestoreNext() && u.acts == r.s.acts
    requires u.session == r.s.session.(clients := if e.Registered? then r.s.session.clients + [e.id] else r.s.session.clients)
    requires r.s.stage == Restoring || r.s.stage == AutoStart1
    requires u.progress.appsToStart == r.s.progress.appsToStart
    requires u.progress.lastAppStarted == (if r.s.stage == Restoring then r.s.progress.lastAppStarted else 0)
    ensures RestoredRight(Step(r, e)) && Orderly(Step(r, e))
  {
    hide Handle, Starter.TryRestoreNext, Restore, Numbers, Starts, Launches, Noted, Increasing, Step, Orderly, NothingElseWants;
    TryingActs(u);
    TryingProgress(u);
    var g, t := u.StoredGroup(), u.TryRestoreNext();
    var tail := if t.stage == FinishingStartup then Finish(u.kcm.signals) else [];
    FinishPlain(u.kcm.signals);
    StepNotes(r, e, Go(u).started, tail);
    StepServer(r, e);
    NothingYet(r);
    var k := u.progress.lastAppStarted;
    var q := Step(r, e);
    NotedOrderly(r, e, u);
    if u.progress.appsToStart <= k {
      NothingLeft(g, u.session.wm, u.session.clients, k, u.progress.appsToStart);
      assert r.started + [] == r.started;
    } else {
      GoingOnRestores(g, u.session.wm, u.session.clients, k, r.started);
    }
  }

  /** Whoever is connected when the go begins wants nothing that is still to be started, and so it stays. */
  lemma NotedOrderly(r: Run, e: Event, u: Starter)
    requires Orderly(r) && Starting(r.s.stage) && !r.s.DefaultSession() && Handle(r.s, e) == u.TryRestoreNext()
    requires u.stage == Restoring && u.session == r.s.session.(clients := if e.Registered? then r.s.session.clients + [e.id] else r.s.session.clients)
    requires r.started <= Step(r, e).started
    ensures Orderly(Step(r, e)) && (Step(r, e).orderly ==> r.orderly)
    ensures r.s.stage == AutoStart1 ==> r.s.progress.appsToStart == r.s.StoredGroup().count
    ensures Step(r, e).orderly ==> forall id :: id in u.session.clients ==> NothingElseWants(u.StoredGroup(), id, r.started)
  {
    hide Handle, Starter.TryRestoreNext, Numbers, Starts, Launches;
    TryingActs(u);
    TryingSession(u);
    assert forall n :: n in r.started ==> n in Step(r, e).started;
  }

  lemma NothingLeft(g: Group, wm: string, clients: seq<string>, k: nat, count: nat)
    requires count <= k
    ensures Restore(g, wm, clients, k, count) == Restored([], k, false)
  {
  }

  lemma NothingYet(r: Run)
    requires Noted(r) && RestoredRight(r)
    ensures r.s.stage == AutoStart1 ==> r.started == [] && Increasing([])
  {
  }

  lemma {:induction false} WithoutFewer(ids: seq<string>, id: string)
    ensures forall x :: x in Without(ids, id) ==> x in ids
  {
    if ids != [] { WithoutFewer(ids[1..], id); }
  }

  /** What steps that do not restore keep of the session and of the restoring. */
  ghost predicate SessionKept(s: Starter, e: Event, t: Starter) {
    && t.session.config == s.session.config && t.session.group == s.session.group
    && (forall id :: id in t.session.clients ==> id in s.session.clients || (e.Registered? && id == e.id))
    && (s.stage == t.stage ==> t.progress.lastAppStarted == s.progress.lastAppStarted && t.progress.appsToStart == s.progress.appsToStart)
    && (s.stage != AutoStart1 ==> t.progress.appsToStart == s.progress.appsToStart)
    && (s.stage != LaunchingWM ==> t.session.wm == s.session.wm)
    && (s.stage == Restoring && t.stage != Restoring && !s.DefaultSession() ==> s.progress.lastAppStarted >= s.progress.appsToStart)
  }

  lemma PhaseSession(s: Starter, e: Event)
    requires Starting(s.stage) && Kept(s) && Allowed(s, e) && !Tries(s, e)
    ensures SessionKept(s, e, Handle(s, e))
  {
    if e.Left? || e.Registered? || e.RestoreTimer? {
      hide Starter.TryRestoreNext;
      if e.Left? {
        WithoutFewer(s.session.clients, e.id);
      } else if s.stage != Restoring {
        RestoringEvents(s, e);
      }
    } else {
      hide SessionKept;
      OtherSession(s, e);
    }
  }

  lemma OtherSession(s: Starter, e: Event)
    requires Starting(s.stage) && Kept(s) && Allowed(s, e) && !Tries(s, e) && !e.Left? && !e.Registered? && !e.RestoreTimer?
    ensures SessionKept(s, e, Handle(s, e))
  {
    hide Starter.TryRestoreNext;
    if s.stage == AutoStart1 && !s.DefaultSession() {
      PassingTries(s, e);
      if e.Resume? && e.app in s.gate.suspended {
        ResumedPasses(s.(gate := s.gate.(suspended := s.gate.suspended - {e.app}, timer := false)));
      }
    }
  }

  lemma RestoringEvents(s: Starter, e: Event)
    requires Starting(s.stage) && s.stage != Restoring && (e.Registered? || e.RestoreTimer?)
    ensures e.RestoreTimer? ==> Handle(s, e) == s.(progress := s.progress.(timer := false))
    ensures e.Registered? ==> Handle(s, e) == s.(session := s.session.(clients := s.session.clients + [e.id]))
  {
    hide Starter.TryRestoreNext;
    NotRestoring(s.(progress := s.progress.(timer := false)));
    if e.Registered? { NotRestoring(s.(session := s.session.(clients := s.session.clients + [e.id]))); }
  }

  /** Whatever makes a stored session leave the last autostart phase also tries to restore. */
  lemma PassingTries(s: Starter, e: Event)
    requires Allowed(s, e) && s.stage == AutoStart1 && !s.DefaultSession() && !Tries(s, e)
    ensures e.AutoStart1Reported? ==> !s.Open()
    ensures !e.SuspendTimer?
  {
    hide Starter.TryRestoreNext;
    if e.AutoStart1Reported? && s.Open() { ReportPasses(s); }
    if e.SuspendTimer? { ResumedPasses(s.(gate := s.gate.(timer := false))); }
  }

  lemma PhaseRestores(r: Run, e: Event)
    requires Kept(r.s) && Allowed(r.s, e) && Noted(r) && RestoredRight(r) && Orderly(r) && Starting(r.s.stage) && !Tries(r.s, e)
    requires Follows(r.s.stage, Handle(r.s, e).stage) && Step(r, e).started == r.started
    ensures RestoredRight(Step(r, e)) && Orderly(Step(r, e))
  {
    hide Handle, Increasing, Numbers, Starts, Launches, Kept, Noted;
    PhaseSession(r.s, e);
    NothingYet(r);
  }

  lemma StepRestores(r: Run, e: Event)
    requires Kept(r.s) && Allowed(r.s, e) && InOrder(r) && Noted(r) && RestoredRight(r) && Orderly(r)
    ensures RestoredRight(Step(r, e)) && Orderly(Step(r, e))
  {
    hide Handle, InOrder, Step, Kept, Moves, Before, Noted, RestoredRight, Orderly, Starter.TryRestoreNext;
    StepServer(r, e);
    if !Starting(r.s.stage) {
      StepOver(r, e);
    } else if Tries(r.s, e) {
      TriesIs(r.s, e);
      TriesSession(r.s, e);
      if r.s.DefaultSession() {
        TryingSession(Before(r.s, e));
        DefaultRestores(Step(r, e));
      } else {
        TryingRestores(r, e, Before(r.s, e));
      }
    } else if e.WmProcessChanged? {
      RelaunchStarts(r, e.running);
      PhaseRestores(r, e);
    } else {
      NotedSignals(r);
      if e.Registered? || e.RestoreTimer? { IdleEvents(r.s, e); } else { PhaseMoves(r.s, e); }
      MovingStarts(r, e);
      PhaseRestores(r, e);
    }
  }

  lemma TryingSession(u: Starter)
    ensures u.TryRestoreNext().session == u.session
  {
  }

  lemma DefaultRestores(q: Run)
    requires q.s.DefaultSession()
    ensures RestoredRight(q) && Orderly(q)
  {
  }

  lemma NotedSignals(r: Run)
    requires Noted(r)
    ensures r.s.stage == AutoStart1 || r.s.stage == Restoring ==> r.s.kcm.signals == r.s.kcm.available
  {
  }

  lemma StepOver(r: Run, e: Event)
    requires Kept(r.s) && Allowed(r.s, e) && !Starting(r.s.stage)
    ensures RestoredRight(Step(r, e)) && Orderly(Step(r, e))
  {
    hide Handle, Numbers, Starts, Launches;
    var _, _ := OpensParts(r.s, e);
  }

  lemma TriesSession(s: Starter, e: Event)
    requires Kept(s) && Allowed(s, e) && Tries(s, e)
    ensures var u := Before(s, e);
      && (s.stage == Restoring || s.stage == AutoStart1)
      && u.session == s.session.(clients := if e.Registered? then s.session.clients + [e.id] else s.session.clients)
      && u.progress.appsToStart == s.progress.appsToStart
      && u.progress.lastAppStarted == (if s.stage == Restoring then s.progress.lastAppStarted else 0)
  {
    hide Starter.TryRestoreNext;
    if s.stage == AutoStart1 {
      if e.Registered? {
        NotRestoring(s.(session := s.session.(clients := s.session.clients + [e.id])));
      } else if e.RestoreTimer? {
        NotRestoring(s.(progress := s.progress.(timer := false)));
      }
    }
  }

  lemma RelaunchStarts(r: Run, running: bool)
    requires Starting(r.s.stage)
    ensures Step(r, WmProcessChanged(running)).started == r.started
    ensures Handle(r.s, WmProcessChanged(running)).stage == r.s.stage
  {
    var t := Handle(r.s, WmProcessChanged(running));
    if t.acts == r.s.acts {
      assert News(r.s, t) == [];
    } else {
      assert News(r.s, t) == [LaunchWM(["kwin"])];
      assert [LaunchWM(["kwin"])][..0] == [];
    }
    assert r.started + [] == r.started;
  }

  lemma MovingStarts(r: Run, e: Event)
    requires Starting(r.s.stage) && Moves(r.s, Handle(r.s, e))
    ensures Step(r, e).started == r.started && Step(r, e).apps == r.apps && Follows(r.s.stage, Handle(r.s, e).stage)
  {
    hide Handle, Tail, Numbers, Starts, Launches;
    var tail := Tail(r.s.stage, Handle(r.s, e).stage, r.s.kcm.available);
    TailPlain(r.s.stage, Handle(r.s, e).stage, r.s.kcm.available);
    NoApps(r.s.StoredGroup());
    assert Apps(r.s.StoredGroup(), []) + tail == tail;
    StepNotes(r, e, [], tail);
    assert r.started + [] == r.started && r.apps + [] == r.apps;
  }

  // ---- whole runs ----

  ghost predicate Inv(r: Run) {
    Kept(r.s) && InOrder(r) && Noted(r) && RestoredRight(r) && Orderly(r)
  }

  lemma StepKeepsInv(r: Run, e: Event)
    requires Inv(r) && Allowed(r.s, e)
    ensures Inv(Step(r, e))
  {
    hide Handle, Step, Kept, InOrder, Noted, RestoredRight, Orderly;
    StepServer(r, e);
    StepKeeps(r.s, e);
    StepOrdered(r, e);
    StepRestores(r, e);
  }

  ghost predicate AllowedAll(r: Run, es: seq<Event>)
    decreases |es|
  {
    es == [] || (Allowed(r.s, es[0]) && AllowedAll(Step(r, es[0]), es[1..]))
  }

  ghost function Execute(r: Run, es: seq<Event>): Run
    decreases |es|
  {
    if es == [] then r else Execute(Step(r, es[0]), es[1..])
  }

  lemma {:induction false} RunKeepsInv(r: Run, es: seq<Event>)
    requires Inv(r) && AllowedAll(r, es)
    ensures Inv(Execute(r, es))
    decreases |es|
  {
    hide Inv, Step, Allowed;
    if es != [] {
      StepKeepsInv(r, es[0]);
      RunKeepsInv(Step(r, es[0]), es[1..]);
    }
  }

  /** The server before its startup: nobody is connected yet, no timer runs and nothing has been done. How many
      applications there are to start is not known yet. */
  predicate Fresh(s: Starter) {
    && s.stage == Idle && s.acts == [] && s.gate == Gate(map[], false, false) && s.session.clients == []
    && !s.progress.timer && "" !in s.session.config
  }

  /** A startup begins with a stored session, or with the default one. */
  ghost function Begun(s: Starter, name: Option<string>): Run {
    var t := if name.Some? then s.RestoreSession(name.value) else s.StartDefaultSession();
    Run(t, Launches(t.acts), [], [], true, false, false)
  }

  /** The first thing a startup does is to show the splash screen and launch the window manager. */
  lemma BegunActs(s: Starter, name: Option<string>)
    requires Fresh(s)
    ensures var t := Begun(s, name).s; |t.acts| == 2 && t.acts == Opening([t.acts[1].command]) && t.stage == LaunchingWM
    ensures Begun(s, name).launches == [Begun(s, name).s.acts[1].command]
  {
    hide WmStartCommands;
    var t := Begun(s, name).s;
    var command := t.acts[1].command;
    assert t.acts == [Splash("ksmserver"), LaunchWM(command)];
    assert t.acts[..1] == [Splash("ksmserver")] && t.acts[..1][..0] == [];
    assert Launches(t.acts[..1]) == [] && Launches(t.acts) == [command];
  }

  lemma BegunKept(s: Starter, name: Option<string>)
    requires Fresh(s)
    ensures Kept(Begun(s, name).s)
  {
    hide WmStartCommands, Launches;
    if name.Some? { assert "Session: " + name.value != ""; }
  }

  lemma BegunBooks(s: Starter, name: Option<string>)
    requires Fresh(s)
    ensures Noted(Begun(s, name)) && RestoredRight(Begun(s, name)) && Orderly(Begun(s, name))
  {
    hide WmStartCommands, Launches;
  }

  lemma BeginsInv(s: Starter, name: Option<string>)
    requires Fresh(s)
    ensures Inv(Begun(s, name))
  {
    hide Begun, Kept, Noted, RestoredRight, Orderly, Fresh;
    BegunActs(s, name);
    BegunKept(s, name);
    BegunBooks(s, name);
  }

  lemma EveryStartup(s: Starter, name: Option<string>, es: seq<Event>)
    requires Fresh(s) && AllowedAll(Begun(s, name), es)
    ensures Inv(Execute(Begun(s, name), es))
  {
    hide Inv, Fresh, Begun, AllowedAll, Execute;
    BeginsInv(s, name);
    RunKeepsInv(Begun(s, name), es);
  }

  /** The startup is over only after both parts of the last phase have reported, and then its actions are exactly
      those of the script. */
  lemma ReadyComesLast(r: Run, e: Event)
    requires Inv(r) && Allowed(r.s, e) && Starting(r.s.stage) && !Starting(Step(r, e).s.stage)
    ensures Step(r, e).autoStart2 && Step(r, e).kcmInit2 && Step(r, e).apps == r.apps
    ensures Step(r, e).s.acts == Script(Idle, r.s.kcm.available, r.launches, r.apps)
  {
    hide Handle, Step, Kept, Noted, Script, Tail, RestoredRight, Orderly, Starter.TryRestoreNext;
    StepServer(r, e);
    if Tries(r.s, e) {
      TriesIs(r.s, e);
      TryingActs(Before(r.s, e));
    } else if e.WmProcessChanged? {
      RelaunchStarts(r, e.running);
    } else {
      NotedSignals(r);
      if e.Registered? || e.RestoreTimer? { IdleEvents(r.s, e); } else { PhaseMoves(r.s, e); }
      NotedApps(r);
      ScriptGoesOn(r.s.stage, Idle, r.s.kcm.available, r.launches, r.apps);
      FinishingReports(r, e);
      FinishedWaiting(r.s, e);
      MovingStarts(r, e);
    }
  }

  lemma NotedApps(r: Run)
    requires Noted(r)
    ensures Starting(r.s.stage) && r.s.stage != Restoring && r.s.stage != FinishingStartup ==> r.apps == []
  {
  }

  lemma FinishedWaiting(s: Starter, e: Event)
    requires s.stage == FinishingStartup && Kept(s) && Allowed(s, e) && Handle(s, e).stage == Idle
    ensures !Handle(s, e).kcm.waitAutoStart2 && !Handle(s, e).kcm.waitKcmInit2
  {
  }

  /** While an application is waited for, the next one is started only when it registers or the timer gives up. */
  lemma NextWaitsForPrevious(r: Run, e: Event)
    requires Inv(r) && Allowed(r.s, e) && r.s.stage == Restoring && Step(r, e).started != r.started
    ensures e == RestoreTimer || (e.Registered? && e.previousId == Some(r.s.progress.lastIdStarted))
  {
    hide Handle, Step, Kept, Noted, Moves, InOrder, RestoredRight, Orderly;
    if !Tries(r.s, e) {
      if e.WmProcessChanged? {
        RelaunchStarts(r, e.running);
      } else {
        NotedSignals(r);
        if e.Registered? || e.RestoreTimer? { IdleEvents(r.s, e); } else { PhaseMoves(r.s, e); }
        MovingStarts(r, e);
      }
    }
  }
}
