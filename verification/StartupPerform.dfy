/**
 The startup's object in a run: whatever sequence of events there is, the object goes through the states of
 StartupRuns.dfy, so that what holds in every startup holds of it.
 */
module StartupPerform {
  import opened SessionStore
  import opened StartupModel
  import opened StartupRuns
  import opened StartupServer

  /** A client has connected under an id; it may have used another one before. */
  method Register(startup: KSMStartup, previousId: Option<string>, id: string)
    modifies startup
    ensures startup.Model() == Handle(old(startup.Model()), Registered(previousId, id))
  {
    hide Starter.ClientRegistered;
    startup.session := startup.session.(clients := startup.session.clients + [id]);
    startup.ClientRegistered(previousId);
  }

  /** A client has gone: its id is taken out of the list once. */
  method Leave(startup: KSMStartup, id: string)
    modifies startup
    ensures startup.Model() == Handle(old(startup.Model()), Left(id))
  {
    var ids := startup.session.clients;
    var i := 0;
    while i < |ids| && ids[i] != id
      invariant i <= |ids| && forall j :: 0 <= j < i ==> ids[j] != id
    {
      i := i + 1;
    }
    WithoutIs(ids, id, i);
    if i < |ids| { startup.session := startup.session.(clients := ids[..i] + ids[i + 1..]); }
  }

  lemma {:induction false} WithoutIs(ids: seq<string>, id: string, k: nat)
    requires k <= |ids| && (forall j :: 0 <= j < k ==> ids[j] != id) && (k < |ids| ==> ids[k] == id)
    ensures Without(ids, id) == if k < |ids| then ids[..k] + ids[k + 1..] else ids
  {
    if k > 0 {
      WithoutIs(ids[1..], id, k - 1);
      assert ids == [ids[0]] + ids[1..];
      assert k < |ids| ==> ids[..k] == [ids[0]] + ids[1..][..k - 1] && ids[k + 1..] == ids[1..][k..];
    }
  }

  /** A timer that has fired is no longer running. */
  method Fire(startup: KSMStartup, e: Event)
    requires e.LaunchTimer? || e.Kcm1Timer? || e.Kcm2Timer? || e.RestoreTimer? || e.SuspendTimer?
    modifies startup
    ensures startup.Model() == Handle(old(startup.Model()), e)
  {
    hide Starter.StartAutoStart0, Starter.KcmPhase1Done, Starter.KcmPhase2Timeout, Starter.TryRestoreNext,
      Starter.StartupSuspendTimeout;
    var wake := startup.wake;
    match e
    case LaunchTimer =>
      startup.wake := wake.(launchTimers := if wake.launchTimers > 0 then wake.launchTimers - 1 else 0);
      startup.StartAutoStart0();
    case Kcm1Timer =>
      startup.wake := wake.(kcm1Timer := false);
      startup.KcmPhase1Done();
    case Kcm2Timer =>
      startup.wake := wake.(kcm2Timer := false);
      startup.KcmPhase2Timeout();
    case RestoreTimer =>
      startup.progress := startup.progress.(timer := false);
      startup.TryRestoreNext();
    case SuspendTimer => startup.StartupSuspendTimeout();
  }

  /** One event, delivered to the object. */
  method Perform(startup: KSMStartup, e: Event)
    modifies startup
    ensures startup.Model() == Handle(old(startup.Model()), e)
  {
    hide Starter.WmProcessChange, Starter.StartAutoStart0, Starter.AutoStart0Done, Starter.KcmPhase1Done,
      Starter.AutoStart1Done, Starter.AutoStart2Done, Starter.KcmPhase2Done, Starter.SuspendStartup, Starter.ResumeStartup,
      Starter.RestoreSubSession;
    match e
    case WmProcessChanged(running) => startup.WmProcessChange(running);
    case WmSetProgram => startup.StartAutoStart0();
    case AutoStart0Reported => startup.AutoStart0Done();
    case KcmPhase1Reported => startup.KcmPhase1Done();
    case AutoStart1Reported => startup.AutoStart1Done();
    case Registered(previousId, id) => Register(startup, previousId, id);
    case Left(id) => Leave(startup, id);
    case AutoStart2Reported => startup.AutoStart2Done();
    case KcmPhase2Reported => startup.KcmPhase2Done();
    case Suspend(app) => startup.SuspendStartup(app);
    case Resume(app) => startup.ResumeStartup(app);
    case OpenSubSession(name) => startup.RestoreSubSession(name);
    case _ => Fire(startup, e);
  }

  /** Every run: the object ends in the state of the run, in which the invariant holds. */
  method PerformAll(startup: KSMStartup, es: seq<Event>, ghost r: Run)
    requires startup.Model() == r.s && Inv(r) && AllowedAll(r, es)
    modifies startup
    ensures startup.Model() == Execute(r, es).s && Inv(Execute(r, es))
    decreases |es|
  {
    hide Handle, Inv, Allowed;
    if es != [] {
      StepServer(r, es[0]);
      StepKeepsInv(r, es[0]);
      Perform(startup, es[0]);
      PerformAll(startup, es[1..], Step(r, es[0]));
    }
  }

  /** A new server that restores the named session, or starts the default one, and whatever happens then. */
  method RunStartup(wm: string, wmCommands: Command, config: map<string, Group>, kcmAvailable: bool, someApps: nat,
                    name: Option<string>, es: seq<Event>)
    returns (startup: KSMStartup)
    requires "" !in config
    requires AllowedAll(Begun(Created(wm, wmCommands, config, kcmAvailable, someApps), name), es)
    ensures var s := Created(wm, wmCommands, config, kcmAvailable, someApps);
      && Fresh(s) && fresh(startup) && startup.Model() == Execute(Begun(s, name), es).s && Inv(Execute(Begun(s, name), es))
  {
    hide Inv, Starter.RestoreSession, Starter.StartDefaultSession, Launches;
    startup := new KSMStartup(wm, wmCommands, config, kcmAvailable, someApps);
    ghost var s := startup.Model();
    BeginsInv(s, name);
    if name.Some? { startup.RestoreSession(name.value); } else { startup.StartDefaultSession(); }
    PerformAll(startup, es, Begun(s, name));
  }
}
