/**
 Every run of the session manager from its start.
 */
module SessionRuns {
  import opened SessionStore
  import opened SessionModel
  import opened SessionRounds
  import opened SessionSafety
  import opened SessionEnds

  // ---- no request is forgotten ----

  predicate Waits(s: Server, c: ClientId) {
    c in s.flags && (s.flags[c].pendingInteraction || s.interacting == Some(c))
  }

  lemma HandingOutForgetsNobody(s: Server, c: ClientId)
    requires s.WellFormed() && Waits(s, c)
    ensures Waits(s.HandlePendingInteractions(), c)
  {
    hide Server.HandlePendingInteractions;
    if s.interacting.None? { TurnHandedOut(s); } else { TurnKept(s); }
  }

  lemma TurnKept(s: Server)
    requires s.interacting.Some?
    ensures s.HandlePendingInteractions() == s
  {
  }

  lemma CompletingForgetsNobody(s: Server, c: ClientId)
    requires s.WellFormed() && Waits(s, c)
    ensures s.CompleteShutdownOrCheckpoint().WellFormed() && Waits(s.CompleteShutdownOrCheckpoint(), c)
  {
    hide Server.CompleteShutdownOrCheckpoint;
    CompletingCompletes(s);
  }

  lemma ReportForgetsNobody(s: Server, nextId: ClientId, e: Event, c: ClientId)
    requires s.WellFormed() && Knows(s, e) && (e.Done? || e.AskPhase2?) && s.phase != Idle && Waits(s, c)
    ensures Waits(Handle(s, nextId, e), c)
  {
    hide Server.CompleteShutdownOrCheckpoint;
    if e.Done? {
      CompletingForgetsNobody(s.(flags := s.flags[e.c := s.flags[e.c].(saveYourselfDone := true)]), c);
    } else {
      CompletingForgetsNobody(s.(flags := s.flags[e.c := s.flags[e.c].(waitForPhase2 := true, wasPhase2 := true)]), c);
    }
  }

  lemma LeavingForgetsNobody(s: Server, d: ClientId, c: ClientId)
    requires s.WellFormed() && d in s.flags && c != d && Waits(s, c)
    ensures Waits(s.DeleteClient(d), c)
  {
    hide Server.CompleteShutdownOrCheckpoint, Server.ContinueKilling, Server.HandlePendingInteractions, Server.Drop;
    DroppedWellFormed(s, d);
    DroppingForgetsNobody(s, d, c);
    CompletingForgetsNobody(s.Drop(d), c);
    ContinuesKilling(s.Drop(d).CompleteShutdownOrCheckpoint());
  }

  lemma DroppingForgetsNobody(s: Server, d: ClientId, c: ClientId)
    requires s.WellFormed() && d in s.flags && c != d && Waits(s, c)
    ensures Waits(s.Drop(d), c)
  {
    hide Server.HandlePendingInteractions;
    var t := s.(clients := Removed(s.clients, d), flags := s.flags - {d},
                sub := SubSession(Removed(s.sub.toSave, d), Removed(s.sub.toKill, d)),
                interacting := if s.interacting == Some(d) then None else s.interacting);
    HandingOutForgetsNobody(t, c);
  }

  lemma TimeoutForgetsNobody(s: Server, c: ClientId)
    requires s.WellFormed() && Waits(s, c)
    ensures Waits(s.ProtectionTimeout(), c)
  {
    hide Server.CompleteShutdownOrCheckpoint;
    var u := GaveUpOn(s);
    if s.InRound() && s.interacting.None? { CompletingForgetsNobody(u, c); }
  }

  lemma TurnsForgetNobody(s: Server, nextId: ClientId, e: Event, c: ClientId)
    requires s.WellFormed() && Knows(s, e) && (e.AskInteract? || e.EndInteract?) && Waits(s, c)
    requires TakesTurns(Handle(s, nextId, e).phase)
    requires e.EndInteract? ==> e.c != c || s.interacting != Some(c)
    ensures Waits(Handle(s, nextId, e), c)
  {
    hide Server.HandlePendingInteractions, Server.CancelShutdown;
    CancelIdles(s.(interacting := None));
    if e.AskInteract? {
      HandingOutForgetsNobody(s.(flags := s.flags[e.c := s.flags[e.c].(pendingInteraction := true)]), c);
      HandingOutForgetsNobody(s.Send([Interact(e.c)]), c);
    } else if s.interacting == Some(e.c) {
      HandingOutForgetsNobody(s.(interacting := None), c);
    }
  }

  lemma CancelIdles(s: Server)
    requires s.WellFormed()
    ensures s.CancelShutdown().phase == Idle && s.CancelShutdown().flags == s.flags
  {
  }

  /** Within a round, a client that asked to interact goes on waiting until it has the turn, and has it until it is
      done, unless it leaves. */
  lemma NoRequestForgotten(s: Server, nextId: ClientId, e: Event, c: ClientId)
    requires s.WellFormed() && Knows(s, e) && TakesTurns(s.phase) && TakesTurns(Handle(s, nextId, e).phase)
    requires Waits(s, c) && c != nextId && e != Leave(c) && (e.EndInteract? ==> e.c != c || s.interacting != Some(c))
    ensures Waits(Handle(s, nextId, e), c)
  {
    hide Handle;
    match e
    case Done(_) => ReportForgetsNobody(s, nextId, e, c);
    case AskPhase2(_) => ReportForgetsNobody(s, nextId, e, c);
    case Leave(d) => LeavingForgetsNobody(s, d, c); LeaveHandled(s, nextId, d);
    case ProtectionTimer => TimeoutForgetsNobody(s, c); TimerHandled(s, nextId);
    case AskInteract(_) => TurnsForgetNobody(s, nextId, e, c);
    case EndInteract(_, _) => TurnsForgetNobody(s, nextId, e, c);
    case _ => OthersForgetNobody(s, nextId, e, c);
  }

  lemma OthersForgetNobody(s: Server, nextId: ClientId, e: Event, c: ClientId)
    requires s.WellFormed() && Knows(s, e) && TakesTurns(s.phase) && Waits(s, c) && c != nextId
    requires !e.Done? && !e.AskPhase2? && !e.Leave? && !e.ProtectionTimer? && !e.AskInteract? && !e.EndInteract?
    ensures Waits(Handle(s, nextId, e), c)
  {
  }

  // ---- a round that goes on waits for somebody ----

  /** No completion is missed: whenever a round is on, some client that takes part has not reported. */
  ghost predicate Awaits(s: Server) {
    s.InRound() ==> exists c :: c in s.Pending() && !s.Reported(c)
  }

  lemma CompletedAwaits(s: Server)
    requires s.WellFormed()
    ensures Awaits(s.CompleteShutdownOrCheckpoint())
  {
    hide Server.CompleteShutdownOrCheckpoint, Server.StoreOrDiscard, Server.AfterSave, Server.Select, Saves, ClearWait;
    Completing(s);
    if s.InRound() && forall c :: c in s.Pending() ==> s.Reported(c) {
      var second := s.Select(Phase2Waiters, s.Pending());
      if second == [] { StoredOrDiscarded(s); } else { Phase2Awaits(s, second); }
    }
  }

  lemma Phase2Awaits(s: Server, second: seq<ClientId>)
    requires s.WellFormed() && second == s.Select(Phase2Waiters, s.Pending()) && second != []
    ensures Awaits(s.(flags := ClearWait(s.flags, second)).Send(s.Phase2Messages(second)))
  {
    hide ClearWait;
    var t := s.(flags := ClearWait(s.flags, second)).Send(s.Phase2Messages(second));
    assert second[0] in second;
    assert s.Addressed(Phase2Waiters, second[0]);
    assert second[0] in t.Pending() && !t.Reported(second[0]);
  }

  /** What matters is who takes part and who has reported. */
  lemma AwaitsToo(s: Server, t: Server)
    requires Awaits(s) && (t.InRound() ==> t.phase == s.phase && t.sub.toSave == s.sub.toSave)
    requires t.InRound() ==> forall c :: c in s.clients ==> c in t.clients
    requires t.InRound() ==> forall c :: t.Reported(c) ==> s.Reported(c)
    ensures Awaits(t)
  {
    if t.InRound() {
      var c :| c in s.Pending() && !s.Reported(c);
      assert c in t.Pending() && !t.Reported(c);
    }
  }

  lemma HandingOutAwaits(s: Server)
    requires s.WellFormed() && Awaits(s)
    ensures Awaits(s.HandlePendingInteractions())
  {
    hide Server.HandlePendingInteractions, Awaits;
    if s.interacting.None? { TurnHandedOut(s); } else { TurnKept(s); }
    AwaitsToo(s, s.HandlePendingInteractions());
  }

  lemma TurnsAwait(s: Server, nextId: ClientId, e: Event)
    requires s.WellFormed() && Knows(s, e) && (e.AskInteract? || e.EndInteract?) && Awaits(s)
    ensures Awaits(Handle(s, nextId, e))
  {
    hide Server.HandlePendingInteractions, Server.CancelShutdown, Awaits;
    if e.AskInteract? {
      var t := s.(flags := s.flags[e.c := s.flags[e.c].(pendingInteraction := true)]);
      AwaitsToo(s, t);
      HandingOutAwaits(t);
      AwaitsToo(s, s.Send([Interact(e.c)]));
      HandingOutAwaits(s.Send([Interact(e.c)]));
    } else if s.interacting == Some(e.c) {
      var t := s.(interacting := None);
      AwaitsToo(s, t);
      HandingOutAwaits(t);
      CancelIdles(t);
      AwaitsToo(s, t.CancelShutdown());
    }
  }

  lemma ReportAwaits(s: Server, nextId: ClientId, e: Event)
    requires s.WellFormed() && Knows(s, e) && (e.Done? || e.AskPhase2?) && Awaits(s)
    ensures Awaits(Handle(s, nextId, e))
  {
    hide Server.CompleteShutdownOrCheckpoint, Server.DiscardOf, Server.TellOthers, Awaits;
    if e.Done? && s.phase == Idle {
      AwaitsToo(s, Handle(s, nextId, e));
    } else {
      var f := s.flags[e.c];
      var u := s.(flags := s.flags[e.c :=
        if e.Done? then f.(saveYourselfDone := true) else f.(waitForPhase2 := true, wasPhase2 := true)]);
      CompletedAwaits(u);
      AwaitsToo(u.CompleteShutdownOrCheckpoint(), Handle(s, nextId, e));
    }
  }

  lemma LeavingAwaits(s: Server, c: ClientId)
    requires s.WellFormed() && c in s.flags
    ensures Awaits(s.DeleteClient(c))
  {
    hide Server.CompleteShutdownOrCheckpoint, Server.ContinueKilling, Server.Drop, ContinueNews, Awaits;
    DroppedWellFormed(s, c);
    CompletedAwaits(s.Drop(c));
    var u := s.Drop(c).CompleteShutdownOrCheckpoint();
    ContinuesKilling(u);
    AwaitsToo(u, u.ContinueKilling());
  }

  lemma TimeoutAwaits(s: Server)
    requires s.WellFormed() && Awaits(s)
    ensures Awaits(s.ProtectionTimeout())
  {
    hide Server.CompleteShutdownOrCheckpoint, GaveUpOn, Awaits;
    if s.InRound() && s.interacting.None? {
      TimeoutIs(s);
      CompletedAwaits(GaveUpOn(s));
      AwaitsToo(GaveUpOn(s).CompleteShutdownOrCheckpoint(), s.ProtectionTimeout());
    } else {
      AwaitsToo(s, s.ProtectionTimeout());
    }
  }

  lemma BeginningAwaits(s: Server, nextId: ClientId, e: Event)
    requires s.WellFormed() && s.sent == [] && StartsRound(s, e)
    ensures Awaits(Handle(s, nextId, e))
  {
    hide Server.CompleteShutdownOrCheckpoint, Server.SaveSubSession, BeginsAll, Awaits;
    if e.CloseSubSession? {
      var t := ClosingStarts(s, e.name, e.saveAndClose, e.saveOnly);
      CompletedAwaits(t);
    } else {
      var t: Server;
      if e.Logout? { t := LogoutBegins(s, e.save); } else { t := SaveSessionBegins(s); }
      assert s.(sent := []) == s;
      if t.clients == [] { CompletedAwaits(t); } else { FreshAwaits(s, t); }
    }
  }

  lemma FreshAwaits(s: Server, t: Server)
    requires s.WellFormed() && t.WellFormed() && BeginsAll(s, t) && t.clients != []
    ensures Awaits(t)
  {
    var c := t.clients[0];
    assert c in t.clients && c in t.Pending() && !t.Reported(c);
  }

  lemma ClosingStarts(s: Server, name: string, close: set<string>, only: set<string>) returns (t: Server)
    requires s.WellFormed() && s.phase == Idle
    ensures t.WellFormed() && t.flags == ResetFlags(s.flags, s.Named(s.clients, close + only))
    ensures t.wmWaiting == s.wmWaiting && s.SaveSubSession(name, close, only) == t.CompleteShutdownOrCheckpoint()
  {
    hide Server.CompleteShutdownOrCheckpoint, Server.AddToSubSession;
    var saved, killed := s.Named(s.clients, close + only), s.Named(s.clients, close);
    var u := s.(phase := ClosingSubSession, protection := true,
                saving := Saving(SaveBoth, true, "SubSession: " + name, s.saving.config));
    t := u.AddToSubSession(saved, killed);
    NamedSame(s, u, s.clients, close + only);
    NamedSame(s, u, s.clients, close);
    AddedFlags(u, saved, killed);
  }

  lemma AddedFlags(u: Server, saved: seq<ClientId>, killed: seq<ClientId>)
    requires u.WellFormed() && (forall c :: c in saved || c in killed ==> c in u.flags)
    ensures u.AddToSubSession(saved, killed).WellFormed()
    ensures u.AddToSubSession(saved, killed).flags == ResetFlags(u.flags, saved)
    ensures u.AddToSubSession(saved, killed).wmWaiting == u.wmWaiting
  {
  }

  lemma OthersAwait(s: Server, nextId: ClientId, e: Event)
    requires s.WellFormed() && s.sent == [] && Knows(s, e) && Awaits(s) && !StartsRound(s, e)
    requires e.Join? ==> nextId !in s.flags
    requires !e.Done? && !e.AskPhase2? && !e.Leave? && !e.ProtectionTimer? && !e.AskInteract? && !e.EndInteract?
    ensures Awaits(Handle(s, nextId, e))
  {
    hide Server.KillWM, Server.LogoutSoundFinished, KillNews, SoundNews, Awaits;
    KillingWm(s);
    SoundIsFinished(s);
    AwaitsToo(s, Handle(s, nextId, e));
  }

  lemma StepAwaits(r: Run, e: Event)
    requires Inv(r) && Allowed(r, e) && Awaits(r.s)
    ensures Awaits(Step(r, e).s)
  {
    hide Inv, Handle, Awaits, Allowed, Step;
    InvBooks(r);
    AllowedKnows(r, e);
    StepIsHandle(r, e);
    var s := r.s.(sent := []);
    AwaitsToo(r.s, s);
    match e
    case Done(_) => ReportAwaits(s, r.nextId, e);
    case AskPhase2(_) => ReportAwaits(s, r.nextId, e);
    case Leave(c) => LeavingAwaits(s, c); LeaveHandled(s, r.nextId, c);
    case ProtectionTimer => TimeoutAwaits(s); TimerHandled(s, r.nextId);
    case AskInteract(_) => TurnsAwait(s, r.nextId, e);
    case EndInteract(_, _) => TurnsAwait(s, r.nextId, e);
    case _ =>
      NextIsNew(r);
      if StartsRound(r.s, e) { BeginningAwaits(s, r.nextId, e); } else { OthersAwait(s, r.nextId, e); }
  }

  lemma NextIsNew(r: Run)
    requires Inv(r)
    ensures r.nextId !in r.s.flags
  {
  }

  // ---- runs ----

  /** Every event of the list is one the environment may cause where it happens. */
  ghost predicate AllowedAll(r: Run, es: seq<Event>)
    decreases |es|
  {
    es == [] || (r.s.WellFormed() && Allowed(r, es[0]) && AllowedAll(Step(r, es[0]), es[1..]))
  }

  ghost function Execute(r: Run, es: seq<Event>): Run
    requires AllowedAll(r, es)
    decreases |es|
  {
    if es == [] then r else Execute(Step(r, es[0]), es[1..])
  }

  /** The server as it starts, before any client has connected. */
  function Initial(wm: string, excludeApps: set<string>, saving: Saving): Run {
    Run(Server(Idle, [], map[], 0, None, false, false, Setup(map[], wm, excludeApps), saving, NO_SUB, []),
        0, {}, {}, multiset{}, {}, false, 0, true, true)
  }

  lemma InitialInv(wm: string, excludeApps: set<string>, saving: Saving)
    ensures Inv(Initial(wm, excludeApps, saving)) && Awaits(Initial(wm, excludeApps, saving).s)
  {
  }

  lemma {:induction false} RunKeepsInv(r: Run, es: seq<Event>)
    requires Inv(r) && Awaits(r.s) && AllowedAll(r, es)
    ensures Inv(Execute(r, es)) && Awaits(Execute(r, es).s)
    decreases |es|
  {
    hide Inv, Step, Allowed, Awaits;
    if es != [] {
      InvBooks(r);
      AllowedKnows(r, es[0]);
      StepKeepsInv(r, es[0]);
      StepAwaits(r, es[0]);
      RunKeepsInv(Step(r, es[0]), es[1..]);
    }
  }

  /** What the step of event e means to the clients. */
  ghost predicate SafeStep(r: Run, e: Event)
    requires r.s.WellFormed() && Knows(r.s, e)
  {
    var q := Step(r, e);
    // nobody is told to save twice in a round, nor before the window managers have reported
    && (q.counted ==> forall c :: c in q.told ==> q.told[c] == 1)
    && (q.counted && !e.CloseSubSession? ==> forall c :: c in SaveTargets(q.s.sent) && !q.s.IsWM(c) ==> Unreported(q) == {})
    && (LoggingOut(q.s.phase) ==> q.counted && q.cleared)
    // once none of them is awaited, everybody who was there when the round began has been told
    && (LoggingOut(q.s.phase) && q.s.wmWaiting == 0 ==> forall c :: c in q.s.clients && c < q.begunAt ==> q.told[c] == 1)
    // the session is not saved, and phase 2 not begun, behind anybody's back
    && (!q.timedOut && (Stored in q.s.sent || Discarded in q.s.sent) ==> forall c :: c in RoundMembers(r, e) ==> c in q.done)
    && (!q.timedOut && (exists c :: SaveYourselfPhase2(c) in q.s.sent) ==>
          forall c :: c in RoundMembers(r, e) ==> c in q.done || c in q.asked)
    // a round goes on only while some client has not reported, guarded, with one client interacting at a time
    && Awaits(q.s) && Guarded(q) && OneInteracts(q)
  }

  lemma EveryStepIsSafe(r: Run, e: Event)
    requires Inv(r) && Awaits(r.s) && Allowed(r, e) && r.s.WellFormed() && Knows(r.s, e)
    ensures SafeStep(r, e)
  {
    hide Inv, Step, Allowed, RoundMembers, Unreported, Awaits;
    StepAwaits(r, e);
    var q := Step(r, e);
    StepKeepsInv(r, e);
    InvMeans(q);
    if !e.CloseSubSession? && q.counted {
      forall c | c in SaveTargets(q.s.sent) && !q.s.IsWM(c) ensures Unreported(q) == {} {
        WindowManagersFirst(r, e, c);
      }
    }
    if !q.timedOut {
      if Stored in q.s.sent || Discarded in q.s.sent { SavedOnlyWhenAllDone(r, e); }
      if c :| SaveYourselfPhase2(c) in q.s.sent { Phase2OnlyWhenAllReported(r, e, c); }
    }
  }

  lemma InvMeans(q: Run)
    requires Inv(q)
    ensures (q.counted ==> forall c :: c in q.told ==> q.told[c] == 1) && Guarded(q) && OneInteracts(q)
    ensures LoggingOut(q.s.phase) ==> q.counted && q.cleared
    ensures LoggingOut(q.s.phase) && q.s.wmWaiting == 0 ==> forall c :: c in q.s.clients && c < q.begunAt ==> q.told[c] == 1
  {
  }

  /** In every run from the start, every event is handled safely. */
  lemma EveryRunIsSafe(wm: string, excludeApps: set<string>, saving: Saving, es: seq<Event>, e: Event)
    requires AllowedAll(Initial(wm, excludeApps, saving), es)
    requires Execute(Initial(wm, excludeApps, saving), es).s.WellFormed()
    requires Allowed(Execute(Initial(wm, excludeApps, saving), es), e)
    ensures Knows(Execute(Initial(wm, excludeApps, saving), es).s, e)
    ensures SafeStep(Execute(Initial(wm, excludeApps, saving), es), e)
  {
    hide Inv, SafeStep, Allowed, Execute, Awaits;
    InitialInv(wm, excludeApps, saving);
    RunKeepsInv(Initial(wm, excludeApps, saving), es);
    var r := Execute(Initial(wm, excludeApps, saving), es);
    AllowedKnows(r, e);
    EveryStepIsSafe(r, e);
  }
}
