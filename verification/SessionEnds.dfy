/**
 How a save round and a logout end: silent clients cannot hold a round up, turns are handed on in order,
 the window manager is killed last; and where the code falls short of that.
 */
module SessionEnds {
  import opened SessionStore
  import opened SessionModel
  import opened SessionRounds
  import opened SessionSafety

  // ---- the protection timer ----

  /** Clients that asked for phase 2 and have not yet been told to go on. */
  ghost predicate Owed(s: Server, c: ClientId)
    requires s.WellFormed()
  {
    c in s.flags && s.flags[c].waitForPhase2 && !s.flags[c].saveYourselfDone
  }

  ghost function GaveUpOn(s: Server): Server { s.(protection := false, flags := GiveUp(s.flags, s.clients)) }

  /** After a timeout nobody in the round counts as silent any more. */
  lemma SilentAreDone(s: Server)
    requires s.WellFormed() && s.InRound()
    ensures var u := GaveUpOn(s);
      && u.WellFormed() && u.InRound() && u.Pending() == s.Pending()
      && (forall c :: c in u.Pending() ==> u.Reported(c) && (Owed(u, c) <==> Owed(s, c)))
  {
    var u := GaveUpOn(s);
    forall c | c in u.Pending() ensures u.Reported(c) && (Owed(u, c) <==> Owed(s, c)) {
      assert c in s.clients && c in s.flags;
    }
  }

  lemma GaveUpCompletes(u: Server)
    requires u.WellFormed() && u.InRound() && forall c :: c in u.Pending() ==> u.Reported(c)
    ensures var t := u.CompleteShutdownOrCheckpoint();
      && t.WellFormed() && t.protection == u.protection && t.interacting == u.interacting
      && (t.InRound() <==> exists c :: c in u.Pending() && Owed(u, c))
      && (t.InRound() ==> t.Pending() == u.Pending() && forall c :: c in t.Pending() ==> !Owed(t, c))
  {
    hide Server.CompleteShutdownOrCheckpoint, Server.StoreOrDiscard, Server.AfterSave, Completes, Saves;
    Completing(u);
    CompletingCompletes(u);
    CompletesTurn(u, u.CompleteShutdownOrCheckpoint());
    var second := u.Select(Phase2Waiters, u.Pending());
    if second == [] {
      StoredOrDiscarded(u);
      assert forall c :: c in u.Pending() && Owed(u, c) ==> c in second;
    } else {
      WaitCleared(u, second);
    }
  }

  lemma CompletesTurn(s: Server, t: Server)
    requires Completes(s, t)
    ensures t.WellFormed() && t.protection == s.protection && t.interacting == s.interacting
  {
  }

  lemma WaitCleared(u: Server, second: seq<ClientId>)
    requires u.WellFormed() && u.InRound() && second == u.Select(Phase2Waiters, u.Pending()) && second != []
    ensures var t := u.(flags := ClearWait(u.flags, second)).Send(u.Phase2Messages(second));
      && t.WellFormed() && t.InRound() && t.Pending() == u.Pending() && (forall c :: c in t.Pending() ==> !Owed(t, c))
    ensures exists c :: c in u.Pending() && Owed(u, c)
  {
    hide ClearWait;
    assert second[0] in second;
    assert second[0] in u.Pending() && Owed(u, second[0]);
    forall c | c in u.Pending() && Owed(u, c) ensures c in second {
      assert u.Addressed(Phase2Waiters, c);
    }
  }

  /** A timeout ends the round, except that clients which asked for phase 2 are given it first. */
  lemma OneTimeout(s: Server)
    requires s.WellFormed() && s.InRound() && s.interacting.None?
    ensures var t := s.ProtectionTimeout();
      && t.WellFormed() && t.protection && t.interacting.None?
      && (t.InRound() <==> exists c :: c in s.Pending() && Owed(s, c))
      && (t.InRound() ==> forall c :: c in t.Pending() ==> !Owed(t, c))
  {
    hide Server.CompleteShutdownOrCheckpoint, GaveUpOn;
    SilentAreDone(s);
    GaveUpCompletes(GaveUpOn(s));
    TimeoutIs(s);
    TimerSame(GaveUpOn(s).CompleteShutdownOrCheckpoint());
  }

  lemma TimeoutIs(s: Server)
    requires s.WellFormed() && s.InRound() && s.interacting.None?
    ensures GaveUpOn(s).WellFormed() && GaveUpOn(s).interacting.None?
    ensures s.ProtectionTimeout() == GaveUpOn(s).CompleteShutdownOrCheckpoint().(protection := true)
  {
    hide Server.CompleteShutdownOrCheckpoint;
  }

  lemma TimerSame(t: Server)
    requires t.WellFormed()
    ensures var u := t.(protection := true);
      && u.WellFormed() && (u.InRound() <==> t.InRound()) && u.Pending() == t.Pending()
      && forall c :: Owed(u, c) <==> Owed(t, c)
  {
  }

  /** With nobody interacting, two timeouts in a row always end the round, and the second can happen. */
  lemma TwoTimeoutsEndRound(r: Run) returns (q: Run)
    requires Inv(r) && r.s.InRound() && r.s.interacting.None? && r.s.protection
    ensures Allowed(r, ProtectionTimer) && q == Step(r, ProtectionTimer) && q.s.WellFormed()
    ensures q.s.InRound() ==> Allowed(q, ProtectionTimer) && !Step(q, ProtectionTimer).s.InRound()
  {
    hide Inv, Server.ProtectionTimeout, Owed, Allowed, Step;
    InvBooks(r);
    SentOnly(r.s);
    OneTimeout(r.s.(sent := []));
    TimerMayFire(r);
    q := Step(r, ProtectionTimer);
    if q.s.InRound() {
      SentOnly(q.s);
      OneTimeout(q.s.(sent := []));
      TimerMayFire(q);
    }
  }

  lemma TimerMayFire(r: Run)
    requires r.s.WellFormed() && r.s.protection
    ensures Allowed(r, ProtectionTimer)
    ensures Step(r, ProtectionTimer).s == r.s.(sent := []).ProtectionTimeout()
  {
    hide Server.ProtectionTimeout;
  }

  lemma SentOnly(s: Server)
    requires s.WellFormed()
    ensures var u := s.(sent := []);
      && u.WellFormed() && (u.InRound() <==> s.InRound()) && u.Pending() == s.Pending()
      && forall c :: Owed(u, c) <==> Owed(s, c)
  {
  }

  // ---- taking turns ----

  predicate TakesTurns(phase: Phase) { phase == Shutdown || phase == ClosingSubSession }

  /** Whoever interacts keeps the turn until it says it is done or leaves, and nobody else is told to interact. */
  lemma HolderKeepsTurn(r: Run, e: Event, c: ClientId)
    requires Inv(r) && Allowed(r, e) && TakesTurns(r.s.phase) && TakesTurns(Step(r, e).s.phase)
    requires r.s.interacting == Some(c) && e != Leave(c) && (e.EndInteract? ==> e.c != c)
    ensures Step(r, e).s.interacting == Some(c)
    ensures forall d :: Interact(d) in Step(r, e).s.sent ==> d == c
  {
    hide Inv, Allowed, Handle;
    InvBooks(r);
    AllowedKnows(r, e);
    StepKeepsInv(r, e);
    Turns(r);
    Turns(Step(r, e));
    assert c in Step(r, e).granted;
    forall d | Interact(d) in Step(r, e).s.sent ensures d == c {
      assert d in Step(r, e).granted;
    }
  }

  lemma Turns(r: Run)
    requires Inv(r)
    ensures OneInteracts(r)
  {
  }

  // ---- killing ----

  predicate Kills(m: Message) { m.Die? || m.Quit? }

  lemma {:induction false} OldDiscardsKillNobody(s: Server, g: Group, n: nat)
    ensures forall m :: m in s.OldDiscards(g, n) ==> !Kills(m)
  {
    if n != 0 { OldDiscardsKillNobody(s, g, n - 1); }
  }

  lemma {:induction false} DiscardCommandsKillNobody(s: Server, g: Group, ids: seq<ClientId>)
    ensures forall m :: m in s.DiscardCommands(g, ids) ==> !Kills(m)
  {
    if ids != [] { DiscardCommandsKillNobody(s, g, ids[..|ids| - 1]); }
  }

  lemma SavingKillsNobody(s: Server, m: Message)
    requires s.WellFormed() && s.phase != ClosingSubSession && Kills(m)
    ensures m in s.StoreOrDiscard().AfterSave().sent && s.InRound() ==> m in s.sent
  {
    hide Server.AfterSave, Server.StoreSession, Server.DiscardSession;
    StoringKillsNobody(s, m);
    DiscardingKillsNobody(s, m);
    if s.InRound() { AfterSaveKillsNobody(s.StoreOrDiscard(), m); }
  }

  lemma StoringKillsNobody(s: Server, m: Message)
    requires s.WellFormed() && Kills(m)
    ensures s.StoreSession().phase == s.phase && (m in s.StoreSession().sent ==> m in s.sent)
  {
    hide Server.OldDiscards, Numbered, EntriesFor, StoredIds, WmFirst, Server.InBoth;
    OldDiscardsKillNobody(s, s.OldGroup(), s.OldGroup().count);
  }

  lemma DiscardingKillsNobody(s: Server, m: Message)
    requires s.WellFormed() && Kills(m)
    ensures s.DiscardSession().phase == s.phase && (m in s.DiscardSession().sent ==> m in s.sent)
  {
    hide Server.DiscardCommands;
    DiscardCommandsKillNobody(s, s.OldGroup(), s.clients);
  }

  lemma AfterSaveKillsNobody(t: Server, m: Message)
    requires (t.phase == Shutdown || t.phase == Checkpoint) && Kills(m)
    ensures m in t.AfterSave().sent ==> m in t.sent
  {
    if t.phase == Checkpoint {
      var ms := t.SaveCompletes(t.clients);
      assert t.AfterSave().sent == t.sent + ms;
    }
  }

  /** Outside sub-sessions, the end of a round kills nobody yet. */
  lemma CompletingKillsNobody(s: Server, m: Message)
    requires s.WellFormed() && s.phase != ClosingSubSession && Kills(m)
    ensures m in s.CompleteShutdownOrCheckpoint().sent ==> m in s.sent
  {
    hide Server.CompleteShutdownOrCheckpoint, Server.StoreOrDiscard, Server.AfterSave;
    Completing(s);
    SavingKillsNobody(s, m);
  }

  lemma ReportKillsNobody(s: Server, c: ClientId, e: Event, nextId: ClientId, m: Message)
    requires s.WellFormed() && c in s.flags && s.sent == [] && s.phase != ClosingSubSession && Kills(m)
    requires e == Done(c) || e == AskPhase2(c)
    ensures m !in Handle(s, nextId, e).sent
  {
    hide Server.CompleteShutdownOrCheckpoint, Server.WmReported, Server.DiscardOf;
    DiscardSends(s, c);
    if e == Done(c) {
      var u := s.(flags := s.flags[c := s.flags[c].(saveYourselfDone := true)]);
      CompletingKillsNobody(u, m);
      TellsOnlyToSave(u.CompleteShutdownOrCheckpoint().(protection := true), c, !s.flags[c].wasPhase2);
    } else {
      var u := s.(flags := s.flags[c := s.flags[c].(waitForPhase2 := true, wasPhase2 := true)]);
      CompletingKillsNobody(u, m);
      TellsOnlyToSave(u.CompleteShutdownOrCheckpoint(), c, true);
    }
  }

  lemma TimeoutKillsNobody(s: Server, m: Message)
    requires s.WellFormed() && s.sent == [] && s.phase != ClosingSubSession && Kills(m)
    ensures m !in s.ProtectionTimeout().sent
  {
    hide Server.CompleteShutdownOrCheckpoint;
    if s.InRound() && s.interacting.None? {
      SilentAreDone(s);
      CompletingKillsNobody(GaveUpOn(s), m);
    }
  }

  lemma RoundKillsNobody(s: Server, nextId: ClientId, e: Event, m: Message)
    requires s.WellFormed() && s.sent == [] && Kills(m) && (e.Logout? || e.SaveSession?)
    ensures m !in Handle(s, nextId, e).sent
  {
    hide Server.CompleteShutdownOrCheckpoint, BeginsAll;
    if StartsRound(s, e) {
      var t: Server;
      if e.Logout? { t := LogoutBegins(s, e.save); } else { t := SaveSessionBegins(s); }
      BegunPhase(s, t);
      BegunAsks(s, t);
      CompletingKillsNobody(t, m);
    }
  }

  lemma BegunAsks(s: Server, t: Server)
    requires s.WellFormed() && BeginsAll(s, t)
    ensures t.WellFormed() && forall m :: m in t.sent ==> m.SaveYourself?
  {
  }

  /** Who is left, and what is sent, after a client left. */
  lemma LeavingKills(s: Server, c: ClientId, m: Message)
    requires s.WellFormed() && c in s.flags && s.sent == [] && s.phase != ClosingSubSession && Kills(m)
    ensures var t := s.DeleteClient(c);
      m in t.sent ==>
        && t.phase == KillingWM
        && (m == Quit ==> t.clients == [] || (s.phase == Killing && t.Select(WindowManagers, t.clients) == []))
        && (m.Die? ==> t.Select(Others, t.clients) == [])
  {
    hide Server.CompleteShutdownOrCheckpoint, Server.ContinueKilling, Server.Drop, ContinueNews;
    DroppedWellFormed(s, c);
    var d := s.Drop(c);
    DropSends(s, c);
    CompletingKillsNobody(d, m);
    OutsideRounds(d);
    var u := d.CompleteShutdownOrCheckpoint();
    ContinuesKilling(u);
    if m in ContinueNews(u) { ContinueKills(u, m); }
  }

  lemma DropSends(s: Server, c: ClientId)
    requires s.WellFormed()
    ensures s.Drop(c).phase == s.phase && forall m :: m in s.Drop(c).sent ==> m in s.sent || m.Interact?
  {
  }

  lemma OutsideRounds(d: Server)
    requires d.WellFormed()
    ensures var u := d.CompleteShutdownOrCheckpoint();
      && u.WellFormed() && (!d.InRound() ==> u == d)
      && (d.phase != ClosingSubSession && (u.phase == Killing || u.phase == KillingWM) ==> u == d)
  {
    hide Server.CompleteShutdownOrCheckpoint;
    CompletingCompletes(d);
    Completing(d);
  }

  lemma ContinueKills(u: Server, m: Message)
    requires Kills(m) && m in ContinueNews(u)
    ensures var t := u.ContinueKilling();
      && t.phase == KillingWM && (u.phase == Killing || u.phase == KillingWM)
      && (m == Quit ==> t.clients == [] || (u.phase == Killing && t.Select(WindowManagers, t.clients) == []))
      && (m.Die? ==> t.Select(Others, t.clients) == [])
  {
    hide Server.ContinueKilling;
    ContinuesKilling(u);
    var t := u.ContinueKilling();
    SelectSame(u, t, Others, u.clients);
    SelectSame(u, t, WindowManagers, u.clients);
  }

  lemma DieOnlyTo(s: Server, who: Who, m: Message)
    requires m in s.DieMessages(s.Select(who, s.clients))
    ensures m.Die? && s.Addressed(who, m.to)
  {
    var ids := s.Select(who, s.clients);
    var i :| 0 <= i < |ids| && s.DieMessages(ids)[i] == m;
    assert ids[i] in ids;
  }

  lemma KillNewsSays(s: Server, m: Message)
    requires m in KillNews(s)
    ensures m == Quit ==> s.Select(WindowManagers, s.clients) == []
    ensures m.Die? ==> s.IsWM(m.to)
  {
    if s.Select(WindowManagers, s.clients) != [] { DieOnlyTo(s, WindowManagers, m); }
  }

  lemma SoundNewsSays(s: Server, m: Message)
    requires m in SoundNews(s)
    ensures m == Quit ==> s.Select(Others, s.clients) == [] && s.Select(WindowManagers, s.clients) == []
    ensures m.Die? ==> !s.IsWM(m.to) || s.Select(Others, s.clients) == []
  {
    hide KillNews;
    if s.Select(Others, s.clients) == [] { KillNewsSays(s, m); } else { DieOnlyTo(s, Others, m); }
  }

  lemma KillTimerKills(s: Server, m: Message)
    requires s.sent == [] && Kills(m) && m in s.KillWM().sent
    ensures s.phase == Killing && s.KillWM().phase == KillingWM
    ensures m == Quit ==> s.Select(WindowManagers, s.clients) == []
  {
    hide Server.KillWM, KillNews;
    KillingWm(s);
    assert [] + KillNews(s) == KillNews(s);
    if m in KillNews(s) { KillNewsSays(s, m); }
  }

  lemma SoundKills(s: Server, m: Message)
    requires s.sent == [] && Kills(m) && m in s.LogoutSoundFinished().sent
    ensures s.phase == WaitingForKNotify
    ensures m == Quit ==> s.LogoutSoundFinished().phase == KillingWM && s.Select(WindowManagers, s.clients) == []
    ensures m.Die? ==> !s.IsWM(m.to) || s.Select(Others, s.clients) == []
  {
    hide Server.LogoutSoundFinished, SoundNews;
    SoundIsFinished(s);
    if m in SoundNews(s) { SoundNewsSays(s, m); }
  }

  /** What the events that kill send, and whom that leaves. */
  lemma SoundOrTimerKills(s: Server, e: Event, nextId: ClientId, m: Message)
    requires s.WellFormed() && s.sent == [] && Kills(m) && (e.SoundFinished? || e.KillTimer?)
    ensures var t := Handle(s, nextId, e);
      m in t.sent ==>
        && s.phase != KillingWM
        && (m == Quit ==> t.phase == KillingWM && t.Select(WindowManagers, t.clients) == [])
        && (m.Die? ==> e.KillTimer? || !t.IsWM(m.to) || t.Select(Others, t.clients) == [])
  {
    hide Server.KillWM, Server.LogoutSoundFinished, Handle;
    KillHandled(s, nextId);
    var t := Handle(s, nextId, e);
    if m in t.sent {
      if e.KillTimer? { KillTimerKills(s, m); } else { SoundKills(s, m); }
      SelectSame(s, t, Others, s.clients);
      SelectSame(s, t, WindowManagers, s.clients);
    }
  }

  lemma KillHandled(s: Server, nextId: ClientId)
    requires s.WellFormed() && s.sent == []
    ensures Handle(s, nextId, KillTimer) == s.KillWM() && Handle(s, nextId, SoundFinished) == s.LogoutSoundFinished()
    ensures s.KillWM().clients == s.clients && s.KillWM().fixed == s.fixed
    ensures s.LogoutSoundFinished().clients == s.clients && s.LogoutSoundFinished().fixed == s.fixed
  {
    hide Server.KillWM, Server.LogoutSoundFinished, KillNews, SoundNews;
    KillingWm(s);
    SoundIsFinished(s);
  }

  /** Other events kill nobody. */
  lemma OthersKillNobody(s: Server, e: Event, nextId: ClientId, m: Message)
    requires s.WellFormed() && Knows(s, e) && s.sent == [] && s.phase != ClosingSubSession && Kills(m)
    requires !e.CloseSubSession? && !e.SoundFinished? && !e.KillTimer? && !e.WmKillTimer? && !e.Leave?
    ensures m !in Handle(s, nextId, e).sent
  {
    hide Handle;
    match e
    case Done(c) => ReportKillsNobody(s, c, e, nextId, m);
    case AskPhase2(c) => ReportKillsNobody(s, c, e, nextId, m);
    case ProtectionTimer => TimeoutKillsNobody(s, m); TimerHandled(s, nextId);
    case Logout(_, _) => RoundKillsNobody(s, nextId, e, m);
    case SaveSession => RoundKillsNobody(s, nextId, e, m);
    case AskInteract(c) => NothingSavedAsking(s, nextId, c);
    case EndInteract(c, cancel) => NothingSavedEnding(s, nextId, c, cancel);
    case _ => PlainEvents(s, nextId, e);
  }

  lemma TimerHandled(s: Server, nextId: ClientId)
    requires s.WellFormed()
    ensures Handle(s, nextId, ProtectionTimer) == s.ProtectionTimeout()
  {
    hide Server.ProtectionTimeout;
  }

  lemma PlainEvents(s: Server, nextId: ClientId, e: Event)
    requires s.WellFormed() && s.sent == [] && (e.Join? || e.SubSessionTimer? || e.StartupBegins? || e.StartupEnds?)
    ensures forall m :: m in Handle(s, nextId, e).sent ==> m == SubSessionClosed
  {
  }

  /** In a logout a window manager is told to die only when no other client is connected or the kill timer fired,
      and the server quits only when all clients are gone, no window manager is left to kill, or its timer fired. */
  lemma KillOrder(s: Server, nextId: ClientId, e: Event)
    requires s.WellFormed() && Knows(s, e) && s.sent == []
    requires s.phase != ClosingSubSession && !e.CloseSubSession?
    ensures var t := Handle(s, nextId, e);
      && (forall c :: Die(c) in t.sent && t.IsWM(c) ==> e.KillTimer? || forall d :: d in t.clients ==> t.IsWM(d))
      && (Quit in t.sent ==>
            || t.clients == [] || e.WmKillTimer?
            || (s.phase != KillingWM && t.phase == KillingWM && forall d :: d in t.clients ==> !t.IsWM(d)))
  {
    hide Handle, Server.DeleteClient;
    var t := Handle(s, nextId, e);
    forall m | Kills(m) && m in t.sent
      ensures m.Die? && t.IsWM(m.to) ==> e.KillTimer? || forall d :: d in t.clients ==> t.IsWM(d)
      ensures m == Quit ==>
            || t.clients == [] || e.WmKillTimer?
            || (s.phase != KillingWM && t.phase == KillingWM && forall d :: d in t.clients ==> !t.IsWM(d))
    {
      OneKilled(s, nextId, e, m);
    }
    assert Kills(Quit) && forall c :: Kills(Die(c));
  }

  lemma OneKilled(s: Server, nextId: ClientId, e: Event, m: Message)
    requires s.WellFormed() && Knows(s, e) && s.sent == [] && s.phase != ClosingSubSession && !e.CloseSubSession?
    requires Kills(m) && m in Handle(s, nextId, e).sent
    ensures var t := Handle(s, nextId, e);
      && (m.Die? && t.IsWM(m.to) ==> e.KillTimer? || forall d :: d in t.clients ==> t.IsWM(d))
      && (m == Quit ==>
            || t.clients == [] || e.WmKillTimer?
            || (s.phase != KillingWM && t.phase == KillingWM && forall d :: d in t.clients ==> !t.IsWM(d)))
  {
    hide Handle, Server.DeleteClient;
    var t := Handle(s, nextId, e);
    if e.SoundFinished? || e.KillTimer? {
      SoundOrTimerKills(s, e, nextId, m);
    } else if e.Leave? {
      LeavingKills(s, e.c, m);
      LeaveHandled(s, nextId, e.c);
    } else if e.WmKillTimer? {
      TimerQuits(s, nextId);
    } else {
      OthersKillNobody(s, e, nextId, m);
    }
    SelectedAll(t);
  }

  lemma SelectedAll(t: Server)
    ensures t.Select(Others, t.clients) == [] ==> forall d :: d in t.clients ==> t.IsWM(d)
    ensures t.Select(WindowManagers, t.clients) == [] ==> forall d :: d in t.clients ==> !t.IsWM(d)
  {
    forall d | d in t.clients
      ensures !t.IsWM(d) ==> d in t.Select(Others, t.clients)
      ensures t.IsWM(d) ==> d in t.Select(WindowManagers, t.clients)
    {
      assert t.IsWM(d) ==> t.Addressed(WindowManagers, d);
      assert !t.IsWM(d) ==> t.Addressed(Others, d);
    }
  }

  lemma LeaveHandled(s: Server, nextId: ClientId, c: ClientId)
    requires s.WellFormed() && c in s.flags
    ensures Handle(s, nextId, Leave(c)) == s.DeleteClient(c)
  {
    hide Server.DeleteClient;
  }

  lemma TimerQuits(s: Server, nextId: ClientId)
    requires s.WellFormed() && s.sent == []
    ensures Handle(s, nextId, WmKillTimer).sent == [Quit]
  {
  }

  lemma DieReaches(s: Server, who: Who, c: ClientId)
    requires c in s.clients && s.Addressed(who, c)
    ensures Die(c) in s.DieMessages(s.Select(who, s.clients)) && s.Select(who, s.clients) != []
  {
    var ids := s.Select(who, s.clients);
    assert c in ids;
    var k :| 0 <= k < |ids| && ids[k] == c;
    assert s.DieMessages(ids)[k] == Die(c);
  }

  /** When the logout sound is over every client but the window managers is told to die, and so is every window
      manager when their turn comes. */
  lemma EverybodyIsKilled(s: Server, c: ClientId)
    requires s.WellFormed() && s.sent == [] && c in s.clients
    ensures s.phase == WaitingForKNotify && !s.IsWM(c) ==> Die(c) in s.LogoutSoundFinished().sent
    ensures s.phase == WaitingForKNotify && s.LogoutSoundFinished().phase == KillingWM ==>
      Die(c) in s.LogoutSoundFinished().sent
    ensures s.phase == Killing && s.IsWM(c) ==> Die(c) in s.KillTimeout().sent
  {
    hide Server.KillWM, Server.LogoutSoundFinished, Server.Select;
    SoundIsFinished(s);
    KillingWm(s);
    assert [] + KillNews(s) == KillNews(s);
    DieReaches(s, if s.IsWM(c) then WindowManagers else Others, c);
  }

  /** The usual way there: when a departure leaves nobody but window managers, each of them is told to die. */
  lemma LastDepartureKills(s: Server, d: ClientId, c: ClientId)
    requires s.WellFormed() && s.phase == Killing && d in s.flags && c in s.clients && c != d
    ensures s.DeleteClient(d).phase == (if forall x :: x in s.clients && x != d ==> s.IsWM(x) then KillingWM else Killing)
    ensures (forall x :: x in s.clients && x != d ==> s.IsWM(x)) ==> Die(c) in s.DeleteClient(d).sent
  {
    hide Server.CompleteShutdownOrCheckpoint, Server.ContinueKilling, Server.Drop, Server.Select;
    DroppedWellFormed(s, d);
    var u := s.Drop(d);
    OutsideRounds(u);
    ContinuesKilling(u);
    DroppedClients(s, d);
    SelectedAll(u);
    if forall x :: x in s.clients && x != d ==> s.IsWM(x) {
      NoOthers(u);
      DieReaches(u, WindowManagers, c);
    }
  }

  lemma DroppedClients(s: Server, d: ClientId)
    requires s.WellFormed()
    ensures var u := s.Drop(d);
      && u.phase == s.phase && u.fixed == s.fixed && (forall x :: x in u.clients <==> x in s.clients && x != d)
      && forall x :: u.IsWM(x) <==> s.IsWM(x)
  {
    hide Server.FirstPending, Removed;
  }

  lemma NoOthers(u: Server)
    requires forall x :: x in u.clients ==> u.IsWM(x)
    ensures u.Select(Others, u.clients) == []
  {
    NoneAddressed(u, Others, u.clients);
  }

  lemma {:induction false} NoneAddressed(u: Server, who: Who, ids: seq<ClientId>)
    requires forall x :: x in ids ==> !u.Addressed(who, x)
    ensures u.Select(who, ids) == []
  {
    if ids != [] { NoneAddressed(u, who, ids[..|ids| - 1]); }
  }
}
