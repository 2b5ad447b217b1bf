/**
 Rounds and what they were begun for: what was asked for when a round began decides whom it asks to save and how, and
 whether and where it stores the session in the end.
 */
module SessionPlan {
  import opened Picking
  import opened SessionEntries
  import opened SessionMeaning
  import opened SessionModel
  import opened SessionRounds
  import opened SessionRuns
  import opened SessionSafety
  import opened SessionStore

  /** What is known of the last round from the request that began it: what its clients are to save, whether the session is
      stored, in which group, and for a part of the session which clients it is about and which of them are closed. */
  datatype Plan = Plan(saveType: SaveType, stores: bool, group: string, named: set<string>, closed: set<string>)

  /** A logout stores the session only if it is asked to; a checkpoint and the closing of a part of it always do. A
      checkpoint keeps to the session that is open, unless that has no name or is the one of the previous logout. */
  function PlanOf(p: Plan, e: Event): Plan {
    match e
    case Logout(_, save) =>
      if save then Plan(SaveBoth, true, "Session: saved at previous logout", {}, {}) else Plan(SaveGlobal, false, p.group, {}, {})
    case SaveSession =>
      Plan(SaveLocal, true,
           if "Session: " < p.group && p.group != "Session: saved at previous logout" then p.group else "Session: saved by user",
           {}, {})
    case CloseSubSession(name, close, only) => Plan(SaveBoth, true, "SubSession: " + name, close + only, close)
    case _ => p
  }

  datatype Noted = Noted(r: Run, plan: Plan)

  ghost function Note(n: Noted, e: Event): Noted
    requires n.r.s.WellFormed() && Knows(n.r.s, e)
  {
    Noted(Step(n.r, e), if StartsRound(n.r.s, e) then PlanOf(n.plan, e) else n.plan)
  }

  ghost function SavingOf(p: Plan, config: map<string, Group>): Saving { Saving(p.saveType, p.stores, p.group, config) }

  /** A client that was there when the round began, registered under one of these names. */
  ghost predicate NamedMember(r: Run, c: ClientId, names: set<string>) { InPart(r.s, r.begunAt, c, names) }

  /** A client with a smaller identity than b, registered under one of these names. */
  ghost predicate InPart(s: Server, b: ClientId, c: ClientId, names: set<string>) {
    c in s.clients && c < b && c in s.fixed.props && s.fixed.props[c].clientId in names
  }

  /** The server saves as it was asked to. */
  ghost predicate Planned(n: Noted) {
    && n.r.s.saving == SavingOf(n.plan, n.r.s.saving.config)
    && (n.r.s.phase == ClosingSubSession || n.r.s.phase == KillingSubSession ==>
          && (forall c :: c in n.r.s.sub.toSave <==> NamedMember(n.r, c, n.plan.named))
          && (forall c :: c in n.r.s.sub.toKill <==> NamedMember(n.r, c, n.plan.closed)))
  }

  // ---- handlers that may end a round ----

  /** The handlers of these events may end the round. */
  ghost predicate Completing(s: Server, e: Event) {
    || (e.Done? && s.phase != Idle) || e.AskPhase2? || (e.Leave? && e.c in s.clients)
    || (e.ProtectionTimer? && s.InRound() && s.interacting.None?)
    || StartsRound(s, e)
  }

  /** What they do afterwards has no part in saving; the round's requests to save are as they were. */
  ghost predicate GoesOn(u: Server, t: Server) {
    && Extends(u, t) && t.saving == u.saving && t.clients == u.clients && t.fixed == u.fixed && (t.InRound() <==> u.InRound())
    && (t.phase == ClosingSubSession || t.phase == KillingSubSession ==> t.phase == u.phase && t.sub == u.sub)
    && forall m :: m in News(u, t) ==> Asks(u, m) || m.Die? || m.Quit? || m.SubSessionClosed?
  }

  /** The server just before the round may end. */
  ghost predicate Enters(s: Server, e: Event, p: Plan, q: Server)
  {
    && q.WellFormed() && q.fixed == s.fixed
    && q.saving == SavingOf(p, s.saving.config)
    && q.clients == (if e.Leave? then Removed(s.clients, e.c) else s.clients)
    && (forall m :: m in q.sent ==> Asks(q, m) || m.Interact?)
    && (!StartsRound(s, e) ==>
          && q.phase == s.phase && q.sub.toSave == (if e.Leave? then Removed(s.sub.toSave, e.c) else s.sub.toSave)
          && q.sub.toKill == (if e.Leave? then Removed(s.sub.toKill, e.c) else s.sub.toKill))
    && (StartsRound(s, e) ==> q.phase == if e.Logout? then Shutdown else if e.SaveSession? then Checkpoint else ClosingSubSession)
    && (StartsRound(s, e) && !e.CloseSubSession? ==>
          forall m :: m in q.sent <==>
            Asks(q, m) && m.to in s.clients && ((exists d :: d in s.clients && IsWm(s, d)) ==> IsWm(s, m.to)))
    && (StartsRound(s, e) && e.CloseSubSession? ==>
          && (forall m :: m in q.sent <==> Asks(q, m) && m.to in q.sub.toSave)
          && (forall c: ClientId :: c in q.sub.toSave <==> c in s.clients && c in s.fixed.props && s.fixed.props[c].clientId in p.named)
          && (forall c: ClientId :: c in q.sub.toKill <==> c in s.clients && c in s.fixed.props && s.fixed.props[c].clientId in p.closed))
  }

  lemma DoneCompletes(s: Server, nextId: ClientId, c: ClientId, p: Plan) returns (q: Server)
    requires s.WellFormed() && s.sent == [] && c in s.flags && s.phase != Idle && s.saving == SavingOf(p, s.saving.config)
    ensures Enters(s, Done(c), p, q)
    ensures q.WellFormed() && GoesOn(q.CompleteShutdownOrCheckpoint(), Handle(s, nextId, Done(c)))
  {
    hide Server.CompleteShutdownOrCheckpoint, Server.WmReported, Asks, IsWm;
    q := s.(flags := s.flags[c := s.flags[c].(saveYourselfDone := true)]);
    var u := q.CompleteShutdownOrCheckpoint().(protection := true);
    ReportingAsks(u, c, !s.flags[c].wasPhase2);
    SameAsks(q.CompleteShutdownOrCheckpoint(), u);
  }

  lemma SameAsks(s: Server, t: Server)
    requires s.saving == t.saving
    ensures forall m :: Asks(s, m) <==> Asks(t, m)
  {
  }

  lemma AskPhase2Completes(s: Server, nextId: ClientId, c: ClientId, p: Plan) returns (q: Server)
    requires s.WellFormed() && s.sent == [] && c in s.flags && s.saving == SavingOf(p, s.saving.config)
    ensures Enters(s, AskPhase2(c), p, q)
    ensures q.WellFormed() && GoesOn(q.CompleteShutdownOrCheckpoint(), Handle(s, nextId, AskPhase2(c)))
  {
    hide Server.CompleteShutdownOrCheckpoint, Server.WmReported, Asks, IsWm;
    q := s.(flags := s.flags[c := s.flags[c].(waitForPhase2 := true, wasPhase2 := true)]);
    var u := q.CompleteShutdownOrCheckpoint();
    ReportingAsks(u, c, true);
  }

  lemma TimeoutCompletes(s: Server, nextId: ClientId, p: Plan) returns (q: Server)
    requires s.WellFormed() && s.sent == [] && s.InRound() && s.interacting.None? && s.saving == SavingOf(p, s.saving.config)
    ensures Enters(s, ProtectionTimer, p, q)
    ensures q.WellFormed() && GoesOn(q.CompleteShutdownOrCheckpoint(), Handle(s, nextId, ProtectionTimer))
  {
    hide Server.CompleteShutdownOrCheckpoint, Asks, IsWm;
    q := s.(protection := false, flags := GiveUp(s.flags, s.clients));
    var u := q.CompleteShutdownOrCheckpoint();
    assert News(u, u.(protection := true)) == [];
  }

  lemma LeavingCompletes(s: Server, nextId: ClientId, c: ClientId, p: Plan) returns (q: Server)
    requires s.WellFormed() && s.sent == [] && c in s.flags && c in s.clients && s.saving == SavingOf(p, s.saving.config)
    ensures Enters(s, Leave(c), p, q)
    ensures q.WellFormed() && GoesOn(q.CompleteShutdownOrCheckpoint(), Handle(s, nextId, Leave(c)))
  {
    hide Server.CompleteShutdownOrCheckpoint, Asks, IsWm, Server.ContinueKilling, Server.Drop, GoesOn, Removed;
    DroppedWellFormed(s, c);
    q := s.Drop(c);
    DroppedIs(s, c);
    ContinuingGoesOn(q.CompleteShutdownOrCheckpoint());
  }

  lemma ContinuingGoesOn(u: Server)
    ensures GoesOn(u, u.ContinueKilling())
  {
    hide Asks, Server.ContinueKilling, ContinueNews, Server.Select;
    ContinuesKilling(u);
    assert News(u, u.ContinueKilling()) == ContinueNews(u);
  }

  lemma DroppedIs(s: Server, c: ClientId)
    requires s.WellFormed() && s.sent == []
    ensures var q := s.Drop(c);
      && q.clients == Removed(s.clients, c) && q.fixed == s.fixed && q.saving == s.saving && q.phase == s.phase
      && q.sub == SubSession(Removed(s.sub.toSave, c), Removed(s.sub.toKill, c)) && forall m :: m in q.sent ==> m.Interact?
  {
    hide Removed;
  }

  /** Nobody has answered yet. */
  lemma FreshGoesOn(s: Server, t: Server)
    requires s.WellFormed() && t.WellFormed() && BeginsAll(s, t) && t.clients != []
    ensures t.CompleteShutdownOrCheckpoint() == t
  {
    hide Server.CompleteShutdownOrCheckpoint, Ends, BeginsPhase2, Server.Select, Server.CountWMs, Server.SaveMessages;
    CompletionIs(t);
    var c := t.clients[0];
    assert c in s.clients && Member(t, c) && !Answered(t, c);
  }

  lemma GoesOnItself(u: Server)
    ensures GoesOn(u, u)
  {
    assert News(u, u) == [];
  }

  lemma StartCompletes(s: Server, nextId: ClientId, e: Event, p: Plan) returns (q: Server)
    requires s.WellFormed() && s.sent == [] && StartsRound(s, e) && !e.CloseSubSession? && s.saving == SavingOf(p, s.saving.config)
    ensures Enters(s, e, PlanOf(p, e), q)
    ensures q.WellFormed() && GoesOn(q.CompleteShutdownOrCheckpoint(), Handle(s, nextId, e))
  {
    hide Server.CompleteShutdownOrCheckpoint, Asks, IsWm, BeginsAll, GoesOn, Server.CurrentSession, Enters, Server.CompleteIfNoClients;
    assert s.(sent := []) == s;
    if e.Logout? {
      q := LogoutBegins(s, e.save);
    } else {
      q := SaveSessionBegins(s);
      KeepsToGroup(s);
    }
    if q.clients != [] { FreshGoesOn(s, q); }
    CompletesIfNone(q);
    GoesOnItself(q.CompleteShutdownOrCheckpoint());
    BegunEnters(s, e, p, q);
    StartHandled(s, nextId, e);
  }

  lemma CompletesIfNone(q: Server)
    requires q.WellFormed() && (q.clients != [] ==> q.CompleteShutdownOrCheckpoint() == q)
    ensures q.CompleteIfNoClients() == q.CompleteShutdownOrCheckpoint()
  {
    hide Server.CompleteShutdownOrCheckpoint;
  }

  lemma StartHandled(s: Server, nextId: ClientId, e: Event)
    requires s.WellFormed() && StartsRound(s, e) && !e.CloseSubSession?
    ensures Handle(s, nextId, e) == if e.Logout? then s.ShutdownEvent(true, e.save) else s.SaveCurrentSession()
  {
    hide Server.ShutdownEvent, Server.SaveCurrentSession;
  }

  lemma BegunEnters(s: Server, e: Event, p: Plan, q: Server)
    requires s.WellFormed() && q.WellFormed() && StartsRound(s, e) && !e.CloseSubSession? && BeginsAll(s, q)
    requires q.saving == SavingOf(PlanOf(p, e), s.saving.config) && q.phase == if e.Logout? then Shutdown else Checkpoint
    ensures Enters(s, e, PlanOf(p, e), q)
  {
    hide Asks, IsWm, BeginsAll, PlanOf;
    BeginningAsks(s, q);
    BegunWith(s, q);
  }

  lemma KeepsToGroup(s: Server)
    ensures s.CurrentSession() == "" || s.saving.sessionGroup == PREVIOUS_LOGOUT <==>
      !("Session: " < s.saving.sessionGroup && s.saving.sessionGroup != "Session: saved at previous logout")
  {
  }

  lemma BegunWith(s: Server, q: Server)
    requires BeginsAll(s, q)
    ensures q.clients == s.clients && q.fixed == s.fixed
  {
  }

  lemma ClosingCompletes(s: Server, nextId: ClientId, e: Event, p: Plan) returns (q: Server)
    requires s.WellFormed() && s.sent == [] && StartsRound(s, e) && e.CloseSubSession? && s.saving == SavingOf(p, s.saving.config)
    requires s.sub == NO_SUB
    ensures Enters(s, e, PlanOf(p, e), q)
    ensures q.WellFormed() && GoesOn(q.CompleteShutdownOrCheckpoint(), Handle(s, nextId, e))
  {
    hide Server.CompleteShutdownOrCheckpoint, Asks, IsWm, BeginsSome, GoesOn;
    assert s.(sent := []) == s;
    q := ClosingBegins(s, e.name, e.saveAndClose, e.saveOnly);
    GoesOnItself(q.CompleteShutdownOrCheckpoint());
    ClosingAsks(s, q, e.saveAndClose + e.saveOnly, e.saveAndClose);
    ClosedWith(s, q, e.saveAndClose + e.saveOnly, e.saveAndClose);
  }

  lemma ClosedWith(s: Server, q: Server, names: set<string>, closed: set<string>)
    requires BeginsSome(s, q, s.Named(s.clients, names), s.Named(s.clients, closed))
    ensures q.clients == s.clients && q.fixed == s.fixed && q.phase == ClosingSubSession
  {
  }

  lemma HandlerCompletes(s: Server, nextId: ClientId, e: Event, p: Plan) returns (q: Server)
    requires s.WellFormed() && s.sent == [] && Knows(s, e) && Completing(s, e) && s.saving == SavingOf(p, s.saving.config)
    requires s.phase == Idle ==> s.sub == NO_SUB
    ensures Enters(s, e, if StartsRound(s, e) then PlanOf(p, e) else p, q)
    ensures q.WellFormed() && GoesOn(q.CompleteShutdownOrCheckpoint(), Handle(s, nextId, e))
  {
    hide Handle, Server.CompleteShutdownOrCheckpoint, Enters, GoesOn, PlanOf;
    match e
    case Done(c) => q := DoneCompletes(s, nextId, c, p);
    case AskPhase2(c) => q := AskPhase2Completes(s, nextId, c, p);
    case Leave(c) => q := LeavingCompletes(s, nextId, c, p);
    case ProtectionTimer => q := TimeoutCompletes(s, nextId, p);
    case CloseSubSession(_, _, _) => q := ClosingCompletes(s, nextId, e, p);
    case _ => q := StartCompletes(s, nextId, e, p);
  }

  // ---- handlers that do not ----

  /** They leave alone what is to be saved and where, and a round that is on is only cancelled by them. */
  ghost predicate StaysOut(s: Server, nextId: ClientId, e: Event, t: Server) {
    && t.saving == s.saving && (s.InRound() && !t.InRound() ==> e.EndInteract?) && (!s.InRound() ==> !t.InRound())
    && (forall m :: m in t.sent ==> !m.SaveYourself? && !m.SaveYourselfPhase2? && !m.Stored? && !m.Discarded? && !m.SaveComplete?)
    && (t.phase == ClosingSubSession || t.phase == KillingSubSession ==> t.phase == s.phase && t.sub == s.sub)
    && (forall c :: c in s.clients ==> c in t.clients) && (forall c :: c in t.clients ==> c in s.clients || c == nextId)
    && (forall c :: c in s.fixed.props && c != nextId ==> c in t.fixed.props && t.fixed.props[c] == s.fixed.props[c])
  }

  lemma OthersStayOut(s: Server, nextId: ClientId, e: Event)
    requires s.WellFormed() && s.sent == [] && Knows(s, e) && !Completing(s, e)
    ensures StaysOut(s, nextId, e, Handle(s, nextId, e))
  {
    hide StaysOut;
    match e
    case Done(c) => LateDoneStaysOut(s, nextId, c);
    case SoundFinished => KillingStaysOut(s, nextId, e);
    case KillTimer => KillingStaysOut(s, nextId, e);
    case AskInteract(c) => AskingStaysOut(s, nextId, c);
    case EndInteract(c, cancel) => EndingStaysOut(s, nextId, c, cancel);
    case _ => RestStaysOut(s, nextId, e);
  }

  lemma LateDoneStaysOut(s: Server, nextId: ClientId, c: ClientId)
    requires s.WellFormed() && s.sent == [] && c in s.flags && s.phase == Idle
    ensures StaysOut(s, nextId, Done(c), Handle(s, nextId, Done(c)))
  {
    hide Handle, ThrowsAway;
    LateDoneIs(s, nextId, c);
    CommandsOnly(s, nextId, c);
  }

  lemma KillingStaysOut(s: Server, nextId: ClientId, e: Event)
    requires s.WellFormed() && s.sent == [] && (e.SoundFinished? || e.KillTimer?)
    ensures StaysOut(s, nextId, e, Handle(s, nextId, e))
  {
    hide Server.KillWM, Server.LogoutSoundFinished, SoundNews, KillNews, Server.Select;
    if e.SoundFinished? { SoundIsFinished(s); } else { KillingWm(s); }
  }

  lemma AskingStaysOut(s: Server, nextId: ClientId, c: ClientId)
    requires s.WellFormed() && s.sent == [] && c in s.flags
    ensures StaysOut(s, nextId, AskInteract(c), Handle(s, nextId, AskInteract(c)))
  {
    hide Server.HandlePendingInteractions;
    TurnStaysOut(s.(flags := s.flags[c := s.flags[c].(pendingInteraction := true)]));
    TurnStaysOut(s.Send([Interact(c)]));
  }

  lemma EndingStaysOut(s: Server, nextId: ClientId, c: ClientId, cancel: bool)
    requires s.WellFormed() && s.sent == [] && c in s.flags
    ensures StaysOut(s, nextId, EndInteract(c, cancel), Handle(s, nextId, EndInteract(c, cancel)))
  {
    hide Server.HandlePendingInteractions, Server.CancelShutdown, Cancels;
    if s.interacting == Some(c) && cancel {
      hide Handle;
      CancellingIs(s, nextId, c);
      CancelsOnly(s);
    } else {
      TurnStaysOut(s.(interacting := None));
    }
  }

  lemma RestStaysOut(s: Server, nextId: ClientId, e: Event)
    requires s.WellFormed() && s.sent == [] && Knows(s, e) && !Completing(s, e)
    requires !e.Done? && !e.SoundFinished? && !e.KillTimer? && !e.AskInteract? && !e.EndInteract?
    ensures StaysOut(s, nextId, e, Handle(s, nextId, e))
  {
    hide Server.CompleteShutdownOrCheckpoint, Server.AskFirst, Server.AddToSubSession;
  }

  lemma TurnStaysOut(s: Server)
    ensures var t := s.HandlePendingInteractions();
      && t == s.(interacting := t.interacting, flags := t.flags, protection := t.protection, sent := t.sent)
      && forall m :: m in t.sent ==> m in s.sent || m.Interact?
  {
  }

  lemma CommandsOnly(s: Server, nextId: ClientId, c: ClientId)
    ensures forall m :: ThrowsAway(s, c, m) ==> m.RunCommand?
  {
  }

  lemma CancelsOnly(s: Server)
    ensures forall m :: Cancels(s, s.clients, m) ==> m.ShutdownCancelled? || m.RunCommand?
  {
  }

  // ---- steps ----

  /** The event ends the round that was on or that it has begun; the client that interacts may cancel one, but ends none. */
  ghost predicate Over(r: Run, e: Event)
    requires r.s.WellFormed() && Knows(r.s, e)
  {
    (r.s.InRound() || StartsRound(r.s, e)) && !Step(r, e).s.InRound() && !e.EndInteract?
  }

  /** Whom the list of clients holds after the event, in the order they had before it. */
  ghost function Remaining(r: Run, e: Event): seq<ClientId> {
    if e.Leave? then Removed(r.s.clients, e.c) else r.s.clients
  }

  /** Those of the part of the session the round is about that are not left out. */
  ghost function MembersOf(r: Run, p: Plan): ClientId -> bool {
    (c: ClientId) => NamedMember(r, c, p.named) && !LeftOut(r.s.fixed.props[c].list, r.s.fixed.excludeApps)
  }

  /** What has been stored when the round is over: an entry for each client that is not left out, the first window
      manager's in front, or for each client of the part of the session that is closed; in the planned group, and nowhere
      else. */
  ghost predicate StoredAsPlanned(n: Noted, e: Event, stored: seq<ClientId>)
    requires n.r.s.WellFormed() && Knows(n.r.s, e)
  {
    var r, s, q, p := n.r, n.r.s, Note(n, e).r, Note(n, e).plan;
    && (if s.phase == ClosingSubSession || e.CloseSubSession? then Picks(stored, q.s.clients, MembersOf(q, p))
        else WmInFront(s.(clients := Remaining(r, e)), q.s.clients)
             && Picks(stored, q.s.clients, NotLeftOut(q.s.fixed.props, q.s.fixed.excludeApps)))
    && p.group in q.s.saving.config && Writes(q.s.saving.config[p.group], stored, q.s.fixed.props, q.s.fixed.wm)
    && q.s.saving.config == s.saving.config[p.group := q.s.saving.config[p.group]]
  }

  /** The session is stored when a round that is to store it is over, discarded when another one is, and otherwise neither. */
  ghost predicate SavesAsPlanned(n: Noted, e: Event)
    requires n.r.s.WellFormed() && Knows(n.r.s, e)
  {
    var q, p := Note(n, e).r, Note(n, e).plan;
    && (Stored in q.s.sent <==> Over(n.r, e) && p.stores)
    && (Discarded in q.s.sent <==> Over(n.r, e) && !p.stores)
    && (if Over(n.r, e) && p.stores then exists stored :: StoredAsPlanned(n, e, stored)
        else q.s.saving.config == n.r.s.saving.config)
    && (forall m :: m in q.s.sent && m.SaveYourself? ==>
          m.saveType == p.saveType && m.shutdown == (p.saveType != SaveLocal) && m.interactAny == (p.saveType != SaveLocal))
  }

  /** Just before a round may end, its members are those it was planned for. */
  ghost predicate MembersPlanned(n: Noted, e: Event, q: Server)
    requires n.r.s.WellFormed() && Knows(n.r.s, e)
  {
    var b, p := Note(n, e).r.begunAt, Note(n, e).plan;
    && (forall c: ClientId :: c in q.sub.toSave <==> InPart(q, b, c, p.named))
    && (forall c: ClientId :: c in q.sub.toKill <==> InPart(q, b, c, p.closed))
  }

  lemma StepBegins(r: Run, e: Event)
    requires r.s.WellFormed() && Knows(r.s, e)
    ensures Step(r, e).begunAt == if StartsRound(r.s, e) then r.nextId else r.begunAt
    ensures Step(r, e).s == Handle(r.s.(sent := []), r.nextId, e)
  {
    hide Handle;
  }

  lemma EntersPlanned(n: Noted, e: Event, q: Server)
    requires Bookkeeping(n.r) && Knows(n.r.s, e) && Planned(n) && Enters(n.r.s.(sent := []), e, Note(n, e).plan, q)
    requires q.phase == ClosingSubSession || q.phase == KillingSubSession
    ensures MembersPlanned(n, e, q)
  {
    hide Step, Asks, IsWm, PlanOf, Enters, Bookkeeping, Planned, MembersPlanned;
    BooksWell(n.r);
    StepBegins(n.r, e);
    EntersMembers(n.r.s.(sent := []), e, Note(n, e).plan, q);
    OldMembers(n);
    var b, p := Note(n, e).r.begunAt, Note(n, e).plan;
    forall c: ClientId ensures c in q.sub.toSave <==> InPart(q, b, c, p.named) {
      assert NamedMember(n.r, c, n.plan.named) <==>
        c in n.r.s.clients && c < n.r.begunAt && c in n.r.s.fixed.props && n.r.s.fixed.props[c].clientId in n.plan.named;
    }
    forall c: ClientId ensures c in q.sub.toKill <==> InPart(q, b, c, p.closed) {
      assert NamedMember(n.r, c, n.plan.closed) <==>
        c in n.r.s.clients && c < n.r.begunAt && c in n.r.s.fixed.props && n.r.s.fixed.props[c].clientId in n.plan.closed;
    }
    MembersPlannedThen(n, e, q);
  }

  lemma MembersPlannedThen(n: Noted, e: Event, q: Server)
    requires n.r.s.WellFormed() && Knows(n.r.s, e)
    requires var b, p := Note(n, e).r.begunAt, Note(n, e).plan;
      && (forall c: ClientId :: c in q.sub.toSave <==> InPart(q, b, c, p.named))
      && (forall c: ClientId :: c in q.sub.toKill <==> InPart(q, b, c, p.closed))
    ensures MembersPlanned(n, e, q)
  {
    hide Step, PlanOf;
  }

  lemma EntersMembers(s: Server, e: Event, p: Plan, q: Server)
    requires Enters(s, e, p, q)
    ensures q.fixed == s.fixed && forall c :: c in q.clients <==> c in s.clients && (e.Leave? ==> c != e.c)
    ensures !StartsRound(s, e) ==> q.phase == s.phase && forall c: ClientId :: c in q.sub.toSave <==> c in s.sub.toSave && (e.Leave? ==> c != e.c)
    ensures !StartsRound(s, e) ==> forall c: ClientId :: c in q.sub.toKill <==> c in s.sub.toKill && (e.Leave? ==> c != e.c)
    ensures StartsRound(s, e) && q.phase == ClosingSubSession ==>
      && (forall c: ClientId :: c in q.sub.toSave <==> c in s.clients && c in s.fixed.props && s.fixed.props[c].clientId in p.named)
      && (forall c: ClientId :: c in q.sub.toKill <==> c in s.clients && c in s.fixed.props && s.fixed.props[c].clientId in p.closed)
    ensures StartsRound(s, e) ==> q.phase != KillingSubSession
  {
    hide Asks, IsWm, Server.WellFormed;
  }

  lemma OldMembers(n: Noted)
    requires Bookkeeping(n.r) && Planned(n)
    ensures forall c :: c in n.r.s.clients ==> c < n.r.nextId
    ensures n.r.s.phase == ClosingSubSession || n.r.s.phase == KillingSubSession ==>
      && (forall c :: c in n.r.s.sub.toSave <==> NamedMember(n.r, c, n.plan.named))
      && (forall c :: c in n.r.s.sub.toKill <==> NamedMember(n.r, c, n.plan.closed))
  {
    hide NamedMember;
  }

  /** Everybody in the round has answered, and phase 2 is owed to nobody. */
  ghost predicate Ending(q: Server) {
    q.InRound() && forall c :: Member(q, c) ==> Answered(q, c) && !WantsPhase2(q, c)
  }

  /** What completing leaves alone unless it ends the round. */
  ghost predicate SamePlan(q: Server, u: Server) {
    u.phase == q.phase && u.saving == q.saving && u.clients == q.clients && u.fixed == q.fixed && u.sub == q.sub
  }

  lemma CompletionParts(q: Server)
    requires q.WellFormed()
    ensures var u := q.CompleteShutdownOrCheckpoint();
      && Extends(q, u) && (if Ending(q) then Ends(q, u) else SamePlan(q, u))
      && (!Ending(q) ==> forall m :: m in News(q, u) ==> m.SaveYourselfPhase2?)
  {
    hide Server.CompleteShutdownOrCheckpoint, Ends, Answered, WantsPhase2;
    CompletionIs(q);
    var u := q.CompleteShutdownOrCheckpoint();
    if Ending(q) { EndsExtends(q, u); }
    else if u == q { assert News(q, q) == []; }
  }

  lemma EndsExtends(q: Server, u: Server)
    requires Ends(q, u)
    ensures Extends(q, u)
  {
  }

  /** The end of a round is the end of it. */
  lemma EndingMoves(q: Server, u: Server)
    requires q.WellFormed() && q.InRound() && Ends(q, u)
    ensures !u.InRound() && u.fixed == q.fixed && u.saving == q.saving.(config := u.saving.config)
    ensures u.phase == ClosingSubSession || u.phase == KillingSubSession ==> q.phase == ClosingSubSession && u.sub == q.sub
    ensures forall c :: c in u.clients <==> c in q.clients
    ensures (Stored in News(q, u) <==> q.saving.saveSession) && (Discarded in News(q, u) <==> !q.saving.saveSession)
    ensures forall m :: m in News(q, u) ==> !m.SaveYourself?
  {
    hide InOld, Used, IsWm, Writes, Picks;
    if q.saving.saveSession {
      var stored :| Stores(q, u, stored);
      StoresMoves(q, u, stored);
    }
  }

  lemma StoresMoves(q: Server, u: Server, stored: seq<ClientId>)
    requires Stores(q, u, stored)
    ensures u.saving == q.saving.(config := u.saving.config)
    ensures forall c :: c in u.clients <==> c in q.clients
  {
    hide IsWm, Writes, Picks;
    if q.phase != ClosingSubSession {
      if k: nat :| FirstWmAt(q, k) {
        assert u.clients == [q.clients[k]] + q.clients[..k] + q.clients[k + 1..];
        assert q.clients == q.clients[..k] + [q.clients[k]] + q.clients[k + 1..];
      }
    }
  }

  lemma SentParts(q: Server, u: Server, t: Server)
    requires Extends(q, u) && Extends(u, t)
    ensures forall m :: m in t.sent <==> m in q.sent || m in News(q, u) || m in News(u, t)
  {
    assert t.sent == q.sent + News(q, u) + News(u, t);
  }

  /** All that matters of a handler that has completed. */
  ghost predicate Completed(q: Server, t: Server) {
    && q.WellFormed()
    && (forall m :: m in t.sent && m.SaveYourself? ==> Asks(q, m))
    && (Stored in t.sent <==> Ending(q) && q.saving.saveSession) && (Discarded in t.sent <==> Ending(q) && !q.saving.saveSession)
    && (t.InRound() <==> q.InRound() && !Ending(q))
    && t.fixed == q.fixed && t.saving == q.saving.(config := t.saving.config)
    && (t.phase == ClosingSubSession || t.phase == KillingSubSession ==>
          t.sub == q.sub && (q.phase == ClosingSubSession || q.phase == KillingSubSession))
    && (forall c :: c in t.clients <==> c in q.clients)
    && (if Ending(q) && q.saving.saveSession then exists stored :: Stores(q, t, stored) else t.saving == q.saving)
    && (!Ending(q) ==> t.clients == q.clients)
  }

  lemma CompletesThen(s: Server, e: Event, p: Plan, q: Server, t: Server)
    requires Enters(s, e, p, q) && q.WellFormed() && GoesOn(q.CompleteShutdownOrCheckpoint(), t)
    ensures Completed(q, t)
  {
    hide Server.CompleteShutdownOrCheckpoint, IsWm, Ends, Ending, Asks, Stores;
    var u := q.CompleteShutdownOrCheckpoint();
    CompletionParts(q);
    SentParts(q, u, t);
    EndingInRound(q);
    if Ending(q) {
      EndingMoves(q, u);
      SameRequests(q, u);
      EndingStores(q, u, t);
    } else {
      SameRequests(q, u);
    }
  }

  lemma EndingInRound(q: Server)
    ensures Ending(q) ==> q.InRound()
  {
  }

  lemma SameRequests(q: Server, u: Server)
    ensures u.saving.saveType == q.saving.saveType ==> forall m :: Asks(u, m) <==> Asks(q, m)
    ensures forall m :: Asks(u, m) || m.Interact? || m.Die? || m.Quit? || m.SubSessionClosed? ==> !m.Stored? && !m.Discarded?
    ensures forall m :: Asks(q, m) || m.Interact? ==> !m.Stored? && !m.Discarded?
    ensures forall m :: Asks(u, m) ==> m.SaveYourself?
    ensures forall m :: Asks(q, m) ==> m.SaveYourself?
  {
  }

  lemma EndingStores(q: Server, u: Server, t: Server)
    requires Ends(q, u) && t.saving == u.saving && t.clients == u.clients
    ensures if q.saving.saveSession then exists stored :: Stores(q, t, stored) else t.saving == q.saving
  {
    hide WmInFront, Picks, Writes, EndSends, EndMoves;
    if q.saving.saveSession {
      var stored :| Stores(q, u, stored);
      StoresToo(q, u, t, stored);
    }
  }

  lemma OverIs(n: Noted, e: Event, q: Server)
    requires n.r.s.WellFormed() && Knows(n.r.s, e) && Completing(n.r.s, e)
    requires Enters(n.r.s.(sent := []), e, Note(n, e).plan, q) && Completed(q, Step(n.r, e).s)
    ensures Over(n.r, e) <==> Ending(q)
  {
    hide Step, Asks, IsWm, Ending, Stores, PlanOf;
    EndingInRound(q);
  }

  lemma CompletedSaves(n: Noted, e: Event, q: Server)
    requires Bookkeeping(n.r) && Knows(n.r.s, e) && Planned(n) && Completing(n.r.s, e)
    requires Enters(n.r.s.(sent := []), e, Note(n, e).plan, q) && Completed(q, Step(n.r, e).s)
    ensures SavesAsPlanned(n, e)
  {
    hide Step, IsWm, Ending, Stores, PlanOf, StoredAsPlanned, Over, Bookkeeping, Planned;
    BooksWell(n.r);
    OverIs(n, e, q);
    EntersSaving(n, e, q);
    if Ending(q) && q.saving.saveSession {
      var stored :| Stores(q, Step(n.r, e).s, stored);
      EndingInRound(q);
      StoredIs(n, e, q, stored);
    }
  }

  lemma BooksWell(r: Run)
    requires Bookkeeping(r)
    ensures r.s.WellFormed() && (r.s.phase == Idle ==> r.s.sub == NO_SUB)
  {
  }

  lemma EntersSaving(n: Noted, e: Event, q: Server)
    requires n.r.s.WellFormed() && Knows(n.r.s, e) && Enters(n.r.s.(sent := []), e, Note(n, e).plan, q)
    ensures q.saving == SavingOf(Note(n, e).plan, n.r.s.saving.config)
  {
    hide Step, PlanOf, Asks, IsWm;
  }

  lemma StoredIs(n: Noted, e: Event, q: Server, stored: seq<ClientId>)
    requires Bookkeeping(n.r) && Knows(n.r.s, e) && Planned(n) && q.InRound() && Completing(n.r.s, e)
    requires Enters(n.r.s.(sent := []), e, Note(n, e).plan, q) && Step(n.r, e).s.fixed == q.fixed
    requires Stores(q, Step(n.r, e).s, stored)
    ensures StoredAsPlanned(n, e, stored)
  {
    hide Step, IsWm, PlanOf, Bookkeeping, Planned, Picks, Writes, WmInFront, LeftOut, Asks, MembersPlanned;
    BooksWell(n.r);
    EntersPhase(n, e, q);
    if q.phase == ClosingSubSession {
      EntersPlanned(n, e, q);
      MembersPicked(n, e, q, stored);
    } else {
      SameFront(q, n.r.s.(clients := Remaining(n.r, e)), Step(n.r, e).s.clients);
    }
  }

  lemma EntersPhase(n: Noted, e: Event, q: Server)
    requires n.r.s.WellFormed() && Knows(n.r.s, e) && q.InRound() && Completing(n.r.s, e)
    requires Enters(n.r.s.(sent := []), e, Note(n, e).plan, q)
    ensures q.phase == ClosingSubSession <==> n.r.s.phase == ClosingSubSession || e.CloseSubSession?
    ensures q.clients == Remaining(n.r, e) && q.fixed == n.r.s.fixed
  {
    hide Step, IsWm, PlanOf, Asks;
  }

  lemma SameFront(q: Server, s: Server, ids: seq<ClientId>)
    requires WmInFront(q, ids) && q.clients == s.clients && q.fixed == s.fixed
    ensures WmInFront(s, ids)
  {
    hide Text;
    forall k: nat ensures FirstWmAt(q, k) <==> FirstWmAt(s, k) {}
  }

  lemma MembersPicked(n: Noted, e: Event, q: Server, stored: seq<ClientId>)
    requires n.r.s.WellFormed() && Knows(n.r.s, e) && MembersPlanned(n, e, q) && q.phase == ClosingSubSession
    requires Step(n.r, e).s.fixed == q.fixed && Stores(q, Step(n.r, e).s, stored)
    ensures Picks(stored, Step(n.r, e).s.clients, MembersOf(Note(n, e).r, Note(n, e).plan))
  {
    hide Step, LeftOut, Writes, PlanOf;
    PicksSame(stored, q.clients, OfSubSession(q), MembersOf(Note(n, e).r, Note(n, e).plan));
  }

  lemma CompletedPlans(n: Noted, e: Event, q: Server)
    requires Bookkeeping(n.r) && Knows(n.r.s, e) && Planned(n)
    requires Enters(n.r.s.(sent := []), e, Note(n, e).plan, q) && Completed(q, Step(n.r, e).s)
    ensures Planned(Note(n, e))
  {
    hide Step, IsWm, Ending, Stores, PlanOf, Bookkeeping, Asks, MembersPlanned, NamedMember, Enters;
    BooksWell(n.r);
    EntersSaving(n, e, q);
    var t := Step(n.r, e).s;
    if t.phase == ClosingSubSession || t.phase == KillingSubSession {
      EntersPlanned(n, e, q);
      MembersStay(n, e, q);
    }
  }

  lemma MembersStay(n: Noted, e: Event, q: Server)
    requires n.r.s.WellFormed() && Knows(n.r.s, e) && MembersPlanned(n, e, q)
    requires var t := Step(n.r, e).s; t.sub == q.sub && t.fixed == q.fixed && forall c :: c in t.clients <==> c in q.clients
    ensures var r, p := Note(n, e).r, Note(n, e).plan;
      && (forall c :: c in r.s.sub.toSave <==> NamedMember(r, c, p.named))
      && (forall c :: c in r.s.sub.toKill <==> NamedMember(r, c, p.closed))
  {
    hide Step, PlanOf;
  }

  lemma StaysPlanned(n: Noted, e: Event)
    requires Bookkeeping(n.r) && Knows(n.r.s, e) && Planned(n) && !Completing(n.r.s, e)
    requires StaysOut(n.r.s.(sent := []), n.r.nextId, e, Step(n.r, e).s)
    ensures Planned(Note(n, e))
  {
    hide Step, PlanOf, Bookkeeping, Server.WellFormed;
    OldBooks(n.r);
    StepBegins(n.r, e);
  }

  lemma OldBooks(r: Run)
    requires Bookkeeping(r)
    ensures r.begunAt <= r.nextId && r.s.WellFormed()
    ensures forall c :: c in r.s.clients ==> c in r.s.fixed.props && c < r.nextId
  {
  }

  lemma StaysUnsaved(n: Noted, e: Event)
    requires n.r.s.WellFormed() && Knows(n.r.s, e) && !Completing(n.r.s, e)
    requires StaysOut(n.r.s.(sent := []), n.r.nextId, e, Step(n.r, e).s)
    ensures SavesAsPlanned(n, e)
  {
    hide Step, PlanOf, StoredAsPlanned, Server.WellFormed;
  }

  lemma SameEvents(s: Server, e: Event)
    ensures Completing(s.(sent := []), e) <==> Completing(s, e)
    ensures Knows(s.(sent := []), e) <==> Knows(s, e)
    ensures StartsRound(s.(sent := []), e) <==> StartsRound(s, e)
  {
  }

  /** One event: the session is saved as was asked for when the round began, and what has been asked for is still known. */
  lemma StepSavesAsPlanned(n: Noted, e: Event)
    requires Inv(n.r) && Allowed(n.r, e) && Planned(n)
    ensures n.r.s.WellFormed() && Knows(n.r.s, e) && Planned(Note(n, e)) && SavesAsPlanned(n, e)
  {
    hide Inv, Allowed, Planned, SavesAsPlanned, Handle, Step, Completing, Enters, GoesOn, StaysOut, PlanOf;
    InvBooks(n.r);
    AllowedKnows(n.r, e);
    InvBookkeeping(n.r);
    BooksWell(n.r);
    StepBegins(n.r, e);
    SameEvents(n.r.s, e);
    var s := n.r.s.(sent := []);
    if Completing(n.r.s, e) {
      PlannedSaving(n);
      var q := HandlerCompletes(s, n.r.nextId, e, n.plan);
      CompletesThen(s, e, Note(n, e).plan, q, Step(n.r, e).s);
      CompletedSaves(n, e, q);
      CompletedPlans(n, e, q);
    } else {
      OthersStayOut(s, n.r.nextId, e);
      StaysPlanned(n, e);
      StaysUnsaved(n, e);
    }
  }

  lemma InvBookkeeping(r: Run)
    requires Inv(r)
    ensures Bookkeeping(r)
  {
  }

  lemma PlannedSaving(n: Noted)
    requires Planned(n)
    ensures n.r.s.saving == SavingOf(n.plan, n.r.s.saving.config)
  {
  }

  // ---- runs ----

  ghost function NoteAll(n: Noted, es: seq<Event>): Noted
    requires AllowedAll(n.r, es)
    decreases |es|
  {
    if es == [] then n else
      AllowedKnows(n.r, es[0]);
      NoteAll(Note(n, es[0]), es[1..])
  }

  lemma {:induction false} RunStaysPlanned(n: Noted, es: seq<Event>)
    requires Inv(n.r) && Awaits(n.r.s) && Planned(n) && AllowedAll(n.r, es)
    ensures NoteAll(n, es).r == Execute(n.r, es) && Planned(NoteAll(n, es))
    ensures Inv(NoteAll(n, es).r) && Awaits(NoteAll(n, es).r.s)
    decreases |es|
  {
    hide Inv, Step, Allowed, Awaits, Planned, SavesAsPlanned, PlanOf;
    if es != [] {
      InvBooks(n.r);
      AllowedKnows(n.r, es[0]);
      StepKeepsInv(n.r, es[0]);
      StepAwaits(n.r, es[0]);
      StepSavesAsPlanned(n, es[0]);
      RunStaysPlanned(Note(n, es[0]), es[1..]);
    }
  }

  /** The server as it starts, with what its settings say until the first round begins. */
  ghost function InitialNoted(wm: string, excludeApps: set<string>, saving: Saving): Noted {
    Noted(Initial(wm, excludeApps, saving), Plan(saving.saveType, saving.saveSession, saving.sessionGroup, {}, {}))
  }

  /** In every run from the start, whatever event comes next: exactly when it ends a round that was begun to store the
      session it is stored, in the group that was asked for and nowhere else; exactly when it ends another one it is
      discarded; and every client is asked to save in the way the round was begun for. */
  lemma EveryRunSavesAsPlanned(wm: string, excludeApps: set<string>, saving: Saving, es: seq<Event>, e: Event)
    requires AllowedAll(Initial(wm, excludeApps, saving), es)
    requires Execute(Initial(wm, excludeApps, saving), es).s.WellFormed()
    requires Allowed(Execute(Initial(wm, excludeApps, saving), es), e)
    ensures var n := NoteAll(InitialNoted(wm, excludeApps, saving), es);
      n.r == Execute(Initial(wm, excludeApps, saving), es) && Knows(n.r.s, e) && SavesAsPlanned(n, e)
  {
    hide Inv, Allowed, Awaits, Planned, SavesAsPlanned, Execute, AllowedAll, NoteAll;
    InitialInv(wm, excludeApps, saving);
    InitialPlanned(wm, excludeApps, saving);
    RunStaysPlanned(InitialNoted(wm, excludeApps, saving), es);
    StepSavesAsPlanned(NoteAll(InitialNoted(wm, excludeApps, saving), es), e);
  }

  lemma InitialPlanned(wm: string, excludeApps: set<string>, saving: Saving)
    ensures Planned(InitialNoted(wm, excludeApps, saving))
  {
  }
}
