/**
 What the invariant of SessionRounds.dfy means for what the session manager sends, and for how rounds end.
 */
module SessionSafety {
  import opened SessionStore
  import opened SessionModel
  import opened SessionRounds

  // ---- when the session is saved ----

  predicate EndsSaving(m: Message) { m == Stored || m == Discarded }

  /** The clients whose reports the event's handler waits for. */
  ghost function RoundMembers(r: Run, e: Event): seq<ClientId>
    requires r.s.WellFormed()
  {
    if StartsRound(r.s, e) then
      if e.CloseSubSession? then r.s.Named(r.s.clients, e.saveAndClose + e.saveOnly) else r.s.clients
    else if e.Leave? then Removed(r.s.Pending(), e.c)
    else r.s.Pending()
  }

  lemma CompletingNews(s: Server)
    requires s.WellFormed()
    ensures Extends(s, s.CompleteShutdownOrCheckpoint())
    ensures (exists m :: m in News(s, s.CompleteShutdownOrCheckpoint()) && EndsSaving(m)) ==>
      s.InRound() && forall c :: c in s.Pending() ==> s.flags[c].saveYourselfDone
    ensures (exists c :: SaveYourselfPhase2(c) in News(s, s.CompleteShutdownOrCheckpoint())) ==>
      s.InRound() && forall c :: c in s.Pending() ==> s.Reported(c)
  {
    hide Server.CompleteShutdownOrCheckpoint, Server.StoreOrDiscard, Server.AfterSave, Server.Select, Saves;
    Completing(s);
    var t := s.CompleteShutdownOrCheckpoint();
    if s.InRound() && forall c :: c in s.Pending() ==> s.Reported(c) {
      var second := s.Select(Phase2Waiters, s.Pending());
      if second == [] {
        StoredOrDiscarded(s);
        SavesExtends(s, t);
        AllDone(s);
      } else {
        assert News(s, t) == s.Phase2Messages(second);
      }
    } else {
      assert News(s, t) == [];
    }
  }

  lemma SavesExtends(s: Server, t: Server)
    requires Saves(s, t)
    ensures Extends(s, t) && forall c :: SaveYourselfPhase2(c) !in News(s, t)
  {
  }

  /** The handlers of these events may complete the round, after noting what the event says. */
  predicate MayComplete(r: Run, e: Event) {
    || (e.Done? && r.s.phase != Idle)
    || e.AskPhase2? || e.Leave?
    || (e.ProtectionTimer? && r.s.InRound() && r.s.interacting.None?)
    || StartsRound(r.s, e)
  }

  /** q is the run just before the round may complete; what follows sends nothing that counts as saving. */
  ghost predicate JustBefore(r: Run, e: Event, q: Run)
    requires r.s.WellFormed() && Knows(r.s, e)
  {
    && q.s.WellFormed() && Truthful(q) && q.done == Step(r, e).done && q.asked == Step(r, e).asked
    && q.timedOut == Step(r, e).timedOut
    && (forall c :: c in q.s.Pending() <==> c in RoundMembers(r, e))
    && (forall m :: m in q.s.sent ==> !EndsSaving(m) && !m.SaveYourselfPhase2?)
    && Extends(q.s, q.s.CompleteShutdownOrCheckpoint())
    && forall m :: m in Step(r, e).s.sent && (EndsSaving(m) || m.SaveYourselfPhase2?) ==>
         m in News(q.s, q.s.CompleteShutdownOrCheckpoint())
  }

  lemma TellsOnlyToSave(t: Server, c: ClientId, first: bool)
    ensures forall m :: m in t.WmReported(c, first).sent ==> m in t.sent || m.SaveYourself?
  {
  }

  lemma JustBeforeDone(r: Run, c: ClientId) returns (q: Run)
    requires Inv(r) && c in r.s.flags && r.s.phase != Idle
    ensures JustBefore(r, Done(c), q)
  {
    hide Server.CompleteShutdownOrCheckpoint, Server.WmReported, Completes, Inv, Step, Rest;
    q := DoneMarked(r, c);
    SentKeeps(r, []);
    InvIsRest(r);
    MarkKeeps(r.(s := r.s.(sent := [])), c, r.s.flags[c].(saveYourselfDone := true), {c}, {});
    ReportGoesOn(r, q);
    var t := q.s.CompleteShutdownOrCheckpoint();
    DoneIs(r, c);
    TellsOnlyToSave(t.(protection := true), c, !r.s.flags[c].wasPhase2);
    assert News(q.s, t) == t.sent;
  }

  /** A report takes part in the round as it stands. */
  lemma ReportGoesOn(r: Run, q: Run)
    requires Inv(q) && r.s.phase == q.s.phase && r.s.clients == q.s.clients && r.s.sub == q.s.sub
    ensures q.s.WellFormed() && Truthful(q) && q.s.Pending() == r.s.Pending()
    ensures Extends(q.s, q.s.CompleteShutdownOrCheckpoint())
  {
    hide Server.CompleteShutdownOrCheckpoint, Completes, Inv;
    InvIsRest(q);
    CompletingCompletes(q.s);
    AfterDropNews(q.s, q.s.CompleteShutdownOrCheckpoint());
  }

  lemma JustBeforeAskPhase2(r: Run, c: ClientId) returns (q: Run)
    requires Inv(r) && c in r.s.flags
    ensures JustBefore(r, AskPhase2(c), q)
  {
    hide Server.CompleteShutdownOrCheckpoint, Server.WmReported, Completes, Inv, Step, Rest;
    q := AskedMarked(r, c);
    SentKeeps(r, []);
    InvIsRest(r);
    MarkKeeps(r.(s := r.s.(sent := [])), c, r.s.flags[c].(waitForPhase2 := true, wasPhase2 := true), {}, {c});
    ReportGoesOn(r, q);
    var t := q.s.CompleteShutdownOrCheckpoint();
    AskedIs(r, c);
    TellsOnlyToSave(t, c, true);
    assert News(q.s, t) == t.sent;
  }

  lemma JustBeforeLeave(r: Run, c: ClientId) returns (q: Run)
    requires Inv(r) && c in r.s.flags
    ensures JustBefore(r, Leave(c), q)
  {
    hide Server.CompleteShutdownOrCheckpoint, Server.ContinueKilling, Completes, Inv, Step, Rest, Server.Drop, Dropped, Removed, Observed;
    InvBooks(r);
    q := LeftTurn(r, c);
    InvIsRest(q);
    RestIsTruthful(q);
    CompletingCompletes(q.s);
    var t := q.s.CompleteShutdownOrCheckpoint();
    AfterDropNews(q.s, t);
    LeaveIs(r, c, q);
    LeftMembers(r, c, q);
    LeaveObserved(r, c, q);
    LeaveSends(q.s, t);
  }

  lemma LeaveSends(s: Server, t: Server)
    requires Extends(s, t) && forall m :: m in s.sent ==> m.Interact?
    ensures forall m :: m in t.ContinueKilling().sent && (EndsSaving(m) || m.SaveYourselfPhase2?) ==> m in News(s, t)
  {
    hide Server.ContinueKilling;
    ContinuingIsQuiet(t);
    assert t.sent == s.sent + News(s, t);
  }

  lemma LeftMembers(r: Run, c: ClientId, q: Run)
    requires r.s.WellFormed() && q == Observed(Dropped(r, c), r.s.(sent := []).Drop(c))
    ensures q.s.Pending() == Removed(r.s.Pending(), c)
    ensures q.done == r.done && q.asked == r.asked && q.timedOut == r.timedOut
  {
  }

  lemma LeaveObserved(r: Run, c: ClientId, q: Run)
    requires r.s.WellFormed() && c in r.s.flags
    ensures Step(r, Leave(c)).done == r.done && Step(r, Leave(c)).asked == r.asked
    ensures Step(r, Leave(c)).timedOut == r.timedOut
  {
  }

  lemma ContinuingIsQuiet(t: Server)
    ensures forall m :: m in t.ContinueKilling().sent ==>
      m in t.sent || (!EndsSaving(m) && !m.SaveYourselfPhase2?)
  {
    hide ContinueNews, Server.ContinueKilling;
    ContinuesKilling(t);
  }

  lemma JustBeforeTimeout(r: Run) returns (q: Run)
    requires Inv(r) && Allowed(r, ProtectionTimer) && r.s.InRound() && r.s.interacting.None?
    ensures JustBefore(r, ProtectionTimer, q)
  {
    hide Server.CompleteShutdownOrCheckpoint, Completes, Inv, Step, Rest;
    InvBooks(r);
    InvIsRest(r);
    GivingUpKeepsRest(r);
    q := GivenUp(r);
    RestIsTruthful(q);
    CompletingCompletes(q.s);
    AfterDropNews(q.s, q.s.CompleteShutdownOrCheckpoint());
    GaveUpIs(r, q);
    assert News(q.s, q.s.CompleteShutdownOrCheckpoint()) == q.s.CompleteShutdownOrCheckpoint().sent;
  }

  lemma RestIsTruthful(q: Run)
    requires Rest(q)
    ensures q.s.WellFormed() && Truthful(q)
  {
  }

  lemma JustBeforeRound(r: Run, e: Event) returns (q: Run)
    requires Inv(r) && Allowed(r, e) && StartsRound(r.s, e)
    ensures JustBefore(r, e, q)
  {
    hide Inv, Rest, Completes, Server.CompleteShutdownOrCheckpoint, BeginsAll, BeginsSome, Step, Allowed;
    InvBooks(r);
    InvIsRest(r);
    StartIsFree(r, e);
    if e.CloseSubSession? {
      q := JustBeforeSubSession(r, e);
    } else {
      var t: Server;
      if e.Logout? {
        t := LogoutBegins(r.s, e.save);
      } else {
        t := SaveSessionBegins(r.s);
      }
      BeginsWithInv(r, e, t);
      BegunSent(r.s, t);
      BegunCompletes(r, e, t);
      BegunIs(r, e, t.CompleteIfNoClients());
      q := Begun(r, e, t);
      BegunGoesOn(r, e, t);
    }
  }

  lemma StartIsFree(r: Run, e: Event)
    requires Inv(r) && Allowed(r, e) && StartsRound(r.s, e)
    ensures r.s.interacting.None?
  {
  }

  lemma BegunGoesOn(r: Run, e: Event, t: Server)
    requires r.s.WellFormed() && Knows(r.s, e) && StartsRound(r.s, e) && !e.CloseSubSession? && BeginsAll(r.s, t)
    requires Inv(Begun(r, e, t)) && Step(r, e) == Begun(r, e, t.CompleteIfNoClients())
    ensures JustBefore(r, e, Begun(r, e, t))
  {
    hide Inv, Completes, Server.CompleteShutdownOrCheckpoint, Server.CompleteIfNoClients, Step, BeginsAll, RoundMembers;
    var q := Begun(r, e, t);
    InvIsRest(q);
    RestIsTruthful(q);
    CompletingCompletes(t);
    AfterDropNews(t, t.CompleteShutdownOrCheckpoint());
    BegunMembers(r, e, t);
    BegunMessages(r.s, t);
  }

  lemma BegunMembers(r: Run, e: Event, t: Server)
    requires r.s.WellFormed() && StartsRound(r.s, e) && !e.CloseSubSession? && BeginsAll(r.s, t)
    ensures t.Pending() == RoundMembers(r, e)
  {
  }

  lemma BegunMessages(s: Server, t: Server)
    requires t.WellFormed() && BeginsAll(s, t) && Extends(t, t.CompleteShutdownOrCheckpoint())
    ensures forall m :: m in t.sent ==> m.SaveYourself?
    ensures forall m :: m in t.CompleteIfNoClients().sent && !m.SaveYourself? ==>
      m in News(t, t.CompleteShutdownOrCheckpoint())
  {
    hide Server.CompleteShutdownOrCheckpoint, Server.Select, ResetFlags, Server.CountWMs;
    assert t.CompleteShutdownOrCheckpoint().sent == t.sent + News(t, t.CompleteShutdownOrCheckpoint());
  }

  lemma JustBeforeSubSession(r: Run, e: Event) returns (q: Run)
    requires Rest(r) && r.s.WellFormed() && e.CloseSubSession? && StartsRound(r.s, e) && r.s.interacting.None?
    ensures JustBefore(r, e, q)
  {
    hide Inv, Rest, Completes, Server.CompleteShutdownOrCheckpoint, BeginsSome, Step, JustBefore, RoundMembers,
      Server.SaveSubSession;
    RestLists(r);
    RestBooks(r);
    RestNoRepeats(r);
    NamedNoRepeats(r.s, r.s.clients, e.saveAndClose + e.saveOnly);
    var saved, killed := r.s.Named(r.s.clients, e.saveAndClose + e.saveOnly), r.s.Named(r.s.clients, e.saveAndClose);
    var t := ClosingBegins(r.s, e.name, e.saveAndClose, e.saveOnly);
    SubSessionBegins(r, e, t, saved, killed);
    q := Begun(r, e, t);
    InvIsRest(q);
    RestIsTruthful(q);
    CompletingCompletes(t);
    var u := t.CompleteShutdownOrCheckpoint();
    AfterDropNews(t, u);
    SubSessionMembers(r, e, t, killed);
    SubSessionStep(r, e, u);
    ClosingGoesOn(r, e, t, u);
  }

  lemma ClosingGoesOn(r: Run, e: Event, t: Server, u: Server)
    requires r.s.WellFormed() && Knows(r.s, e) && t.WellFormed() && Truthful(Begun(r, e, t))
    requires Step(r, e).s == u && Step(r, e).done == {} && Step(r, e).asked == {} && !Step(r, e).timedOut
    requires t.Pending() == RoundMembers(r, e) && (forall m :: m in t.sent ==> m.SaveYourself?)
    requires u == t.CompleteShutdownOrCheckpoint() && Extends(t, u)
    ensures JustBefore(r, e, Begun(r, e, t))
  {
    hide Step, Server.CompleteShutdownOrCheckpoint, RoundMembers;
    assert u.sent == t.sent + News(t, u);
  }

  lemma SubSessionMembers(r: Run, e: Event, t: Server, killed: seq<ClientId>)
    requires r.s.WellFormed() && StartsRound(r.s, e) && e.CloseSubSession?
    requires BeginsSome(r.s, t, r.s.Named(r.s.clients, e.saveAndClose + e.saveOnly), killed)
    ensures t.Pending() == RoundMembers(r, e) && forall m :: m in t.sent ==> m.SaveYourself?
  {
  }

  lemma SubSessionStep(r: Run, e: Event, u: Server)
    requires r.s.WellFormed() && Knows(r.s, e) && StartsRound(r.s, e) && e.CloseSubSession?
    requires r.s.(sent := []).SaveSubSession(e.name, e.saveAndClose, e.saveOnly) == u
    ensures Step(r, e).s == u && Step(r, e).done == {} && Step(r, e).asked == {} && !Step(r, e).timedOut
  {
    hide Server.SaveSubSession;
  }

  /** The other events send nothing that belongs to the end of a round. */
  lemma NothingSaved(r: Run, e: Event)
    requires Inv(r) && Allowed(r, e) && !MayComplete(r, e)
    ensures forall m :: m in Step(r, e).s.sent ==> !EndsSaving(m) && !m.SaveYourselfPhase2?
  {
    hide Step, Inv, Allowed, Handle;
    InvBooks(r);
    AllowedKnows(r, e);
    StepIsHandle(r, e);
    if e.AskInteract? {
      NothingSavedAsking(r.s.(sent := []), r.nextId, e.c);
    } else if e.EndInteract? {
      NothingSavedEnding(r.s.(sent := []), r.nextId, e.c, e.cancel);
    } else {
      NothingSavedOtherwise(r.s.(sent := []), r.nextId, e);
    }
  }

  lemma AllowedKnows(r: Run, e: Event)
    requires r.s.WellFormed() && Allowed(r, e)
    ensures Knows(r.s, e)
  {
  }

  lemma StepIsHandle(r: Run, e: Event)
    requires r.s.WellFormed() && Knows(r.s, e)
    ensures Step(r, e).s == Handle(r.s.(sent := []), r.nextId, e)
  {
    hide Handle;
  }

  lemma NothingSavedAsking(s: Server, nextId: ClientId, c: ClientId)
    requires s.WellFormed() && c in s.flags && s.sent == []
    ensures forall m :: m in Handle(s, nextId, AskInteract(c)).sent ==> m.Interact?
  {
    hide Server.HandlePendingInteractions;
    HandingOutSends(s.(flags := s.flags[c := s.flags[c].(pendingInteraction := true)]));
    HandingOutSends(s.Send([Interact(c)]));
  }

  lemma NothingSavedEnding(s: Server, nextId: ClientId, c: ClientId, cancel: bool)
    requires s.WellFormed() && c in s.flags && s.sent == []
    ensures forall m :: m in Handle(s, nextId, EndInteract(c, cancel)).sent ==>
      m.Interact? || m.ShutdownCancelled? || m.RunCommand? || m.SubSessionCloseCanceled?
  {
    hide Server.HandlePendingInteractions, Server.CancelShutdown;
    HandingOutSends(s.(interacting := None));
    CancellingSends(s.(interacting := None));
  }

  lemma NothingSavedOtherwise(s: Server, nextId: ClientId, e: Event)
    requires s.WellFormed() && Knows(s, e) && s.sent == [] && !StartsRound(s, e)
    requires !e.AskInteract? && !e.EndInteract? && !e.AskPhase2? && !e.Leave? && (e.Done? ==> s.phase == Idle)
    requires e.ProtectionTimer? ==> !s.InRound() || s.interacting.Some?
    ensures forall m :: m in Handle(s, nextId, e).sent ==> m.Die? || m.Quit? || m.RunCommand? || m.SubSessionClosed?
  {
    hide Server.CompleteShutdownOrCheckpoint, Server.KillWM, Server.LogoutSoundFinished, Server.AskFirst,
      Server.AddToSubSession, SoundNews, KillNews, Server.DiscardOf;
    match e
    case SoundFinished => SoundIsFinished(s);
    case KillTimer => KillingWm(s);
    case Done(c) => DiscardSends(s, c);
    case _ =>
  }

  lemma HandingOutSends(s: Server)
    requires s.WellFormed()
    ensures forall m :: m in s.HandlePendingInteractions().sent ==> m in s.sent || m.Interact?
  {
  }

  lemma CancellingSends(s: Server)
    requires s.WellFormed()
    ensures forall m :: m in s.CancelShutdown().sent ==>
      m in s.sent || m.ShutdownCancelled? || m.RunCommand? || m.SubSessionCloseCanceled?
  {
    CancelMessagesPlain(s, s.clients);
  }

  lemma DiscardSends(s: Server, c: ClientId)
    ensures forall m :: m in s.DiscardOf(c) ==> m.RunCommand?
  {
  }

  lemma BeforeCompleting(r: Run, e: Event) returns (q: Run)
    requires Inv(r) && Allowed(r, e) && MayComplete(r, e)
    ensures JustBefore(r, e, q)
  {
    hide Inv, Allowed, JustBefore;
    InvBooks(r);
    AllowedKnows(r, e);
    match e
    case Done(c) => q := JustBeforeDone(r, c);
    case AskPhase2(c) => q := JustBeforeAskPhase2(r, c);
    case Leave(c) => q := JustBeforeLeave(r, c);
    case ProtectionTimer => q := JustBeforeTimeout(r);
    case _ => q := JustBeforeRound(r, e);
  }

  /** Unless the protection timer gave up, a session is stored or discarded only when every client that takes
      part in the round and is still there has itself reported done since the round began. */
  lemma SavedOnlyWhenAllDone(r: Run, e: Event)
    requires Inv(r) && Allowed(r, e) && !Step(r, e).timedOut
    requires Stored in Step(r, e).s.sent || Discarded in Step(r, e).s.sent
    ensures forall c :: c in RoundMembers(r, e) ==> c in Step(r, e).done
  {
    hide Inv, Allowed, Step, RoundMembers, Server.CompleteShutdownOrCheckpoint, MayComplete, News, Extends;
    InvBooks(r);
    AllowedKnows(r, e);
    if MayComplete(r, e) {
      var q := BeforeCompleting(r, e);
      CompletingNews(q.s);
    } else {
      NothingSaved(r, e);
    }
  }

  /** Nor does phase 2 begin for anybody before each of them has reported done or asked for phase 2. */
  lemma Phase2OnlyWhenAllReported(r: Run, e: Event, c: ClientId)
    requires Inv(r) && Allowed(r, e) && !Step(r, e).timedOut
    requires SaveYourselfPhase2(c) in Step(r, e).s.sent
    ensures forall d :: d in RoundMembers(r, e) ==> d in Step(r, e).done || d in Step(r, e).asked
  {
    hide Inv, Allowed, Step, RoundMembers, Server.CompleteShutdownOrCheckpoint, MayComplete, News, Extends;
    InvBooks(r);
    AllowedKnows(r, e);
    if MayComplete(r, e) {
      var q := BeforeCompleting(r, e);
      CompletingNews(q.s);
    } else {
      NothingSaved(r, e);
    }
  }

  // ---- window managers first ----

  /** Unless a sub-session began with a stale count, when the round's SaveYourself goes to a client that is not a window manager,
      every connected window manager has already finished its first phase. */
  lemma WindowManagersFirst(r: Run, e: Event, c: ClientId)
    requires Inv(r) && Allowed(r, e) && !e.CloseSubSession? && Step(r, e).counted
    requires c in SaveTargets(Step(r, e).s.sent) && !Step(r, e).s.IsWM(c)
    ensures Unreported(Step(r, e)) == {}
  {
    hide Inv, Allowed, Step, Handle;
    InvBooks(r);
    AllowedKnows(r, e);
    StepKeepsInv(r, e);
    var q := Step(r, e);
    ToldNow(r, e, c);
    if LoggingOut(q.s.phase) {
      CountsHold(q, c);
    } else {
      TellingAtTheEnd(r, e, c);
    }
  }

  lemma ToldNow(r: Run, e: Event, c: ClientId)
    requires r.s.WellFormed() && Knows(r.s, e) && c in SaveTargets(Step(r, e).s.sent)
    ensures c in Step(r, e).told
  {
    hide Handle;
  }

  lemma CountsHold(q: Run, c: ClientId)
    requires Inv(q) && LoggingOut(q.s.phase) && c in q.told && !q.s.IsWM(c)
    ensures Unreported(q) == {}
  {
  }

  /** The last window manager's report can end a checkpoint and still have the others told. */
  lemma TellingAtTheEnd(r: Run, e: Event, c: ClientId)
    requires Inv(r) && Allowed(r, e) && !e.CloseSubSession? && !LoggingOut(Step(r, e).s.phase) && Step(r, e).counted
    requires c in SaveTargets(Step(r, e).s.sent)
    ensures Unreported(Step(r, e)) == {}
  {
    hide Inv, Step, Handle, Allowed;
    InvBooks(r);
    AllowedKnows(r, e);
    if e.Done? && r.s.phase != Idle {
      NoneBegins(r, e);
      LateDone(r, e.c);
    } else if e.AskPhase2? {
      NoneBegins(r, e);
      LateAsk(r, e.c);
    } else {
      OthersDoNotAsk(r, e);
    }
  }

  lemma NoneBegins(r: Run, e: Event)
    requires r.s.WellFormed() && Knows(r.s, e) && !StartsRound(r.s, e)
    ensures Step(r, e).counted == r.counted && Step(r, e).cleared == r.cleared && Step(r, e).begunAt == r.begunAt
  {
    hide Handle;
  }

  /** What a report leaves for its handler: after a window manager's first one, fewer are missing than awaited. */
  ghost predicate ReportNoted(q: Run, c: ClientId, first: bool) {
    && q.s.WellFormed() && ToldOnce(q) && OnlyWmsTold(q) && q.counted && q.s.phase != Idle && q.s.sent == []
    && (q.s.IsWM(c) && first && LoggingOut(q.s.phase) ==> |Unreported(q)| < q.s.wmWaiting)
  }

  lemma LateDone(r: Run, c: ClientId)
    requires Inv(r) && Allowed(r, Done(c)) && r.s.phase != Idle && r.counted
    requires SaveTargets(Step(r, Done(c)).s.sent) != multiset{}
    ensures Unreported(Step(r, Done(c))) == {}
  {
    hide Inv, Step, Allowed, Handle, ReportNoted, DoneMarked, Server.CompleteShutdownOrCheckpoint, Server.WmReported,
      Unreported;
    InvBooks(r);
    AllowedKnows(r, Done(c));
    DoneNoted(r, c);
    NotedBooks(DoneMarked(r, c), c, !r.s.flags[c].wasPhase2);
    DoneIs(r, c);
    LateReport(DoneMarked(r, c), true, c, !r.s.flags[c].wasPhase2);
  }

  lemma LateAsk(r: Run, c: ClientId)
    requires Inv(r) && Allowed(r, AskPhase2(c)) && r.counted
    requires SaveTargets(Step(r, AskPhase2(c)).s.sent) != multiset{}
    ensures Unreported(Step(r, AskPhase2(c))) == {}
  {
    hide Inv, Step, Allowed, Handle, ReportNoted, AskedMarked, Server.CompleteShutdownOrCheckpoint, Server.WmReported,
      Unreported;
    InvBooks(r);
    AllowedKnows(r, AskPhase2(c));
    AskNoted(r, c);
    NotedBooks(AskedMarked(r, c), c, true);
    AskedIs(r, c);
    LateReport(AskedMarked(r, c), false, c, true);
  }

  lemma NotedBooks(q: Run, c: ClientId, first: bool)
    requires ReportNoted(q, c, first)
    ensures q.s.WellFormed()
  {
  }

  lemma DoneNoted(r: Run, c: ClientId)
    requires Inv(r) && Allowed(r, Done(c)) && r.s.phase != Idle && r.counted
    ensures ReportNoted(DoneMarked(r, c), c, !r.s.flags[c].wasPhase2)
  {
    hide Inv, Allowed, Bookkeeping, WmsCounted, ToldOnce, MembersTold, Unreported, OnlyWmsTold, Handle;
    InvBooks(r);
    AllowedKnows(r, Done(c));
    SentKeeps(r, []);
    var r0 := r.(s := r.s.(sent := []));
    CountParts(r0);
    MarkKeepsBooks(r0, c, r.s.flags[c].(saveYourselfDone := true), {c}, {});
    MarkKeepsCounts(r0, c, r.s.flags[c].(saveYourselfDone := true), {c}, {});
    CountBooks(DoneMarked(r, c));
    FirstReport(r, c);
  }

  lemma AskNoted(r: Run, c: ClientId)
    requires Inv(r) && Allowed(r, AskPhase2(c)) && r.counted
    ensures ReportNoted(AskedMarked(r, c), c, true)
  {
    hide Inv, Allowed, Bookkeeping, WmsCounted, ToldOnce, MembersTold, Unreported, OnlyWmsTold, Handle;
    InvBooks(r);
    AllowedKnows(r, AskPhase2(c));
    SentKeeps(r, []);
    var r0 := r.(s := r.s.(sent := []));
    CountParts(r0);
    FirstAsk(r, c);
    MarkKeepsBooks(r0, c, r.s.flags[c].(waitForPhase2 := true, wasPhase2 := true), {}, {c});
    MarkKeepsCounts(r0, c, r.s.flags[c].(waitForPhase2 := true, wasPhase2 := true), {}, {c});
    CountBooks(AskedMarked(r, c));
  }

  lemma CountParts(r: Run)
    requires Inv(r)
    ensures Bookkeeping(r) && WmsCounted(r) && ToldOnce(r) && MembersTold(r)
  {
  }

  lemma CountBooks(q: Run)
    requires Bookkeeping(q) && ToldOnce(q) && q.s.phase != Idle
    ensures q.s.WellFormed() && OnlyWmsTold(q)
  {
  }

  lemma FirstReport(r: Run, c: ClientId)
    requires Inv(r) && Allowed(r, Done(c)) && r.s.phase != Idle
    ensures r.s.IsWM(c) && LoggingOut(r.s.phase) && !r.s.flags[c].wasPhase2 ==> c !in r.done && c !in r.asked
  {
  }

  lemma FirstAsk(r: Run, c: ClientId)
    requires r.s.WellFormed() && Allowed(r, AskPhase2(c))
    ensures r.s.phase != Idle && (r.s.IsWM(c) ==> c !in r.done && c !in r.asked)
  {
  }

  lemma LateReport(q: Run, rearm: bool, c: ClientId, first: bool)
    requires q.s.WellFormed() && ReportNoted(q, c, first)
    requires var u := q.s.CompleteShutdownOrCheckpoint();
      var t := if rearm then u.(protection := true) else u;
      SaveTargets(t.WmReported(c, first).sent) != multiset{}
    ensures var u := q.s.CompleteShutdownOrCheckpoint();
      var t := if rearm then u.(protection := true) else u;
      Unreported(Observed(q, t.WmReported(c, first))) == {}
  {
    hide Server.CompleteShutdownOrCheckpoint, Server.WmReported, Completes;
    var u := q.s.CompleteShutdownOrCheckpoint();
    var t := if rearm then u.(protection := true) else u;
    CompletingCompletes(q.s);
    CompletingTells(q, u);
    CompletesCounts(q.s, u);
    ReportTells(t, c, first);
    ReportSame(t, c, first);
    assert Unreported(Observed(q, t.WmReported(c, first))) == Unreported(With(q, u));
  }

  lemma CompletesCounts(s: Server, t: Server)
    requires Completes(s, t)
    ensures t.wmWaiting == s.wmWaiting && t.fixed == s.fixed
  {
  }

  lemma ReportSame(t: Server, c: ClientId, first: bool)
    ensures t.WmReported(c, first).clients == t.clients && t.WmReported(c, first).fixed == t.fixed
  {
  }

  /** A report has others told only when it is the last one awaited from a window manager. */
  lemma ReportTells(t: Server, c: ClientId, first: bool)
    requires SaveTargets(t.sent) == multiset{} && InteractTargets(t.sent) == {}
    requires SaveTargets(t.WmReported(c, first).sent) != multiset{}
    ensures t.IsWM(c) && first && t.wmWaiting == 1
  {
    ReportNews(t, c, first);
    NoSaveTargets([]);
  }

  /** No other event outside logouts and checkpoints asks anybody to save. */
  lemma OthersDoNotAsk(r: Run, e: Event)
    requires Inv(r) && Allowed(r, e) && !e.CloseSubSession? && !LoggingOut(Step(r, e).s.phase)
    requires !e.AskPhase2? && (e.Done? ==> r.s.phase == Idle)
    ensures SaveTargets(Step(r, e).s.sent) == multiset{}
  {
    hide Inv, Step, Allowed;
    if StartsRound(r.s, e) { NobodyAsked(r, e); } else { AsksNobody(r, e); }
  }

  /** Only the beginning of a round and the clients' reports have anybody asked to save. */
  lemma AsksNobody(r: Run, e: Event)
    requires Inv(r) && Allowed(r, e) && !StartsRound(r.s, e)
    requires !e.AskPhase2? && (e.Done? ==> r.s.phase == Idle)
    ensures r.s.WellFormed() && Knows(r.s, e) && SaveTargets(Step(r, e).s.sent) == multiset{}
  {
    hide Inv, Step, Allowed, Handle;
    InvBooks(r);
    AllowedKnows(r, e);
    StepIsHandle(r, e);
    var s0 := r.s.(sent := []);
    if e.Leave? {
      LeavingAsksNobody(r, e.c);
    } else if e.ProtectionTimer? && r.s.InRound() && r.s.interacting.None? {
      TimerRuns(r);
      TimeoutAsksNobody(r);
    } else {
      NothingSaved(r, e);
      if e.AskInteract? { NothingSavedAsking(s0, r.nextId, e.c); }
      else if e.EndInteract? { NothingSavedEnding(s0, r.nextId, e.c, e.cancel); }
      else { NothingSavedOtherwise(s0, r.nextId, e); }
      NoSaveTargets(Step(r, e).s.sent);
    }
  }

  lemma TimerRuns(r: Run)
    requires r.s.WellFormed() && Allowed(r, ProtectionTimer)
    ensures r.s.protection
  {
  }

  lemma NobodyAsked(r: Run, e: Event)
    requires Inv(r) && Allowed(r, e) && StartsRound(r.s, e) && !e.CloseSubSession? && !LoggingOut(Step(r, e).s.phase)
    ensures SaveTargets(Step(r, e).s.sent) == multiset{}
  {
    hide Inv, Rest, Completes, Server.CompleteShutdownOrCheckpoint, BeginsAll, Step, Allowed;
    InvBooks(r);
    InvIsRest(r);
    StartIsFree(r, e);
    var t: Server;
    if e.Logout? { t := LogoutBegins(r.s, e.save); } else { t := SaveSessionBegins(r.s); }
    BegunSent(r.s, t);
    BeginsWithInv(r, e, t);
    BegunCompletes(r, e, t);
    BegunIs(r, e, t.CompleteIfNoClients());
    BegunPhase(r.s, t);
    if t.clients == [] {
      CompletingCompletes(t);
      CompletedNews(t, t.CompleteShutdownOrCheckpoint());
    }
  }

  lemma BegunPhase(s: Server, t: Server)
    requires BeginsAll(s, t)
    ensures t.phase == Shutdown || t.phase == Checkpoint
  {
  }

  lemma LeavingAsksNobody(r: Run, c: ClientId)
    requires Inv(r) && c in r.s.flags
    ensures SaveTargets(Step(r, Leave(c)).s.sent) == multiset{}
  {
    hide Server.CompleteShutdownOrCheckpoint, Server.ContinueKilling, Completes, Inv, Step, Server.Drop, Dropped;
    InvBooks(r);
    var q := LeftTurn(r, c);
    InvBooks(q);
    CompletingCompletes(q.s);
    var t := q.s.CompleteShutdownOrCheckpoint();
    CompletingKeeps(q, t);
    AfterDropNews(q.s, t);
    KillingGoesOn(With(q, t));
    LeaveIs(r, c, q);
    NewsOfLeaving(q, t, t.ContinueKilling());
  }

  lemma TimeoutAsksNobody(r: Run)
    requires Inv(r) && r.s.InRound() && r.s.interacting.None? && r.s.protection
    ensures SaveTargets(Step(r, ProtectionTimer).s.sent) == multiset{}
  {
    hide Server.CompleteShutdownOrCheckpoint, Completes, Inv, Step, Rest;
    InvBooks(r);
    InvIsRest(r);
    GivingUpKeepsRest(r);
    var q := GivenUp(r);
    RestBooks(q);
    CompletingCompletes(q.s);
    CompletedNews(q.s, q.s.CompleteShutdownOrCheckpoint());
    GaveUpIs(r, q);
  }
}
