/**
 What the session manager does next does not depend on what it has sent before: after any messages ms every handler
 does the same, and sends the same, as without them.
 */
module SessionTrace {
  import opened SessionStore
  import opened SessionModel
  import opened SessionRounds

  /** The server s, had it sent the messages ms before. */
  ghost function After(ms: seq<Message>, s: Server): Server { s.(sent := ms + s.sent) }

  lemma SendAfter(ms: seq<Message>, s: Server, more: seq<Message>)
    ensures After(ms, s).Send(more) == After(ms, s.Send(more))
  {
    assert ms + (s.sent + more) == ms + s.sent + more;
  }

  lemma WellFormedAfter(ms: seq<Message>, s: Server)
    requires s.WellFormed()
    ensures After(ms, s).WellFormed()
  {
  }

  // ---- what does not depend on the messages at all ----

  lemma {:induction false} SelectAfter(ms: seq<Message>, s: Server, who: Who, ids: seq<ClientId>)
    ensures After(ms, s).Select(who, ids) == s.Select(who, ids)
  {
    if ids != [] { SelectAfter(ms, s, who, ids[..|ids| - 1]); }
  }

  lemma SaveMessagesAfter(ms: seq<Message>, s: Server, ids: seq<ClientId>)
    ensures After(ms, s).SaveMessages(ids) == s.SaveMessages(ids)
  {
  }

  lemma {:induction false} FirstPendingAfter(ms: seq<Message>, s: Server, ids: seq<ClientId>)
    ensures After(ms, s).FirstPending(ids) == s.FirstPending(ids)
  {
    if ids != [] { FirstPendingAfter(ms, s, ids[1..]); }
  }

  lemma {:induction false} CancelMessagesAfter(ms: seq<Message>, s: Server, ids: seq<ClientId>)
    requires forall c :: c in ids ==> c in s.flags
    ensures After(ms, s).CancelMessages(ids) == s.CancelMessages(ids)
  {
    if ids != [] { CancelMessagesAfter(ms, s, ids[..|ids| - 1]); }
  }

  lemma {:induction false} OldDiscardsAfter(ms: seq<Message>, s: Server, g: Group, n: nat)
    ensures After(ms, s).OldDiscards(g, n) == s.OldDiscards(g, n)
  {
    hide Group.Read, Properties.DiscardCommand;
    if n != 0 { OldDiscardsAfter(ms, s, g, n - 1); }
  }

  lemma {:induction false} InBothAfter(ms: seq<Message>, s: Server, ids: seq<ClientId>, others: seq<ClientId>)
    ensures After(ms, s).InBoth(ids, others) == s.InBoth(ids, others)
  {
    if ids != [] { InBothAfter(ms, s, ids[..|ids| - 1], others); }
  }

  lemma {:induction false} DiscardCommandsAfter(ms: seq<Message>, s: Server, g: Group, ids: seq<ClientId>)
    ensures After(ms, s).DiscardCommands(g, ids) == s.DiscardCommands(g, ids)
  {
    hide Group.Read, Properties.DiscardCommand;
    if ids != [] { DiscardCommandsAfter(ms, s, g, ids[..|ids| - 1]); }
  }

  // ---- completing a round ----

  lemma StoreAfter(ms: seq<Message>, s: Server)
    requires s.WellFormed()
    ensures After(ms, s).WellFormed() && After(ms, s).StoreSession() == After(ms, s.StoreSession())
  {
    hide Server.OldDiscards, Server.InBoth, StoredIds, EntriesFor, Numbered, WmFirst;
    OldDiscardsAfter(ms, s, s.OldGroup(), s.OldGroup().count);
    var ordered := if s.phase == ClosingSubSession then s.clients else WmFirst(s.clients, s.fixed.props, s.fixed.wm);
    InBothAfter(ms, s, ordered, s.sub.toSave);
    var discards := s.OldDiscards(s.OldGroup(), s.OldGroup().count);
    assert ms + s.sent + (discards + [Stored]) == ms + (s.sent + (discards + [Stored]));
  }

  lemma DiscardAfter(ms: seq<Message>, s: Server)
    ensures After(ms, s).DiscardSession() == After(ms, s.DiscardSession())
  {
    hide Server.DiscardCommands;
    DiscardCommandsAfter(ms, s, s.OldGroup(), s.clients);
    SendAfter(ms, s, s.DiscardCommands(s.OldGroup(), s.clients) + [Discarded]);
  }

  lemma SubSessionClosedAfter(ms: seq<Message>, s: Server)
    ensures After(ms, s).SignalSubSessionClosed() == After(ms, s.SignalSubSessionClosed())
  {
    SendAfter(ms, s.(sub := NO_SUB, phase := Idle), [SubSessionClosed]);
  }

  lemma KillingSubSessionAfter(ms: seq<Message>, s: Server)
    ensures After(ms, s).CompleteKillingSubSession() == After(ms, s.CompleteKillingSubSession())
  {
    hide Server.Select, Server.SignalSubSessionClosed;
    SelectAfter(ms, s, Others, s.sub.toKill);
    SubSessionClosedAfter(ms, s);
  }

  lemma StartKillingAfter(ms: seq<Message>, s: Server)
    ensures After(ms, s).StartKillingSubSession() == After(ms, s.StartKillingSubSession())
  {
    hide Server.CompleteKillingSubSession, Server.DieMessages;
    var t := s.(phase := KillingSubSession);
    DieSame(After(ms, s), t, s.sub.toKill);
    DieSame(s, t, s.sub.toKill);
    SendAfter(ms, t, t.DieMessages(s.sub.toKill));
    KillingSubSessionAfter(ms, t.Send(t.DieMessages(s.sub.toKill)));
  }

  lemma DieSame(s: Server, t: Server, ids: seq<ClientId>)
    ensures s.DieMessages(ids) == t.DieMessages(ids)
  {
  }

  lemma AfterSaveAfter(ms: seq<Message>, s: Server)
    ensures After(ms, s).AfterSave() == After(ms, s.AfterSave())
  {
    hide Server.StartKillingSubSession;
    StartKillingAfter(ms, s);
    var t := s.(phase := Idle);
    assert After(ms, t).SaveCompletes(s.clients) == t.SaveCompletes(s.clients);
    SendAfter(ms, t, t.SaveCompletes(s.clients));
  }

  lemma CompletingAfter(ms: seq<Message>, s: Server)
    requires s.WellFormed()
    ensures After(ms, s).WellFormed()
    ensures After(ms, s).CompleteShutdownOrCheckpoint() == After(ms, s.CompleteShutdownOrCheckpoint())
  {
    hide Server.CompleteShutdownOrCheckpoint, Server.StoreSession, Server.DiscardSession, Server.AfterSave, Server.Select;
    Completing(s);
    Completing(After(ms, s));
    SelectAfter(ms, s, Phase2Waiters, s.Pending());
    var second := s.Select(Phase2Waiters, s.Pending());
    SendAfter(ms, s.(flags := ClearWait(s.flags, second)), s.Phase2Messages(second));
    StoreAfter(ms, s);
    DiscardAfter(ms, s);
    AfterSaveAfter(ms, s.StoreOrDiscard());
  }

  lemma NoClientsAfter(ms: seq<Message>, s: Server)
    requires s.WellFormed()
    ensures After(ms, s).CompleteIfNoClients() == After(ms, s.CompleteIfNoClients())
  {
    hide Server.CompleteShutdownOrCheckpoint;
    CompletingAfter(ms, s);
  }

  // ---- starting a round ----

  lemma AskAfter(ms: seq<Message>, s: Server, who: Who)
    ensures After(ms, s).Send(After(ms, s).SaveMessages(After(ms, s).Select(who, s.clients)))
         == After(ms, s.Send(s.SaveMessages(s.Select(who, s.clients))))
  {
    hide Server.SaveMessages, Server.Select;
    SelectAfter(ms, s, who, s.clients);
    SaveMessagesAfter(ms, s, s.Select(who, s.clients));
    SendAfter(ms, s, s.SaveMessages(s.Select(who, s.clients)));
  }

  lemma RoundAfter(ms: seq<Message>, s: Server)
    requires s.WellFormed()
    ensures After(ms, s).AskFirst().WellFormed() && s.AskFirst().WellFormed()
    ensures After(ms, s).AskFirst().CompleteIfNoClients() == After(ms, s.AskFirst().CompleteIfNoClients())
  {
    hide Server.CompleteIfNoClients;
    AskAfter(ms, s, if s.wmWaiting > 0 then WindowManagers else Everyone);
    NoClientsAfter(ms, s.AskFirst());
  }

  ghost function LogoutStart(s: Server, save: bool): Server {
    s.(pendingShutdown := false, phase := Shutdown, protection := true,
       saving := Saving(if save then SaveBoth else SaveGlobal, save,
                        if save then PREVIOUS_LOGOUT else s.saving.sessionGroup, s.saving.config),
       flags := ResetFlags(s.flags, s.clients), wmWaiting := s.CountWMs(s.clients))
  }

  lemma LogoutStarts(s: Server, save: bool)
    requires s.WellFormed() && s.phase == Idle
    ensures LogoutStart(s, save).AskFirst().WellFormed()
    ensures s.ShutdownEvent(true, save) == LogoutStart(s, save).AskFirst().CompleteIfNoClients()
  {
    hide Server.CompleteIfNoClients, Server.CountWMs, ResetFlags, Server.SaveMessages, Server.Select;
  }

  lemma LogoutAfter(ms: seq<Message>, s: Server, confirmed: bool, save: bool)
    requires s.WellFormed()
    ensures After(ms, s).ShutdownEvent(confirmed, save) == After(ms, s.ShutdownEvent(confirmed, save))
  {
    if s.phase == Idle && confirmed {
      hide Server.ShutdownEvent, Server.CompleteIfNoClients, Server.AskFirst, Server.CountWMs, ResetFlags;
      WellFormedAfter(ms, s);
      CountAfter(ms, s, s.clients);
      LogoutStarts(s, save);
      LogoutStarts(After(ms, s), save);
      RoundAfter(ms, LogoutStart(s, save));
    }
  }

  lemma CountAfter(ms: seq<Message>, s: Server, ids: seq<ClientId>)
    ensures After(ms, s).CountWMs(ids) == s.CountWMs(ids)
  {
    hide Server.CountWMs;
    SelectAfter(ms, s, WindowManagers, ids);
    assert After(ms, s).CountWMs(ids) == |After(ms, s).Select(WindowManagers, ids)|;
    assert s.CountWMs(ids) == |s.Select(WindowManagers, ids)|;
  }

  lemma CheckpointAfter(ms: seq<Message>, s: Server)
    requires s.WellFormed()
    ensures After(ms, s).SaveCurrentSession() == After(ms, s.SaveCurrentSession())
  {
    hide Server.CompleteIfNoClients, Server.AskFirst, Server.CountWMs, ResetFlags;
    CountAfter(ms, s, s.clients);
    RoundAfter(ms, s.(phase := Checkpoint,
      saving := Saving(SaveLocal, true, if s.CurrentSession() == "" || s.saving.sessionGroup == PREVIOUS_LOGOUT
                                        then BY_USER else s.saving.sessionGroup, s.saving.config),
      flags := ResetFlags(s.flags, s.clients), wmWaiting := s.CountWMs(s.clients)));
  }

  lemma SubSessionAfter(ms: seq<Message>, s: Server, name: string, close: set<string>, only: set<string>)
    requires s.WellFormed()
    ensures After(ms, s).SaveSubSession(name, close, only) == After(ms, s.SaveSubSession(name, close, only))
  {
    hide Server.CompleteShutdownOrCheckpoint, Server.Named, Server.SaveMessages, ResetFlags;
    var u := s.(phase := ClosingSubSession, protection := true,
                saving := Saving(SaveBoth, true, "SubSession: " + name, s.saving.config));
    NamedSame(s, After(ms, s), s.clients, close + only);
    NamedSame(s, After(ms, s), s.clients, close);
    var saved, killed := s.Named(s.clients, close + only), s.Named(s.clients, close);
    AddedKeeps(u, s, saved, killed);
    AddingAfter(ms, u, saved, killed);
    if s.phase == Idle { CompletingAfter(ms, u.AddToSubSession(saved, killed)); }
  }

  lemma AddedKeeps(u: Server, s: Server, saved: seq<ClientId>, killed: seq<ClientId>)
    requires u.WellFormed() && u.clients == s.clients && u.fixed == s.fixed && forall c :: c in saved || c in killed ==> c in s.clients
    ensures u.AddToSubSession(saved, killed).WellFormed()
  {
    hide Server.SaveMessages;
  }

  lemma AddingAfter(ms: seq<Message>, u: Server, saved: seq<ClientId>, killed: seq<ClientId>)
    ensures After(ms, u).AddToSubSession(saved, killed) == After(ms, u.AddToSubSession(saved, killed))
  {
    hide Server.SaveMessages;
    var t := u.(flags := ResetFlags(u.flags, saved), sub := SubSession(u.sub.toSave + saved, u.sub.toKill + killed));
    SaveMessagesAfter(ms, u, saved);
    SendAfter(ms, t, u.SaveMessages(saved));
  }

  // ---- reports and interaction ----

  lemma ReportedAfter(ms: seq<Message>, s: Server, c: ClientId, first: bool)
    ensures After(ms, s).WmReported(c, first) == After(ms, s.WmReported(c, first))
  {
    hide Server.Select, Server.SaveMessages;
    SelectAfter(ms, s, Others, s.clients);
    SaveMessagesAfter(ms, s, s.Select(Others, s.clients));
    if s.wmWaiting > 0 { SendAfter(ms, s.(wmWaiting := s.wmWaiting - 1), s.TellOthers(c, first)); }
  }

  lemma DoneAfter(ms: seq<Message>, s: Server, c: ClientId)
    requires s.WellFormed() && c in s.flags
    ensures After(ms, s).SaveYourselfDone(c) == After(ms, s.SaveYourselfDone(c))
  {
    hide Server.CompleteShutdownOrCheckpoint, Server.WmReported, Properties.DiscardCommand;
    SendAfter(ms, s, s.DiscardOf(c));
    var u := s.(flags := s.flags[c := s.flags[c].(saveYourselfDone := true)]);
    CompletingAfter(ms, u);
    ReportedAfter(ms, u.CompleteShutdownOrCheckpoint().(protection := true), c, !s.flags[c].wasPhase2);
  }

  lemma Phase2After(ms: seq<Message>, s: Server, c: ClientId)
    requires s.WellFormed() && c in s.flags
    ensures After(ms, s).Phase2Request(c) == After(ms, s.Phase2Request(c))
  {
    hide Server.CompleteShutdownOrCheckpoint, Server.WmReported;
    var u := s.(flags := s.flags[c := s.flags[c].(waitForPhase2 := true, wasPhase2 := true)]);
    CompletingAfter(ms, u);
    ReportedAfter(ms, u.CompleteShutdownOrCheckpoint(), c, true);
  }

  lemma TurnsAfter(ms: seq<Message>, s: Server)
    ensures After(ms, s).HandlePendingInteractions() == After(ms, s.HandlePendingInteractions())
  {
    hide Server.FirstPending;
    FirstPendingAfter(ms, s, s.clients);
    var k := s.FirstPending(s.clients);
    if k < |s.clients| {
      assert ms + (s.sent + [Interact(s.clients[k])]) == ms + s.sent + [Interact(s.clients[k])];
    }
  }

  lemma InteractAfter(ms: seq<Message>, s: Server, c: ClientId)
    requires s.WellFormed() && c in s.flags
    ensures After(ms, s).InteractRequest(c) == After(ms, s.InteractRequest(c))
  {
    hide Server.HandlePendingInteractions;
    TurnsAfter(ms, s.(flags := s.flags[c := s.flags[c].(pendingInteraction := true)]));
    TurnsAfter(ms, s.Send([Interact(c)]));
    SendAfter(ms, s, [Interact(c)]);
  }

  lemma InteractedAfter(ms: seq<Message>, s: Server, c: ClientId, cancel: bool)
    requires s.WellFormed() && c in s.flags
    ensures After(ms, s).InteractDone(c, cancel) == After(ms, s.InteractDone(c, cancel))
  {
    hide Server.HandlePendingInteractions, Server.CancelShutdown;
    TurnsAfter(ms, s.(interacting := None));
    CancelAfter(ms, s.(interacting := None));
  }

  lemma CancelAfter(ms: seq<Message>, s: Server)
    requires s.WellFormed()
    ensures After(ms, s).WellFormed() && After(ms, s).CancelShutdown() == After(ms, s.CancelShutdown())
  {
    hide Server.CancelMessages;
    var t := s.(interacting := None, phase := Idle);
    CancelMessagesAfter(ms, s, s.clients);
    SendAfter(ms, t, s.CancelMessages(s.clients));
    SendAfter(ms, t.(sub := NO_SUB), [SubSessionCloseCanceled]);
  }

  lemma TimeoutAfter(ms: seq<Message>, s: Server)
    requires s.WellFormed()
    ensures After(ms, s).ProtectionTimeout() == After(ms, s.ProtectionTimeout())
  {
    hide Server.CompleteShutdownOrCheckpoint, GiveUp;
    CompletingAfter(ms, s.(protection := false, flags := GiveUp(s.flags, s.clients)));
  }

  // ---- killing and leaving ----

  lemma KillAfter(ms: seq<Message>, s: Server)
    ensures After(ms, s).KillWM() == After(ms, s.KillWM())
  {
    hide Server.KillWM, Server.Select;
    KillingWm(s);
    KillingWm(After(ms, s));
    SelectAfter(ms, s, WindowManagers, s.clients);
    DieSame(After(ms, s), s, s.Select(WindowManagers, s.clients));
    assert ms + (s.sent + KillNews(s)) == ms + s.sent + KillNews(s);
  }

  lemma KillingAfter(ms: seq<Message>, s: Server)
    ensures After(ms, s).CompleteKilling() == After(ms, s.CompleteKilling())
  {
    hide Server.KillWM, Server.Select;
    SelectAfter(ms, s, Others, s.clients);
    KillAfter(ms, s);
  }

  lemma SoundAfter(ms: seq<Message>, s: Server)
    ensures After(ms, s).LogoutSoundFinished() == After(ms, s.LogoutSoundFinished())
  {
    hide Server.CompleteKilling, Server.Select, Server.DieMessages;
    var t := s.(phase := Killing);
    SelectAfter(ms, s, Others, s.clients);
    DieSame(After(ms, s), s, s.Select(Others, s.clients));
    DieSame(After(ms, t), s, s.Select(Others, s.clients));
    DieSame(t, s, s.Select(Others, s.clients));
    SendAfter(ms, t, s.DieMessages(s.Select(Others, s.clients)));
    KillingAfter(ms, t.Send(s.DieMessages(s.Select(Others, s.clients))));
  }

  lemma ContinueAfter(ms: seq<Message>, s: Server)
    ensures After(ms, s).ContinueKilling() == After(ms, s.ContinueKilling())
  {
    hide Server.CompleteKilling, Server.CompleteKillingSubSession;
    KillingAfter(ms, s);
    KillingSubSessionAfter(ms, s);
    var t := if s.phase == Killing then s.CompleteKilling()
             else if s.phase == KillingSubSession then s.CompleteKillingSubSession() else s;
    SendAfter(ms, t, [Quit]);
  }

  lemma LeaveAfter(ms: seq<Message>, s: Server, c: ClientId)
    requires s.WellFormed() && c in s.flags
    ensures After(ms, s).DeleteClient(c) == After(ms, s.DeleteClient(c))
  {
    hide Server.CompleteShutdownOrCheckpoint, Server.ContinueKilling, Server.Drop;
    WellFormedAfter(ms, s);
    DroppedWellFormed(s, c);
    DropAfter(ms, s, c);
    CompletingAfter(ms, s.Drop(c));
    ContinueAfter(ms, s.Drop(c).CompleteShutdownOrCheckpoint());
  }

  lemma DropAfter(ms: seq<Message>, s: Server, c: ClientId)
    ensures After(ms, s).Drop(c) == After(ms, s.Drop(c))
  {
    hide Server.HandlePendingInteractions;
    TurnsAfter(ms, s.(clients := Removed(s.clients, c), flags := s.flags - {c},
                      sub := SubSession(Removed(s.sub.toSave, c), Removed(s.sub.toKill, c)), interacting := None));
  }

  /** Whatever the event, its handler does the same after any messages. */
  lemma HandleAfter(ms: seq<Message>, s: Server, nextId: ClientId, e: Event)
    requires s.WellFormed() && Knows(s, e)
    ensures After(ms, s).WellFormed() && Handle(After(ms, s), nextId, e) == After(ms, Handle(s, nextId, e))
  {
    hide Server.DeleteClient, Server.ShutdownEvent, Server.SaveCurrentSession, Server.SaveSubSession,
      Server.SaveYourselfDone, Server.Phase2Request, Server.InteractRequest, Server.InteractDone,
      Server.ProtectionTimeout, Server.LogoutSoundFinished, Server.KillWM, Server.SignalSubSessionClosed;
    WellFormedAfter(ms, s);
    match e
    case Leave(c) => LeaveAfter(ms, s, c);
    case Logout(confirmed, save) => LogoutAfter(ms, s, confirmed, save);
    case SaveSession => CheckpointAfter(ms, s);
    case CloseSubSession(name, close, only) => SubSessionAfter(ms, s, name, close, only);
    case Done(c) => DoneAfter(ms, s, c);
    case AskPhase2(c) => Phase2After(ms, s, c);
    case AskInteract(c) => InteractAfter(ms, s, c);
    case EndInteract(c, cancel) => InteractedAfter(ms, s, c, cancel);
    case ProtectionTimer => TimeoutAfter(ms, s);
    case SoundFinished => SoundAfter(ms, s);
    case KillTimer => KillAfter(ms, s);
    case WmKillTimer => SendAfter(ms, s, [Quit]);
    case SubSessionTimer => SubSessionClosedAfter(ms, s);
    case _ =>
  }
}
