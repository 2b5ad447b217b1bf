/**
 What every run of the session manager keeps: the window manager saves first, nobody is skipped, one
 client interacts at a time, a round always ends, and the window manager is killed last.
 */
module SessionRounds {
  import opened SessionStore
  import opened SessionModel

  datatype Event =
    | Join(props: Properties)
    | Leave(c: ClientId)
    | Logout(confirmed: bool, save: bool)
    | SaveSession
    | CloseSubSession(name: string, saveAndClose: set<string>, saveOnly: set<string>)
    | Done(c: ClientId)
    | AskPhase2(c: ClientId)
    | AskInteract(c: ClientId)
    | EndInteract(c: ClientId, cancel: bool)
    | ProtectionTimer
    | SoundFinished
    | KillTimer
    | WmKillTimer
    | SubSessionTimer
    | StartupBegins
    | StartupEnds

  /** The server together with what an observer has seen since the current round began. */
  datatype Run = Run(
    s: Server,                  // its sent field holds the messages of the last event only
    nextId: ClientId,
    done: set<ClientId>,        // clients that reported done
    asked: set<ClientId>,       // clients that asked for phase 2
    told: multiset<ClientId>,   // how often the round's SaveYourself was sent to whom
    granted: set<ClientId>,     // clients that were told to interact and have neither finished nor left
    timedOut: bool,             // the protection timer gave up on clients
    begunAt: ClientId,          // clients with smaller identities were there when the round began
    counted: bool,              // it began with the count of awaited window managers right
    cleared: bool)              // and with no request to interact left over from an earlier one

  predicate StartsRound(s: Server, e: Event) {
    s.phase == Idle && ((e.Logout? && e.confirmed) || e.SaveSession? || e.CloseSubSession?)
  }

  /** Closing part of the session does not count the window managers. */
  predicate CountIsFresh(s: Server, e: Event) { e.CloseSubSession? ==> s.wmWaiting == 0 }

  /** And it only clears the requests of the clients it names. */
  predicate TurnsAreFresh(s: Server, e: Event) {
    e.CloseSubSession? ==>
      forall c :: c in s.flags && s.flags[c].pendingInteraction ==> c in s.Named(s.clients, e.saveAndClose + e.saveOnly)
  }

  predicate Knows(s: Server, e: Event) {
    match e
    case Leave(c) => c in s.flags
    case Done(c) => c in s.flags
    case AskPhase2(c) => c in s.flags
    case AskInteract(c) => c in s.flags
    case EndInteract(c, _) => c in s.flags
    case _ => true
  }

  function Handle(s: Server, nextId: ClientId, e: Event): Server
    requires s.WellFormed() && Knows(s, e)
  {
    match e
    case Join(p) => s.NewClient(nextId, p)
    case Leave(c) => s.DeleteClient(c)
    case Logout(confirmed, save) => s.ShutdownEvent(confirmed, save)
    case SaveSession => s.SaveCurrentSession()
    case CloseSubSession(name, close, only) => s.SaveSubSession(name, close, only)
    case Done(c) => s.SaveYourselfDone(c)
    case AskPhase2(c) => s.Phase2Request(c)
    case AskInteract(c) => s.InteractRequest(c)
    case EndInteract(c, cancel) => s.InteractDone(c, cancel)
    case ProtectionTimer => s.ProtectionTimeout()
    case SoundFinished => s.LogoutSoundFinished()
    case KillTimer => s.KillTimeout()
    case WmKillTimer => s.WmKillTimeout()
    case SubSessionTimer => s.SignalSubSessionClosed()
    case StartupBegins => if s.phase == Idle then s.(phase := Starting) else s
    case StartupEnds => if s.phase == Starting then s.(phase := Idle) else s
  }

  function SaveTargets(ms: seq<Message>): (r: multiset<ClientId>) {
    if ms == [] then multiset{} else
      var m := ms[|ms| - 1];
      SaveTargets(ms[..|ms| - 1]) + (if m.SaveYourself? then multiset{m.to} else multiset{})
  }

  function InteractTargets(ms: seq<Message>): (r: set<ClientId>)
    ensures forall c :: c in r <==> Interact(c) in ms
  {
    if ms == [] then {} else
      var m := ms[|ms| - 1];
      InteractTargets(ms[..|ms| - 1]) + (if m.Interact? then {m.to} else {})
  }

  function Step(r: Run, e: Event): Run
    requires r.s.WellFormed() && Knows(r.s, e)
  {
    var s := Handle(r.s.(sent := []), r.nextId, e);
    var starts := StartsRound(r.s, e);
    Run(s,
        if e.Join? then r.nextId + 1 else r.nextId,
        (if starts then {} else r.done) + (if e.Done? then {e.c} else {}),
        (if starts then {} else r.asked) + (if e.AskPhase2? then {e.c} else {}),
        (if starts then multiset{} else r.told) + SaveTargets(s.sent),
        (if starts then {} else if e.Leave? || e.EndInteract? then r.granted - {e.c} else r.granted) + InteractTargets(s.sent),
        (if starts then false else r.timedOut) || (e.ProtectionTimer? && r.s.InRound() && r.s.interacting.None?),
        if starts then r.nextId else r.begunAt,
        if starts then CountIsFresh(r.s, e) else r.counted,
        if starts then TurnsAreFresh(r.s, e) else r.cleared)
  }

  /** The clients' side of the protocol, and timers firing only when they run. */
  ghost predicate Allowed(r: Run, e: Event)
    requires r.s.WellFormed()
  {
    && Knows(r.s, e)
    && (StartsRound(r.s, e) ==> r.s.interacting.None?)
    && match e
       case Join(p) => p.Program() == r.s.fixed.wm ==> r.s.phase == Idle || r.s.phase == Starting
       case Done(c) => r.s.phase != Idle && r.s.IsWM(c) ==> c !in r.done
       case AskPhase2(c) =>
         r.s.phase != Idle && r.s.phase != Starting && (r.s.IsWM(c) ==> c !in r.done && c !in r.asked)
       case ProtectionTimer => r.s.protection
       case EndInteract(c, cancel) =>
         cancel && r.s.interacting == Some(c) ==> r.s.phase == Shutdown || r.s.phase == ClosingSubSession
       case WmKillTimer => r.s.phase == KillingWM
       case StartupBegins => r.s.wmWaiting == 0   // the session starts up once, before it is ever saved
       case _ => true
  }

  ghost predicate NoRepeats(ids: seq<ClientId>) {
    forall i, j :: 0 <= i < j < |ids| ==> ids[i] != ids[j]
  }

  /** Window managers that still owe their first report of this round. */
  ghost function Unreported(r: Run): set<ClientId> {
    set c | c in r.s.clients && r.s.IsWM(c) && c !in r.done && c !in r.asked
  }

  predicate LoggingOut(phase: Phase) {
    phase == Shutdown || phase == Checkpoint || phase == WaitingForKNotify || phase == Killing || phase == KillingWM
  }

  ghost predicate Bookkeeping(r: Run) {
    && r.s.WellFormed() && NoRepeats(r.s.clients)
    && (forall c :: c in r.s.fixed.props ==> c < r.nextId)
    && (forall c :: c in r.done || c in r.asked || c in r.told || c in r.granted ==> c < r.nextId)
    && (r.s.phase != ClosingSubSession && r.s.phase != KillingSubSession ==> r.s.sub == NO_SUB)
    && r.begunAt <= r.nextId && (LoggingOut(r.s.phase) ==> r.counted && r.cleared)
  }

  /** The waiting count never falls below the number of window managers that still have to report. */
  ghost predicate WmsCounted(r: Run) {
    LoggingOut(r.s.phase) ==>
      && |Unreported(r)| <= r.s.wmWaiting
      && (forall c :: c in r.s.flags ==> (r.s.flags[c].wasPhase2 <==> c in r.asked))
  }

  /** The round's SaveYourself reaches a client at most once, and while window managers are awaited only them. */
  ghost predicate ToldOnce(r: Run) {
    && (r.counted ==> forall c :: c in r.told ==> r.told[c] == 1)
    && (r.s.wmWaiting > 0 && LoggingOut(r.s.phase) ==> forall c :: c in r.told ==> r.s.IsWM(c))
    && (r.counted && (r.s.phase == ClosingSubSession || r.s.phase == KillingSubSession) ==> r.s.wmWaiting == 0)
    && (r.s.phase == Starting ==> r.s.wmWaiting == 0)
  }

  /** The window managers that were there when the round began have been told, and so has everybody else that was
      once no window manager is awaited any more. */
  ghost predicate MembersTold(r: Run) {
    LoggingOut(r.s.phase) ==>
      forall c :: c in r.s.clients && c < r.begunAt && (r.s.wmWaiting == 0 || r.s.IsWM(c)) ==> c in r.told
  }

  /** Flags speak the truth as long as the protection timer has not given up on anybody. */
  ghost predicate Truthful(r: Run)
    requires r.s.WellFormed()
  {
    r.s.InRound() && !r.timedOut ==> forall c :: c in r.s.Pending() ==>
      && (r.s.flags[c].saveYourselfDone ==> c in r.done)
      && (r.s.flags[c].waitForPhase2 ==> c in r.asked)
  }

  /** Somebody interacts, or the protection timer runs: a silent client cannot block the round. */
  ghost predicate Guarded(r: Run) {
    r.s.phase == Shutdown || r.s.phase == ClosingSubSession ==> r.s.protection || r.s.interacting.Some?
  }

  /** One client interacts at a time, and nobody waits for it while the turn is free. */
  ghost predicate OneInteracts(r: Run) {
    r.s.phase == Shutdown || r.s.phase == ClosingSubSession ==>
      && r.granted == (if r.s.interacting.Some? then {r.s.interacting.value} else {})
      && (r.cleared && r.s.interacting.None? ==> forall c :: c in r.s.flags ==> !r.s.flags[c].pendingInteraction)
  }

  ghost predicate Inv(r: Run) {
    && Bookkeeping(r) && WmsCounted(r) && ToldOnce(r) && MembersTold(r)
    && Truthful(r) && Guarded(r) && OneInteracts(r)
  }

  // ---- what the parts of a handler may change ----

  /** Nothing that asks a client to save or to interact. */
  predicate Quiet(ms: seq<Message>) {
    forall m :: m in ms ==> !m.SaveYourself? && !m.Interact? && !m.SaveYourselfPhase2?
  }

  ghost function News(s: Server, t: Server): seq<Message>
    requires |s.sent| <= |t.sent|
  {
    t.sent[|s.sent|..]
  }

  /** t is s with more messages sent. */
  ghost predicate Extends(s: Server, t: Server) {
    |s.sent| <= |t.sent| && t.sent[..|s.sent|] == s.sent
  }

  /** What saving may change besides the configuration: the phase and the order of the clients. */
  ghost predicate Saves(s: Server, t: Server) {
    && t.WellFormed() && Extends(s, t) && Quiet(News(s, t))
    && t.flags == s.flags && t.pendingShutdown == s.pendingShutdown
    && t.fixed == s.fixed && t.wmWaiting == s.wmWaiting && t.saving.saveType == s.saving.saveType
    && t.interacting == s.interacting && t.protection == s.protection
    && (forall c :: c in t.clients <==> c in s.clients) && (NoRepeats(s.clients) ==> NoRepeats(t.clients))
    && MovesOn(s.phase, t.phase)
  }

  predicate MovesOn(from: Phase, to: Phase) {
    || to == from
    || (from == Shutdown && to == WaitingForKNotify)
    || (from == Checkpoint && to == Idle)
    || (from == ClosingSubSession && (to == KillingSubSession || to == Idle))
  }

  ghost predicate SubSessionLists(s: Server) {
    s.phase != ClosingSubSession && s.phase != KillingSubSession ==> s.sub == NO_SUB
  }

  lemma MovedToFrontNoRepeats(ids: seq<ClientId>, k: nat)
    requires k < |ids| && NoRepeats(ids)
    ensures NoRepeats([ids[k]] + ids[..k] + ids[k + 1..])
  {
    var r := [ids[k]] + ids[..k] + ids[k + 1..];
    assert forall i :: 0 <= i < |r| ==> r[i] == ids[if i == 0 then k else if i <= k then i - 1 else i];
  }

  lemma WmFirstNoRepeats(s: Server)
    requires s.WellFormed() && NoRepeats(s.clients)
    ensures NoRepeats(WmFirst(s.clients, s.fixed.props, s.fixed.wm))
  {
    hide NoRepeats, FirstWm;
    var k := FirstWm(s.clients, s.fixed.props, s.fixed.wm);
    if k < |s.clients| { MovedToFrontNoRepeats(s.clients, k); }
  }

  lemma {:induction false} OldDiscardsQuiet(s: Server, g: Group, n: nat)
    ensures Quiet(s.OldDiscards(g, n))
  {
    if n != 0 { OldDiscardsQuiet(s, g, n - 1); }
  }

  lemma {:induction false} DiscardCommandsQuiet(s: Server, g: Group, ids: seq<ClientId>)
    ensures Quiet(s.DiscardCommands(g, ids))
  {
    if ids != [] { DiscardCommandsQuiet(s, g, ids[..|ids| - 1]); }
  }

  lemma OrderedSaves(s: Server, ordered: seq<ClientId>, saving: Saving, ms: seq<Message>)
    requires s.WellFormed() && (forall c :: c in ordered <==> c in s.clients)
    requires NoRepeats(s.clients) ==> NoRepeats(ordered)
    requires saving.saveType == s.saving.saveType && Quiet(ms)
    ensures Saves(s, s.(clients := ordered, saving := saving).Send(ms))
  {
    assert News(s, s.(clients := ordered, saving := saving).Send(ms)) == ms;
  }

  lemma StoreSaves(s: Server)
    requires s.WellFormed()
    ensures Saves(s, s.StoreSession()) && s.StoreSession().phase == s.phase
    ensures s.StoreSession().sub == s.sub
  {
    hide Saves, Server.OldDiscards, Numbered, EntriesFor, StoredIds, Server.InBoth, NoRepeats, Quiet, WmFirst;
    var discards := s.OldDiscards(s.OldGroup(), s.OldGroup().count);
    OldDiscardsQuiet(s, s.OldGroup(), s.OldGroup().count);
    QuietStored(discards);
    if NoRepeats(s.clients) { WmFirstNoRepeats(s); }
    var t := s.StoreSession();
    OrderedSaves(s, t.clients, t.saving, discards + [Stored]);
  }

  lemma QuietStored(ms: seq<Message>)
    requires Quiet(ms)
    ensures Quiet(ms + [Stored])
  {
  }

  lemma DiscardSaves(s: Server)
    requires s.WellFormed()
    ensures Saves(s, s.DiscardSession()) && s.DiscardSession().phase == s.phase
    ensures s.DiscardSession().sub == s.sub
  {
    hide Server.DiscardCommands;
    DiscardCommandsQuiet(s, s.OldGroup(), s.clients);
  }

  lemma SavesTransitive(s: Server, t: Server, u: Server)
    requires Saves(s, t) && Saves(t, u)
    requires t.phase == s.phase || u.phase == t.phase || (s.phase == ClosingSubSession && u.phase == Idle)
    ensures Saves(s, u)
  {
    assert News(s, u) == News(s, t) + News(t, u);
  }

  /** The sub-session's clients are told to die; if none of them has to be waited for, that is the end of it. */
  lemma KillingSubSessionSaves(s: Server)
    requires s.WellFormed() && s.phase == ClosingSubSession
    ensures Saves(s, s.AfterSave()) && !s.AfterSave().InRound() && SubSessionLists(s.AfterSave())
  {
    var t := s.(phase := KillingSubSession).Send(s.DieMessages(s.sub.toKill));
    if t.Select(Others, t.sub.toKill) == [] {
      assert s.AfterSave() == t.(sub := NO_SUB, phase := Idle).Send([SubSessionClosed]);
      assert News(s, s.AfterSave()) == s.DieMessages(s.sub.toKill) + [SubSessionClosed];
    } else {
      assert s.AfterSave() == t;
      assert News(s, t) == s.DieMessages(s.sub.toKill);
    }
  }

  lemma AfterSaveCompletes(s: Server)
    requires s.WellFormed() && s.InRound()
    ensures Saves(s, s.AfterSave()) && !s.AfterSave().InRound()
    ensures SubSessionLists(s) ==> SubSessionLists(s.AfterSave())
  {
    if s.phase == ClosingSubSession { KillingSubSessionSaves(s); }
    else if s.phase == Checkpoint { assert News(s, s.AfterSave()) == s.SaveCompletes(s.clients); }
    else { assert News(s, s.AfterSave()) == []; }
  }

  /** Once the session is stored or discarded, the round is over. */
  lemma SavedThenOver(s: Server, u: Server)
    requires Saves(s, u) && s.InRound() && u.phase == s.phase && u.sub == s.sub
    ensures Saves(s, u.AfterSave()) && !u.AfterSave().InRound()
    ensures SubSessionLists(s) ==> SubSessionLists(u.AfterSave())
  {
    AfterSaveCompletes(u);
    SavesTransitive(s, u, u.AfterSave());
  }

  lemma StoredOrDiscarded(s: Server)
    requires s.WellFormed() && s.InRound()
    ensures var t := s.StoreOrDiscard().AfterSave();
      Saves(s, t) && !t.InRound() && (SubSessionLists(s) ==> SubSessionLists(t))
  {
    if s.saving.saveSession {
      StoreSaves(s);
      SavedThenOver(s, s.StoreSession());
    } else {
      DiscardSaves(s);
      SavedThenOver(s, s.DiscardSession());
    }
  }

  lemma AllDone(s: Server)
    requires s.WellFormed() && s.Select(Phase2Waiters, s.Pending()) == []
    requires forall c :: c in s.Pending() ==> s.Reported(c)
    ensures forall c :: c in s.Pending() ==> s.flags[c].saveYourselfDone
  {
    forall c | c in s.Pending() ensures s.flags[c].saveYourselfDone {
      assert c !in s.Select(Phase2Waiters, s.Pending());
    }
  }

  /** Completing a round either waits, or starts phase 2, or saves. */
  lemma Completing(s: Server)
    requires s.WellFormed()
    ensures var t := s.CompleteShutdownOrCheckpoint();
      if !s.InRound() || (exists c :: c in s.Pending() && !s.Reported(c)) then t == s
      else
        var second := s.Select(Phase2Waiters, s.Pending());
        if second != [] then
          t == s.(flags := ClearWait(s.flags, second)).Send(s.Phase2Messages(second))
        else
          t == s.StoreOrDiscard().AfterSave()
  {
    if s.InRound() && forall c :: c in s.Pending() ==> s.Reported(c) {
      assert forall i :: 0 <= i < |s.Pending()| ==> s.Pending()[i] in s.Pending();
    }
  }

  /** What completing a round changes, whatever it does. */
  ghost predicate Completes(s: Server, t: Server) {
    && t.WellFormed() && Extends(s, t) && (forall m :: m in News(s, t) ==> !m.SaveYourself? && !m.Interact?)
    && t.pendingShutdown == s.pendingShutdown
    && t.fixed == s.fixed && t.wmWaiting == s.wmWaiting && t.saving.saveType == s.saving.saveType
    && t.interacting == s.interacting && t.protection == s.protection
    && (forall c :: c in t.clients <==> c in s.clients) && (NoRepeats(s.clients) ==> NoRepeats(t.clients))
    && t.flags.Keys == s.flags.Keys
    && (forall c :: c in s.flags ==> t.flags[c] == s.flags[c] || t.flags[c] == s.flags[c].(waitForPhase2 := false))
    && MovesOn(s.phase, t.phase)
    && (t.phase == s.phase ==> t.sub == s.sub) && (SubSessionLists(s) ==> SubSessionLists(t))
  }

  lemma CompletingCompletes(s: Server)
    requires s.WellFormed()
    ensures Completes(s, s.CompleteShutdownOrCheckpoint())
  {
    Completing(s);
    if s.InRound() && forall c :: c in s.Pending() ==> s.Reported(c) {
      if s.Select(Phase2Waiters, s.Pending()) == [] {
        StoredOrDiscarded(s);
        SavesCompletes(s, s.StoreOrDiscard().AfterSave());
      } else {
        Phase2Completes(s, s.Select(Phase2Waiters, s.Pending()));
      }
    } else {
      UnchangedCompletes(s);
    }
  }

  lemma UnchangedCompletes(s: Server)
    requires s.WellFormed()
    ensures Completes(s, s)
  {
  }

  lemma SavesCompletes(s: Server, t: Server)
    requires Saves(s, t) && s.InRound() && !t.InRound() && (SubSessionLists(s) ==> SubSessionLists(t))
    ensures Completes(s, t)
  {
  }

  lemma Phase2Completes(s: Server, second: seq<ClientId>)
    requires s.WellFormed()
    ensures Completes(s, s.(flags := ClearWait(s.flags, second)).Send(s.Phase2Messages(second)))
  {
    FlagsAndMessagesComplete(s, ClearWait(s.flags, second), s.Phase2Messages(second));
  }

  lemma FlagsAndMessagesComplete(s: Server, flags: map<ClientId, Flags>, ms: seq<Message>)
    requires s.WellFormed() && flags.Keys == s.flags.Keys
    requires forall c :: c in s.flags ==> flags[c] == s.flags[c] || flags[c] == s.flags[c].(waitForPhase2 := false)
    requires forall m :: m in ms ==> !m.SaveYourself? && !m.Interact?
    ensures Completes(s, s.(flags := flags).Send(ms))
  {
    assert News(s, s.(flags := flags).Send(ms)) == ms;
  }

  // ---- each event keeps the invariant ----

  lemma {:induction false} SaveTargetsConcat(a: seq<Message>, b: seq<Message>)
    ensures SaveTargets(a + b) == SaveTargets(a) + SaveTargets(b)
  {
    if b == [] {
      assert a + b == a;
    } else {
      SaveTargetsConcat(a, b[..|b| - 1]);
      assert (a + b)[..|a + b| - 1] == a + b[..|b| - 1];
    }
  }

  lemma {:induction false} NoSaveTargets(ms: seq<Message>)
    requires forall m :: m in ms ==> !m.SaveYourself?
    ensures SaveTargets(ms) == multiset{}
  {
    if ms != [] { NoSaveTargets(ms[..|ms| - 1]); }
  }

  /** SaveYourself sent to each client of a list without repeats counts once for each. */
  lemma {:induction false} SaveTargetsOfSave(s: Server, ids: seq<ClientId>)
    requires NoRepeats(ids)
    ensures forall c :: SaveTargets(s.SaveMessages(ids))[c] == if c in ids then 1 else 0
  {
    if ids != [] {
      var k := |ids| - 1;
      SaveTargetsOfSave(s, ids[..k]);
      assert s.SaveMessages(ids)[..k] == s.SaveMessages(ids[..k]);
      assert ids == ids[..k] + [ids[k]];
    }
  }

  lemma {:induction false} SelectNoRepeats(s: Server, who: Who, ids: seq<ClientId>)
    requires NoRepeats(ids)
    ensures NoRepeats(s.Select(who, ids))
  {
    if ids != [] {
      SelectNoRepeats(s, who, ids[..|ids| - 1]);
    }
  }

  /** The same observations of another server. */
  ghost function With(r: Run, s: Server): Run { r.(s := s) }

  lemma CompletingKeeps(r: Run, t: Server)
    requires Inv(r) && Completes(r.s, t)
    ensures Inv(With(r, t))
  {
    CompletingKeepsBooks(r, t);
    CompletingKeepsCounts(r, t);
    CompletingKeepsMembers(r, t);
    CompletingKeepsTruth(r, t);
    CompletingKeepsTurns(r, t);
  }

  lemma CompletingKeepsBooks(r: Run, t: Server)
    requires Bookkeeping(r) && Completes(r.s, t)
    ensures Bookkeeping(With(r, t))
  {
  }

  lemma CompletingKeepsCounts(r: Run, t: Server)
    requires WmsCounted(r) && ToldOnce(r) && Completes(r.s, t)
    ensures WmsCounted(With(r, t)) && ToldOnce(With(r, t))
  {
    assert Unreported(With(r, t)) == Unreported(r);
  }

  lemma CompletingKeepsMembers(r: Run, t: Server)
    requires MembersTold(r) && Completes(r.s, t)
    ensures MembersTold(With(r, t))
  {
  }

  lemma CompletingKeepsTruth(r: Run, t: Server)
    requires Bookkeeping(r) && Truthful(r) && Completes(r.s, t)
    ensures Truthful(With(r, t))
  {
  }

  lemma CompletingKeepsTurns(r: Run, t: Server)
    requires Bookkeeping(r) && OneInteracts(r) && Completes(r.s, t)
    ensures OneInteracts(With(r, t)) && (Guarded(r) ==> Guarded(With(r, t)))
  {
  }

  /** Messages that neither ask to save nor to interact leave the observations as they are. */
  lemma PlainNews(ms: seq<Message>)
    requires forall m :: m in ms ==> !m.SaveYourself? && !m.Interact?
    ensures SaveTargets(ms) == multiset{} && InteractTargets(ms) == {}
  {
    NoSaveTargets(ms);
  }

  ghost predicate OnlyWmsTold(r: Run) {
    r.counted && r.s.wmWaiting > 0 ==> forall c :: c in r.told ==> r.s.IsWM(c)
  }

  /** Counting down, with whoever was told meanwhile. */
  ghost function CountedDown(r: Run, n: nat, x: seq<Message>, told: multiset<ClientId>): Run {
    r.(s := r.s.(wmWaiting := n, sent := r.s.sent + x), told := told)
  }

  lemma CountDownKeeps(r: Run, n: nat, x: seq<Message>, told: multiset<ClientId>)
    requires Inv(r) && n <= r.s.wmWaiting && r.told <= told
    requires LoggingOut(r.s.phase) ==> |Unreported(r)| <= n
    requires forall d :: d in told ==> (r.counted ==> told[d] == 1) && d < r.nextId
    requires n > 0 && LoggingOut(r.s.phase) ==> forall d :: d in told ==> r.s.IsWM(d)
    requires n == 0 && LoggingOut(r.s.phase) ==> forall d :: d in r.s.clients && d < r.begunAt ==> d in told
    ensures Inv(CountedDown(r, n, x, told))
  {
    CountDownKeepsCounts(r, n, x, told);
    CountDownKeepsMembers(r, n, x, told);
    CountDownKeepsFlags(r, n, x, told);
  }

  lemma CountDownKeepsCounts(r: Run, n: nat, x: seq<Message>, told: multiset<ClientId>)
    requires WmsCounted(r) && ToldOnce(r) && n <= r.s.wmWaiting
    requires LoggingOut(r.s.phase) ==> |Unreported(r)| <= n
    requires r.counted ==> forall d :: d in told ==> told[d] == 1
    requires n > 0 && LoggingOut(r.s.phase) ==> forall d :: d in told ==> r.s.IsWM(d)
    ensures WmsCounted(CountedDown(r, n, x, told)) && ToldOnce(CountedDown(r, n, x, told))
  {
    assert Unreported(CountedDown(r, n, x, told)) == Unreported(r);
  }

  lemma CountDownKeepsMembers(r: Run, n: nat, x: seq<Message>, told: multiset<ClientId>)
    requires MembersTold(r) && r.told <= told
    requires n == 0 && LoggingOut(r.s.phase) ==> forall d :: d in r.s.clients && d < r.begunAt ==> d in told
    ensures MembersTold(CountedDown(r, n, x, told))
  {
    assert forall d :: d in r.told ==> d in told;
  }

  lemma CountDownKeepsFlags(r: Run, n: nat, x: seq<Message>, told: multiset<ClientId>)
    requires Bookkeeping(r) && Truthful(r) && Guarded(r) && OneInteracts(r)
    requires forall d :: d in told ==> d < r.nextId
    ensures var q := CountedDown(r, n, x, told);
      Bookkeeping(q) && Truthful(q) && Guarded(q) && OneInteracts(q)
  {
  }

  /** A window manager's first report: the count goes down, and at zero the others are told. */
  lemma WmReportedKeeps(r: Run, c: ClientId, first: bool)
    requires Inv(r) && OnlyWmsTold(r)
    requires r.s.IsWM(c) && first && r.s.wmWaiting > 0 && LoggingOut(r.s.phase) ==> |Unreported(r)| < r.s.wmWaiting
    ensures Inv(r.(s := r.s.WmReported(c, first), told := r.told + SaveTargets(r.s.TellOthers(c, first))))
  {
    hide Inv, SaveTargets, Unreported;
    var x := r.s.TellOthers(c, first);
    if r.s.IsWM(c) && first && r.s.wmWaiting > 0 {
      CountsOf(r);
      ToldAfterReport(r, c, first);
      CountDownKeeps(r, r.s.wmWaiting - 1, x, r.told + SaveTargets(x));
      assert r.s.WmReported(c, first) == r.s.(wmWaiting := r.s.wmWaiting - 1, sent := r.s.sent + x);
    } else {
      NoSaveTargets(x);
      assert r.told + SaveTargets(x) == r.told;
      assert r.(s := r.s.WmReported(c, first), told := r.told + SaveTargets(x)) == r;
    }
  }

  lemma CountsOf(r: Run)
    requires Inv(r)
    ensures Bookkeeping(r) && ToldOnce(r) && MembersTold(r)
    ensures LoggingOut(r.s.phase) ==> |Unreported(r)| <= r.s.wmWaiting
  {
  }

  lemma ToldAfterReport(r: Run, c: ClientId, first: bool)
    requires Bookkeeping(r) && ToldOnce(r) && MembersTold(r) && OnlyWmsTold(r) && r.s.wmWaiting > 0
    ensures var told := r.told + SaveTargets(r.s.TellOthers(c, first));
      && (forall d :: d in told ==> (r.counted ==> told[d] == 1) && d < r.nextId)
      && (r.s.IsWM(c) && first && r.s.wmWaiting > 1 && LoggingOut(r.s.phase) ==> forall d :: d in told ==> r.s.IsWM(d))
      && (r.s.IsWM(c) && first && r.s.wmWaiting == 1 && LoggingOut(r.s.phase) ==>
            forall d :: d in r.s.clients && d < r.begunAt ==> d in told)
  {
    if r.s.IsWM(c) && first && r.s.wmWaiting == 1 {
      OthersTold(r, r.s, r.s.Select(Others, r.s.clients));
      forall d | d in r.s.clients && !r.s.IsWM(d) ensures d in r.s.Select(Others, r.s.clients) { AddressedOthers(r.s, d); }
    } else {
      NoSaveTargets(r.s.TellOthers(c, first));
      assert r.told + multiset{} == r.told;
    }
  }

  lemma OthersTold(r: Run, s: Server, others: seq<ClientId>)
    requires Bookkeeping(r) && ToldOnce(r) && OnlyWmsTold(r) && r.s.wmWaiting > 0
    requires s == r.s && others == s.Select(Others, r.s.clients)
    ensures var told := r.told + SaveTargets(s.SaveMessages(others));
      && (forall d :: d in told ==> (r.counted ==> told[d] == 1) && d < r.nextId)
      && (forall d :: d in r.told || d in others ==> d in told)
  {
    SelectNoRepeats(s, Others, r.s.clients);
    SaveTargetsOfSave(s, others);
    var told := r.told + SaveTargets(s.SaveMessages(others));
    forall d | d in told ensures (r.counted ==> told[d] == 1) && d < r.nextId {
      if d in others {
        assert !r.s.IsWM(d);
        assert r.counted ==> d !in r.told;
      }
    }
    forall d | d in r.told || d in others ensures d in told {
      assert d in others ==> SaveTargets(s.SaveMessages(others))[d] == 1;
    }
  }

  lemma AddressedOthers(s: Server, d: ClientId)
    requires d in s.clients && !s.IsWM(d)
    ensures d in s.Select(Others, s.clients)
  {
    assert s.Addressed(Others, d);
  }

  // ---- reports ----

  /** Client c's flags become f, and the observer notes what c reported. */
  ghost function Mark(r: Run, c: ClientId, f: Flags, done: set<ClientId>, asked: set<ClientId>): Run {
    r.(s := r.s.(flags := r.s.flags[c := f]), done := r.done + done, asked := r.asked + asked)
  }

  lemma MarkKeepsBooks(r: Run, c: ClientId, f: Flags, done: set<ClientId>, asked: set<ClientId>)
    requires Bookkeeping(r) && ToldOnce(r) && MembersTold(r) && c in r.s.flags && done <= {c} && asked <= {c}
    ensures var q := Mark(r, c, f, done, asked); Bookkeeping(q) && ToldOnce(q) && MembersTold(q)
  {
    assert forall d :: d in r.s.flags[c := f] <==> d in r.s.flags;
  }

  lemma MarkKeepsFlags(r: Run, c: ClientId, f: Flags, done: set<ClientId>, asked: set<ClientId>)
    requires Bookkeeping(r) && Truthful(r) && Guarded(r) && OneInteracts(r)
    requires c in r.s.flags && Mark(r, c, f, done, asked).s.WellFormed()
    requires f.pendingInteraction == r.s.flags[c].pendingInteraction
    requires f.saveYourselfDone ==> c in done || r.s.flags[c].saveYourselfDone
    requires f.waitForPhase2 ==> c in asked || r.s.flags[c].waitForPhase2
    ensures var q := Mark(r, c, f, done, asked); Truthful(q) && Guarded(q) && OneInteracts(q)
  {
  }

  lemma MarkKeepsCounts(r: Run, c: ClientId, f: Flags, done: set<ClientId>, asked: set<ClientId>)
    requires Bookkeeping(r) && WmsCounted(r) && c in r.s.flags && done <= {c} && asked <= {c} && done + asked == {c}
    requires f.wasPhase2 <==> r.s.flags[c].wasPhase2 || c in asked
    ensures WmsCounted(Mark(r, c, f, done, asked))
    ensures LoggingOut(r.s.phase) && r.s.IsWM(c) && c !in r.done && c !in r.asked ==>
      |Unreported(Mark(r, c, f, done, asked))| < r.s.wmWaiting
  {
    UnreportedMark(r, c, f, done, asked);
    hide Unreported, Bookkeeping;
  }

  lemma UnreportedMark(r: Run, c: ClientId, f: Flags, done: set<ClientId>, asked: set<ClientId>)
    requires r.s.WellFormed() && c in r.s.flags && done <= {c} && asked <= {c} && done + asked == {c}
    ensures var q := Mark(r, c, f, done, asked);
      && Unreported(q) == Unreported(r) - {c} && |Unreported(q)| <= |Unreported(r)|
      && (r.s.IsWM(c) && c !in r.done && c !in r.asked ==> |Unreported(q)| < |Unreported(r)|)
  {
    var q := Mark(r, c, f, done, asked);
    assert Unreported(q) == Unreported(r) - {c};
    assert r.s.IsWM(c) && c !in r.done && c !in r.asked ==> c in Unreported(r);
  }

  lemma MarkKeeps(r: Run, c: ClientId, f: Flags, done: set<ClientId>, asked: set<ClientId>)
    requires Inv(r) && c in r.s.flags && done <= {c} && asked <= {c} && done + asked == {c}
    requires f.pendingInteraction == r.s.flags[c].pendingInteraction
    requires f.saveYourselfDone ==> c in done || r.s.flags[c].saveYourselfDone
    requires f.waitForPhase2 ==> c in asked || r.s.flags[c].waitForPhase2
    requires f.wasPhase2 <==> r.s.flags[c].wasPhase2 || c in asked
    ensures Inv(Mark(r, c, f, done, asked))
    ensures LoggingOut(r.s.phase) && r.s.IsWM(c) && c !in r.done && c !in r.asked ==>
      |Unreported(Mark(r, c, f, done, asked))| < r.s.wmWaiting
  {
    MarkKeepsBooks(r, c, f, done, asked);
    MarkKeepsFlags(r, c, f, done, asked);
    MarkKeepsCounts(r, c, f, done, asked);
  }

  /** Outside a logout nobody is waited for, so only window managers can have been told while some are. */
  lemma AwaitedWmsOnly(r: Run)
    requires ToldOnce(r) && r.s.phase != Idle
    ensures OnlyWmsTold(r)
  {
  }

  lemma ProtectionKeeps(r: Run)
    requires Inv(r)
    ensures Inv(r.(s := r.s.(protection := true)))
  {
    assert Unreported(r.(s := r.s.(protection := true))) == Unreported(r);
  }

  lemma SentKeeps(r: Run, ms: seq<Message>)
    requires Inv(r)
    ensures Inv(r.(s := r.s.(sent := ms)))
  {
    assert Unreported(r.(s := r.s.(sent := ms))) == Unreported(r);
  }

  /** The observer's record of the last event's messages, after which v is the server. */
  ghost function Observed(r: Run, v: Server): Run {
    r.(s := v, told := r.told + SaveTargets(v.sent), granted := r.granted + InteractTargets(v.sent))
  }

  /** The rest of a report's handler: the round may complete, and a window manager's first report is counted. */
  lemma FinishReport(r: Run, t: Server, c: ClientId, first: bool)
    requires Inv(r) && OnlyWmsTold(r) && r.s.sent == []
    requires Completes(r.s, t) || (t.protection && Completes(r.s, t.(protection := r.s.protection)))
    requires r.s.IsWM(c) && first && LoggingOut(r.s.phase) ==> |Unreported(r)| < r.s.wmWaiting
    ensures Inv(Observed(r, t.WmReported(c, first)))
  {
    var q := With(r, t);
    CompletedReport(r, t);
    assert Unreported(q) == Unreported(r);
    WmReportedKeeps(q, c, first);
    var x := t.TellOthers(c, first);
    ReportNews(t, c, first);
    assert Observed(r, t.WmReported(c, first))
        == q.(s := t.WmReported(c, first), told := q.told + SaveTargets(x));
  }

  lemma CompletedReport(r: Run, t: Server)
    requires Inv(r) && OnlyWmsTold(r) && r.s.sent == []
    requires Completes(r.s, t) || (t.protection && Completes(r.s, t.(protection := r.s.protection)))
    ensures Inv(With(r, t)) && OnlyWmsTold(With(r, t)) && Unreported(With(r, t)) == Unreported(r)
    ensures SaveTargets(t.sent) == multiset{} && InteractTargets(t.sent) == {}
    ensures LoggingOut(t.phase) ==> LoggingOut(r.s.phase)
  {
    hide Inv, Completes;
    var u := t.(protection := r.s.protection);
    if Completes(r.s, t) {
      CompletingKeeps(r, t);
      CompletingTells(r, t);
    } else {
      CompletingKeeps(r, u);
      CompletingTells(r, u);
      ProtectionKeeps(With(r, u));
      assert With(r, u).(s := u.(protection := true)) == With(r, t);
      assert Unreported(With(r, u)) == Unreported(With(r, t));
    }
  }

  lemma CompletingTells(r: Run, t: Server)
    requires Completes(r.s, t) && OnlyWmsTold(r) && r.s.sent == []
    ensures OnlyWmsTold(With(r, t)) && Unreported(With(r, t)) == Unreported(r)
    ensures SaveTargets(t.sent) == multiset{} && InteractTargets(t.sent) == {}
    ensures LoggingOut(t.phase) ==> LoggingOut(r.s.phase)
  {
    assert News(r.s, t) == t.sent;
    PlainNews(t.sent);
  }

  lemma ReportNews(t: Server, c: ClientId, first: bool)
    requires SaveTargets(t.sent) == multiset{} && InteractTargets(t.sent) == {}
    ensures var v := t.WmReported(c, first);
      SaveTargets(v.sent) == SaveTargets(t.TellOthers(c, first)) && InteractTargets(v.sent) == {}
  {
    var x := t.TellOthers(c, first);
    SaveTargetsConcat(t.sent, x);
    NoSaveTargets([]);
    assert t.sent + [] == t.sent;
    assert forall d :: Interact(d) in t.sent + x <==> Interact(d) in t.sent || Interact(d) in x;
    forall d ensures Interact(d) !in t.WmReported(c, first).sent {
      assert Interact(d) !in x;
      assert d !in InteractTargets(t.sent);
    }
  }

  lemma StepDone(r: Run, c: ClientId)
    requires Inv(r) && Allowed(r, Done(c))
    ensures Inv(Step(r, Done(c)))
  {
    var s0 := r.s.(sent := []);
    SentKeeps(r, []);
    var r0, f := r.(s := s0), s0.flags[c].(saveYourselfDone := true);
    if s0.phase == Idle {
      IdleDone(r, c);
    } else {
      MarkKeeps(r0, c, f, {c}, {});
      AwaitedWmsOnly(r);
      DoneInRound(r, r0, c, f);
    }
  }

  /** A client that finishes saving while no round is on just has its saved data thrown away. */
  lemma IdleDone(r: Run, c: ClientId)
    requires Inv(r) && Knows(r.s, Done(c)) && r.s.phase == Idle
    ensures Inv(Step(r, Done(c)))
  {
    hide Server.CompleteShutdownOrCheckpoint, Server.WmReported, Server.DiscardOf, Inv;
    var ms := r.s.DiscardOf(c);
    var r0 := r.(s := r.s.(sent := ms));
    InvBooks(r);
    SentKeeps(r, ms);
    MarkKeeps(r0, c, r.s.flags[c], {c}, {});
    DiscardPlain(r.s, c);
    assert r.s.(sent := []).DiscardOf(c) == ms by { DiscardSame(r.s, c); }
    assert [] + ms == ms && r.s.flags[c := r.s.flags[c]] == r.s.flags;
    assert Step(r, Done(c)) == Mark(r0, c, r.s.flags[c], {c}, {});
  }

  lemma DiscardPlain(s: Server, c: ClientId)
    ensures SaveTargets(s.DiscardOf(c)) == multiset{} && InteractTargets(s.DiscardOf(c)) == {}
  {
    PlainNews(s.DiscardOf(c));
  }

  lemma DiscardSame(s: Server, c: ClientId)
    ensures s.(sent := []).DiscardOf(c) == s.DiscardOf(c)
  {
  }

  lemma DoneInRound(r: Run, r0: Run, c: ClientId, f: Flags)
    requires r0 == r.(s := r.s.(sent := [])) && Inv(Mark(r0, c, f, {c}, {})) && OnlyWmsTold(r0) && r.s.phase != Idle
    requires r.s.WellFormed() && c in r.s.flags && f == r.s.flags[c].(saveYourselfDone := true)
    requires LoggingOut(r.s.phase) && r.s.IsWM(c) && !r.s.flags[c].wasPhase2 ==>
      |Unreported(Mark(r0, c, f, {c}, {}))| < r.s.wmWaiting
    ensures Inv(Step(r, Done(c)))
  {
    hide Inv, Completes, Server.CompleteShutdownOrCheckpoint, Server.WmReported;
    var r1 := Mark(r0, c, f, {c}, {});
    InvBooks(r1);
    CompletingCompletes(r1.s);
    var t := r1.s.CompleteShutdownOrCheckpoint().(protection := true);
    WithProtection(r1.s, r1.s.CompleteShutdownOrCheckpoint());
    FinishReport(r1, t, c, !r.s.flags[c].wasPhase2);
    DoneIs(r, c);
  }

  ghost function DoneMarked(r: Run, c: ClientId): Run
    requires c in r.s.flags
  {
    Mark(r.(s := r.s.(sent := [])), c, r.s.flags[c].(saveYourselfDone := true), {c}, {})
  }

  lemma DoneIs(r: Run, c: ClientId)
    requires r.s.WellFormed() && c in r.s.flags && r.s.phase != Idle && DoneMarked(r, c).s.WellFormed()
    ensures Step(r, Done(c)) == Observed(DoneMarked(r, c),
      DoneMarked(r, c).s.CompleteShutdownOrCheckpoint().(protection := true).WmReported(c, !r.s.flags[c].wasPhase2))
  {
    hide Server.CompleteShutdownOrCheckpoint, Server.WmReported;
  }

  ghost function AskedMarked(r: Run, c: ClientId): Run
    requires c in r.s.flags
  {
    Mark(r.(s := r.s.(sent := [])), c, r.s.flags[c].(waitForPhase2 := true, wasPhase2 := true), {}, {c})
  }

  lemma AskedIs(r: Run, c: ClientId)
    requires r.s.WellFormed() && c in r.s.flags && AskedMarked(r, c).s.WellFormed()
    ensures Step(r, AskPhase2(c))
         == Observed(AskedMarked(r, c), AskedMarked(r, c).s.CompleteShutdownOrCheckpoint().WmReported(c, true))
  {
    hide Server.CompleteShutdownOrCheckpoint, Server.WmReported;
  }

  lemma InvBooks(r: Run)
    requires Inv(r)
    ensures r.s.WellFormed()
  {
  }

  lemma WithProtection(s: Server, t: Server)
    requires Completes(s, t)
    ensures Completes(s, t.(protection := true).(protection := s.protection))
  {
    assert t.(protection := true).(protection := s.protection) == t;
  }

  lemma StepAskPhase2(r: Run, c: ClientId)
    requires Inv(r) && Allowed(r, AskPhase2(c))
    ensures Inv(Step(r, AskPhase2(c)))
  {
    var r0, f := r.(s := r.s.(sent := [])), r.s.flags[c].(waitForPhase2 := true, wasPhase2 := true);
    SentKeeps(r, []);
    MarkKeeps(r0, c, f, {}, {c});
    AwaitedWmsOnly(r);
    AskedInRound(r, r0, c, f);
  }

  lemma AskedInRound(r: Run, r0: Run, c: ClientId, f: Flags)
    requires r0 == r.(s := r.s.(sent := [])) && Inv(Mark(r0, c, f, {}, {c})) && OnlyWmsTold(r0)
    requires r.s.WellFormed() && c in r.s.flags && f == r.s.flags[c].(waitForPhase2 := true, wasPhase2 := true)
    requires LoggingOut(r.s.phase) && r.s.IsWM(c) ==> |Unreported(Mark(r0, c, f, {}, {c}))| < r.s.wmWaiting
    ensures Inv(Step(r, AskPhase2(c)))
  {
    hide Inv, Completes, Server.CompleteShutdownOrCheckpoint, Server.WmReported;
    var r1 := Mark(r0, c, f, {}, {c});
    InvBooks(r1);
    CompletingCompletes(r1.s);
    var t := r1.s.CompleteShutdownOrCheckpoint();
    FinishReport(r1, t, c, true);
    AskedIs(r, c);
  }

  // ---- events outside the rounds ----

  /** The phase moves on outside the rounds. */
  lemma OutsideMoveKeeps(r: Run, p: Phase, sub: SubSession, ms: seq<Message>)
    requires Inv(r)
    requires p != Shutdown && p != Checkpoint && p != ClosingSubSession
    requires LoggingOut(p) ==> LoggingOut(r.s.phase)
    requires (p == Starting ==> r.s.wmWaiting == 0) && (p == KillingSubSession && r.counted ==> r.s.wmWaiting == 0)
    requires (p == KillingSubSession && sub == r.s.sub) || sub == NO_SUB
    ensures Inv(With(r, r.s.(phase := p, sub := sub, sent := ms)))
  {
    var t := r.s.(phase := p, sub := sub, sent := ms);
    assert Unreported(With(r, t)) == Unreported(r);
  }

  /** The same, with the messages sent meanwhile being no part of a round. */
  lemma OutsideMove(r: Run, p: Phase, sub: SubSession, ms: seq<Message>)
    requires Inv(r) && forall m :: m in ms ==> !m.SaveYourself? && !m.Interact?
    requires p != Shutdown && p != Checkpoint && p != ClosingSubSession
    requires LoggingOut(p) ==> LoggingOut(r.s.phase)
    requires (p == Starting ==> r.s.wmWaiting == 0) && (p == KillingSubSession && r.counted ==> r.s.wmWaiting == 0)
    requires (p == KillingSubSession && sub == r.s.sub) || sub == NO_SUB
    ensures var t := r.s.(phase := p, sub := sub, sent := ms);
      Inv(With(r, t)) && Observed(r, t) == With(r, t)
  {
    hide Inv;
    OutsideMoveKeeps(r, p, sub, ms);
    PlainNews(ms);
    assert r.told + multiset{} == r.told && r.granted + {} == r.granted;
  }

  ghost function KillNews(s: Server): seq<Message> {
    var wms := s.Select(WindowManagers, s.clients);
    if wms == [] then [Quit] else s.DieMessages(wms)
  }

  lemma KillingWm(s: Server)
    ensures s.KillWM() == if s.phase != Killing then s else s.(phase := KillingWM, sent := s.sent + KillNews(s))
    ensures forall m :: m in KillNews(s) ==> m.Die? || m.Quit?
  {
    var wms := s.Select(WindowManagers, s.clients);
    if s.phase == Killing && wms != [] {
      assert wms[0] in s.clients;
    }
  }

  ghost function SoundNews(s: Server): seq<Message> {
    var others := s.Select(Others, s.clients);
    if others == [] then KillNews(s) else s.DieMessages(others)
  }

  lemma SoundIsFinished(s: Server)
    requires s.sent == []
    ensures s.LogoutSoundFinished() ==
      if s.phase != WaitingForKNotify then s
      else s.(phase := if s.Select(Others, s.clients) == [] then KillingWM else Killing, sent := SoundNews(s))
    ensures forall m :: m in SoundNews(s) ==> m.Die? || m.Quit?
  {
    var others := s.Select(Others, s.clients);
    var t := s.(phase := Killing).Send(s.DieMessages(others));
    KillingWm(t);
    KillingWm(s);
    assert s.sent + s.DieMessages(others) == s.DieMessages(others);
    SelectSame(s, t, Others, s.clients);
    SelectSame(s, t, WindowManagers, s.clients);
    assert KillNews(t) == KillNews(s);
    assert others == [] ==> s.DieMessages(others) + KillNews(s) == KillNews(s);
  }

  /** Whom a loop addresses depends on the programs only, except for the phase 2 waiters. */
  lemma {:induction false} SelectSame(s: Server, t: Server, who: Who, ids: seq<ClientId>)
    requires s.fixed == t.fixed && who != Phase2Waiters
    ensures s.Select(who, ids) == t.Select(who, ids)
  {
    if ids != [] { SelectSame(s, t, who, ids[..|ids| - 1]); }
  }

  /** An event of which the observer notes nothing but the messages. */
  lemma StepObserves(r: Run, e: Event, t: Server)
    requires r.s.WellFormed() && (e.SoundFinished? || e.KillTimer? || e.WmKillTimer? || e.SubSessionTimer? || e.StartupBegins? || e.StartupEnds?)
    requires Handle(r.s.(sent := []), r.nextId, e) == t
    ensures Step(r, e) == Observed(r, t)
  {
    hide Handle;
    assert r.done + {} == r.done && r.asked + {} == r.asked;
  }

  lemma StepSoundFinished(r: Run)
    requires Inv(r)
    ensures Inv(Step(r, SoundFinished))
  {
    hide Inv, Step, Server.LogoutSoundFinished, SoundNews;
    InvBooks(r);
    var s0 := r.s.(sent := []);
    SoundIsFinished(s0);
    SubOutside(r);
    if s0.phase == WaitingForKNotify {
      var t := s0.LogoutSoundFinished();
      OutsideMove(r, t.phase, NO_SUB, SoundNews(s0));
      StepObserves(r, SoundFinished, t);
    } else {
      StepNothing(r, SoundFinished);
    }
  }

  lemma SubOutside(r: Run)
    requires Inv(r)
    ensures r.s.phase != ClosingSubSession && r.s.phase != KillingSubSession ==> r.s.sub == NO_SUB
  {
  }

  /** An event that changes nothing. */
  lemma StepNothing(r: Run, e: Event)
    requires Inv(r) && Knows(r.s, e) && !StartsRound(r.s, e)
    requires !e.Join? && !e.Done? && !e.AskPhase2? && !e.Leave? && !e.EndInteract? && !e.ProtectionTimer?
    requires Handle(r.s.(sent := []), r.nextId, e) == r.s.(sent := [])
    ensures Inv(Step(r, e))
  {
    hide Inv, Handle;
    InvBooks(r);
    SentKeeps(r, []);
    PlainNews([]);
    assert r.told + multiset{} == r.told && r.granted + {} == r.granted && r.done + {} == r.done && r.asked + {} == r.asked;
    assert Step(r, e) == r.(s := r.s.(sent := []));
  }

  lemma StepKillTimer(r: Run)
    requires Inv(r)
    ensures Inv(Step(r, KillTimer))
  {
    hide Inv, Step, Server.KillWM, KillNews;
    InvBooks(r);
    var s0 := r.s.(sent := []);
    KillingWm(s0);
    SubOutside(r);
    assert [] + KillNews(s0) == KillNews(s0);
    if s0.phase == Killing {
      OutsideMove(r, KillingWM, NO_SUB, KillNews(s0));
      StepObserves(r, KillTimer, s0.KillWM());
    } else {
      StepNothing(r, KillTimer);
    }
  }

  lemma StepWmKillTimer(r: Run)
    requires Inv(r) && Allowed(r, WmKillTimer)
    ensures Inv(Step(r, WmKillTimer))
  {
    hide Inv, Step;
    InvBooks(r);
    SubOutside(r);
    OutsideMove(r, r.s.phase, NO_SUB, [Quit]);
    StepObserves(r, WmKillTimer, r.s.(phase := r.s.phase, sub := NO_SUB, sent := [Quit]));
  }

  lemma StepSubSessionTimer(r: Run)
    requires Inv(r)
    ensures Inv(Step(r, SubSessionTimer))
  {
    hide Inv, Step;
    InvBooks(r);
    if r.s.phase == KillingSubSession {
      OutsideMove(r, Idle, NO_SUB, [SubSessionClosed]);
      StepObserves(r, SubSessionTimer, r.s.(phase := Idle, sub := NO_SUB, sent := [SubSessionClosed]));
    } else {
      StepNothing(r, SubSessionTimer);
    }
  }

  lemma StepStartup(r: Run, e: Event)
    requires Inv(r) && Allowed(r, e) && (e.StartupBegins? || e.StartupEnds?)
    ensures Inv(Step(r, e))
  {
    hide Inv, Step;
    InvBooks(r);
    SubOutside(r);
    if e.StartupBegins? && r.s.phase == Idle {
      OutsideMove(r, Starting, NO_SUB, []);
      StepObserves(r, e, r.s.(phase := Starting, sub := NO_SUB, sent := []));
    } else if e.StartupEnds? && r.s.phase == Starting {
      OutsideMove(r, Idle, NO_SUB, []);
      StepObserves(r, e, r.s.(phase := Idle, sub := NO_SUB, sent := []));
    } else {
      StepNothing(r, e);
    }
  }

  // ---- interaction ----

  /** Everything but the rules of taking turns. */
  ghost predicate Rest(r: Run) {
    Bookkeeping(r) && WmsCounted(r) && ToldOnce(r) && MembersTold(r) && Truthful(r)
  }

  /** Changing who interacts, whether the timer runs, and client c's request keeps everything else. */
  lemma TurnKeepsRest(r: Run, c: ClientId, pending: bool, holder: Option<ClientId>, protection: bool,
                      ms: seq<Message>, granted: set<ClientId>)
    requires Rest(r) && c in r.s.flags && (holder.Some? ==> holder.value in r.s.flags)
    requires forall d :: d in granted ==> d < r.nextId
    ensures Rest(r.(s := r.s.(flags := r.s.flags[c := r.s.flags[c].(pendingInteraction := pending)],
                              interacting := holder, protection := protection, sent := ms), granted := granted))
  {
    hide WmsCounted, ToldOnce, MembersTold, Unreported;
    var q := r.(s := r.s.(flags := r.s.flags[c := r.s.flags[c].(pendingInteraction := pending)],
                          interacting := holder, protection := protection, sent := ms), granted := granted);
    TurnKeepsCounts(r, q);
  }

  lemma TurnKeepsCounts(r: Run, q: Run)
    requires WmsCounted(r) && ToldOnce(r) && MembersTold(r)
    requires q.s == r.s.(flags := q.s.flags, interacting := q.s.interacting, protection := q.s.protection, sent := q.s.sent)
    requires q == r.(s := q.s, granted := q.granted) && q.s.flags.Keys == r.s.flags.Keys
    requires forall d :: d in r.s.flags ==> q.s.flags[d].wasPhase2 == r.s.flags[d].wasPhase2
    ensures WmsCounted(q) && ToldOnce(q) && MembersTold(q)
  {
    assert Unreported(q) == Unreported(r);
  }

  /** The same without any client's request changing. */
  lemma TimerKeepsRest(r: Run, holder: Option<ClientId>, protection: bool, ms: seq<Message>, granted: set<ClientId>)
    requires Rest(r) && (holder.Some? ==> holder.value in r.s.flags)
    requires forall d :: d in granted ==> d < r.nextId
    ensures Rest(r.(s := r.s.(interacting := holder, protection := protection, sent := ms), granted := granted))
  {
    assert Unreported(r.(s := r.s.(interacting := holder, protection := protection, sent := ms), granted := granted))
        == Unreported(r);
  }

  /** Handing out the turn: to the first client that waits for it, else the protection timer starts. */
  lemma TurnHandedOut(s: Server)
    requires s.WellFormed() && s.interacting.None?
    ensures var k := s.FirstPending(s.clients);
      if k < |s.clients| then
        var c := s.clients[k];
        && c in s.flags && s.flags[c].pendingInteraction
        && s.HandlePendingInteractions()
           == s.(interacting := Some(c), flags := s.flags[c := s.flags[c].(pendingInteraction := false)],
                 protection := false, sent := s.sent + [Interact(c)])
      else
        && s.HandlePendingInteractions() == s.(protection := true)
        && forall c :: c in s.flags ==> !s.flags[c].pendingInteraction
  {
    var k := s.FirstPending(s.clients);
    if k == |s.clients| {
      forall c | c in s.flags ensures !s.flags[c].pendingInteraction {
        assert c in s.clients;
        var j :| 0 <= j < |s.clients| && s.clients[j] == c;
      }
    }
  }

  /** After the turn is handed out the rules of taking turns hold, even if nobody had it before. */
  lemma HandingOutKeeps(r: Run)
    requires Rest(r) && r.s.interacting.None? && (forall m :: m in r.s.sent ==> !m.SaveYourself?)
    requires r.s.phase == Shutdown || r.s.phase == ClosingSubSession ==>
      r.granted == {} && forall m :: m in r.s.sent ==> !m.Interact?
    requires forall c :: Interact(c) in r.s.sent ==> c in r.s.flags
    ensures Inv(Observed(r, r.s.HandlePendingInteractions()))
  {
    hide Rest, Server.HandlePendingInteractions, Inv;
    RestBooks(r);
    TurnHandedOut(r.s);
    var k := r.s.FirstPending(r.s.clients);
    var t := r.s.HandlePendingInteractions();
    NoSaveTargets(t.sent);
    assert r.told + multiset{} == r.told;
    var granted := r.granted + InteractTargets(t.sent);
    if k < |r.s.clients| {
      TurnKeepsRest(r, r.s.clients[k], false, Some(r.s.clients[k]), false, t.sent, granted);
    } else {
      TimerKeepsRest(r, None, true, t.sent, granted);
    }
    var q := Observed(r, t);
    assert Rest(q);
    RulesHold(r, q);
    RestAndRules(q);
  }

  lemma RestBooks(r: Run)
    requires Rest(r)
    ensures r.s.WellFormed() && (forall c :: c in r.s.flags ==> c < r.nextId)
    ensures forall c :: c in r.granted ==> c < r.nextId
  {
  }

  lemma RulesHold(r: Run, q: Run)
    requires r.s.WellFormed() && r.s.interacting.None?
    requires r.s.phase == Shutdown || r.s.phase == ClosingSubSession ==>
      r.granted == {} && forall m :: m in r.s.sent ==> !m.Interact?
    requires q == Observed(r, r.s.HandlePendingInteractions())
    ensures Guarded(q) && OneInteracts(q)
  {
    TurnHandedOut(r.s);
  }

  lemma RestAndRules(q: Run)
    requires Rest(q) && Guarded(q) && OneInteracts(q)
    ensures Inv(q)
  {
  }

  lemma InvIsRest(r: Run)
    requires Inv(r)
    ensures Rest(r) && Guarded(r) && OneInteracts(r)
  {
  }

  lemma StepAskInteract(r: Run, c: ClientId)
    requires Inv(r) && Allowed(r, AskInteract(c))
    ensures Inv(Step(r, AskInteract(c)))
  {
    hide Inv, Rest, Server.HandlePendingInteractions;
    InvIsRest(r);
    RestBooks(r);
    if r.s.phase == Shutdown || r.s.phase == ClosingSubSession {
      TurnKeepsRest(r, c, true, r.s.interacting, r.s.protection, [], r.granted);
      var q := r.(s := r.s.(flags := r.s.flags[c := r.s.flags[c].(pendingInteraction := true)], sent := []));
      if r.s.interacting.Some? {
        WaitsItsTurn(r, q, c);
      } else {
        HandingOutKeeps(q);
        assert Step(r, AskInteract(c)) == Observed(q, q.s.HandlePendingInteractions());
      }
    } else {
      InteractsAtOnce(r, c);
    }
  }

  lemma WaitsItsTurn(r: Run, q: Run, c: ClientId)
    requires Guarded(r) && OneInteracts(r) && r.s.interacting.Some? && Rest(q)
    requires r.s.WellFormed() && c in r.s.flags && (r.s.phase == Shutdown || r.s.phase == ClosingSubSession)
    requires q == r.(s := r.s.(flags := r.s.flags[c := r.s.flags[c].(pendingInteraction := true)], sent := []))
    ensures Inv(Step(r, AskInteract(c)))
  {
    hide Rest, Inv;
    PlainNews([]);
    assert r.told + multiset{} == r.told && r.granted + {} == r.granted;
    assert Step(r, AskInteract(c)) == q;
    RestAndRules(q);
  }

  /** Outside these rounds the client may interact at once; an old request may then get its turn, too. */
  lemma InteractsAtOnce(r: Run, c: ClientId)
    requires Rest(r) && Guarded(r) && OneInteracts(r)
    requires r.s.WellFormed() && c in r.s.flags && c < r.nextId && r.s.phase != Shutdown && r.s.phase != ClosingSubSession
    ensures Inv(Step(r, AskInteract(c)))
  {
    hide Rest, Inv, Server.HandlePendingInteractions;
    RestBooks(r);
    TimerKeepsRest(r, r.s.interacting, r.s.protection, [Interact(c)], r.granted);
    var q := r.(s := r.s.(sent := [Interact(c)]));
    assert [] + [Interact(c)] == [Interact(c)];
    if r.s.interacting.None? {
      HandingOutKeeps(q);
    } else {
      HolderKeeps(q);
      ObservedInteract(q, c);
    }
    AskedOutside(r, c);
  }

  lemma AskedOutside(r: Run, c: ClientId)
    requires r.s.WellFormed() && c in r.s.flags && r.s.phase != Shutdown && r.s.phase != ClosingSubSession
    ensures var q := r.(s := r.s.(sent := [Interact(c)]));
      Step(r, AskInteract(c)) == Observed(q, q.s.HandlePendingInteractions())
  {
    hide Server.HandlePendingInteractions;
    assert [] + [Interact(c)] == [Interact(c)];
  }

  lemma HolderKeeps(q: Run)
    requires q.s.interacting.Some?
    ensures q.s.HandlePendingInteractions() == q.s
  {
  }

  lemma ObservedInteract(q: Run, c: ClientId)
    requires Rest(q) && q.s.WellFormed() && c in q.s.flags && q.s.sent == [Interact(c)]
    requires q.s.phase != Shutdown && q.s.phase != ClosingSubSession
    ensures Inv(Observed(q, q.s))
  {
    hide Rest;
    RestBooks(q);
    NoSaveTargets([Interact(c)]);
    assert q.told + multiset{} == q.told;
    TimerKeepsRest(q, q.s.interacting, q.s.protection, [Interact(c)], q.granted + InteractTargets(q.s.sent));
    RestAndRules(Observed(q, q.s));
  }

  /** The holder finishes: the turn passes on, or the whole shutdown is cancelled. */
  lemma StepEndInteract(r: Run, c: ClientId, cancel: bool)
    requires Inv(r) && Allowed(r, EndInteract(c, cancel))
    ensures Inv(Step(r, EndInteract(c, cancel)))
  {
    hide Inv, Rest, Step;
    InvIsRest(r);
    RestBooks(r);
    TimerKeepsRest(r, r.s.interacting, r.s.protection, [], r.granted - {c});
    var q := r.(s := r.s.(sent := []), granted := r.granted - {c});
    if r.s.interacting != Some(c) {
      NotTheHolder(r, q, c, cancel);
    } else if cancel {
      Cancelled(q, c);
      EndedIs(r, c, cancel);
    } else {
      TimerKeepsRest(q, None, q.s.protection, [], q.granted);
      HandingOutKeeps(q.(s := q.s.(interacting := None)));
      EndedIs(r, c, cancel);
    }
  }

  lemma EndedIs(r: Run, c: ClientId, cancel: bool)
    requires r.s.WellFormed() && c in r.s.flags && r.s.interacting == Some(c)
    ensures var q := r.(s := r.s.(sent := [], interacting := None), granted := r.granted - {c});
      Step(r, EndInteract(c, cancel))
      == Observed(q, if cancel then q.s.CancelShutdown() else q.s.HandlePendingInteractions())
  {
    hide Server.HandlePendingInteractions, Server.CancelShutdown;
  }

  lemma NotTheHolder(r: Run, q: Run, c: ClientId, cancel: bool)
    requires Guarded(r) && OneInteracts(r) && Rest(q) && r.s.WellFormed() && c in r.s.flags && r.s.interacting != Some(c)
    requires q == r.(s := r.s.(sent := []), granted := r.granted - {c})
    ensures Inv(Step(r, EndInteract(c, cancel)))
  {
    hide Rest, Inv;
    PlainNews([]);
    assert q.told + multiset{} == q.told && q.granted + {} == q.granted;
    assert Step(r, EndInteract(c, cancel)) == q;
    RestAndRules(q);
  }

  lemma {:induction false} CancelMessagesPlain(s: Server, ids: seq<ClientId>)
    requires forall c :: c in ids ==> c in s.flags
    ensures forall m :: m in s.CancelMessages(ids) ==> m.ShutdownCancelled? || m.RunCommand?
  {
    if ids != [] { CancelMessagesPlain(s, ids[..|ids| - 1]); }
  }

  lemma Cancelled(q: Run, c: ClientId)
    requires Rest(q) && q.s.WellFormed() && q.s.sent == [] && q.s.interacting == Some(c)
    requires q.s.phase == Shutdown || q.s.phase == ClosingSubSession
    ensures Inv(Observed(q, q.s.(interacting := None).CancelShutdown()))
  {
    hide Rest, Inv;
    var s := q.s.(interacting := None);
    CancelNews(s);
    CancelledKeeps(q, s.CancelShutdown().sent);
    assert s.CancelShutdown() == s.(phase := Idle, sub := NO_SUB, sent := s.CancelShutdown().sent) by { RestLists(q); }
  }

  lemma RestLists(q: Run)
    requires Rest(q)
    ensures q.s.phase != ClosingSubSession && q.s.phase != KillingSubSession ==> q.s.sub == NO_SUB
  {
  }

  lemma CancelNews(s: Server)
    requires s.WellFormed() && s.sent == []
    ensures SaveTargets(s.CancelShutdown().sent) == multiset{} && InteractTargets(s.CancelShutdown().sent) == {}
  {
    CancelMessagesPlain(s, s.clients);
    CancelMessagesPlain(s.(interacting := None, phase := Idle), s.clients);
    PlainNews(s.CancelShutdown().sent);
  }

  lemma CancelledKeeps(q: Run, ms: seq<Message>)
    requires Rest(q) && q.s.WellFormed() && SaveTargets(ms) == multiset{} && InteractTargets(ms) == {}
    ensures Inv(Observed(q, q.s.(interacting := None, phase := Idle, sub := NO_SUB, sent := ms)))
  {
    assert q.told + multiset{} == q.told && q.granted + {} == q.granted;
  }

  // ---- the protection timer ----

  lemma StepProtectionTimer(r: Run)
    requires Inv(r) && Allowed(r, ProtectionTimer)
    ensures Inv(Step(r, ProtectionTimer))
  {
    hide Inv, Rest, Step, Completes, Server.CompleteShutdownOrCheckpoint;
    InvIsRest(r);
    RestBooks(r);
    if r.s.InRound() && r.s.interacting.None? {
      GivingUpKeepsRest(r);
      var q := GivenUp(r);
      RestBooks(q);
      CompletingCompletes(q.s);
      GaveUp(r, q, q.s.CompleteShutdownOrCheckpoint());
      GaveUpIs(r, q);
    } else {
      TimerKeepsRest(r, r.s.interacting, false, [], r.granted);
      TimerIdles(r);
    }
  }

  ghost function GivenUp(r: Run): Run {
    r.(s := r.s.(protection := false, sent := [], flags := GiveUp(r.s.flags, r.s.clients)), timedOut := true)
  }

  lemma GivingUpKeepsRest(r: Run)
    requires Rest(r) && Guarded(r) && OneInteracts(r)
    ensures Rest(GivenUp(r)) && OneInteracts(GivenUp(r))
  {
    hide Bookkeeping, WmsCounted, ToldOnce, MembersTold, Truthful, OneInteracts;
    GivingUpKeepsCounts(r);
    GivingUpKeepsBooks(r);
  }

  lemma GivingUpKeepsBooks(r: Run)
    requires Bookkeeping(r) && OneInteracts(r)
    ensures Bookkeeping(GivenUp(r)) && OneInteracts(GivenUp(r)) && Truthful(GivenUp(r))
  {
  }

  lemma GivingUpKeepsCounts(r: Run)
    requires WmsCounted(r) && ToldOnce(r) && MembersTold(r)
    ensures WmsCounted(GivenUp(r)) && ToldOnce(GivenUp(r)) && MembersTold(GivenUp(r))
  {
    assert Unreported(GivenUp(r)) == Unreported(r);
  }

  lemma GaveUp(r: Run, q: Run, t: Server)
    requires q == GivenUp(r) && Rest(q) && OneInteracts(q) && Completes(q.s, t)
    ensures Inv(Observed(q, t.(protection := true)))
  {
    hide Completes;
    CompletingKeepsBooks(q, t);
    CompletingKeepsCounts(q, t);
    CompletingKeepsMembers(q, t);
    CompletingKeepsTruth(q, t);
    CompletingKeepsTurns(q, t);
    var u := t.(protection := true);
    TimerKeepsRest(With(q, t), t.interacting, true, t.sent, q.granted);
    CompletedNews(q.s, t);
    assert q.told + multiset{} == q.told && q.granted + {} == q.granted;
    assert Observed(q, u) == With(q, u);
  }

  lemma CompletedNews(s: Server, t: Server)
    requires Completes(s, t) && s.sent == []
    ensures SaveTargets(t.sent) == multiset{} && InteractTargets(t.sent) == {}
    ensures t.interacting == s.interacting
  {
    assert News(s, t) == t.sent;
    PlainNews(t.sent);
  }

  lemma GaveUpIs(r: Run, q: Run)
    requires r.s.WellFormed() && r.s.InRound() && r.s.interacting.None? && q == GivenUp(r)
    ensures q.s.WellFormed()
    ensures Step(r, ProtectionTimer) == Observed(q, q.s.CompleteShutdownOrCheckpoint().(protection := true))
  {
    hide Server.CompleteShutdownOrCheckpoint;
    assert r.done + {} == r.done && r.asked + {} == r.asked;
  }

  /** While somebody interacts the timer just stops. */
  lemma TimerIdles(r: Run)
    requires Guarded(r) && OneInteracts(r) && r.s.WellFormed() && !(r.s.InRound() && r.s.interacting.None?)
    requires Rest(r.(s := r.s.(protection := false, sent := [])))
    ensures Inv(Step(r, ProtectionTimer))
  {
    hide Rest, Inv;
    PlainNews([]);
    assert r.told + multiset{} == r.told && r.granted + {} == r.granted && r.done + {} == r.done && r.asked + {} == r.asked;
    var q := r.(s := r.s.(protection := false, sent := []));
    assert Step(r, ProtectionTimer) == q;
    RestAndRules(q);
  }

  // ---- clients coming and going ----

  lemma {:induction false} RemovedNoRepeats(ids: seq<ClientId>, c: ClientId)
    requires NoRepeats(ids)
    ensures NoRepeats(Removed(ids, c))
  {
    if ids != [] {
      var k := |ids| - 1;
      RemovedNoRepeats(ids[..k], c);
      assert ids[k] !in ids[..k];
      assert forall i :: 0 <= i < |Removed(ids[..k], c)| ==> Removed(ids[..k], c)[i] in Removed(ids[..k], c);
    }
  }

  /** The client is taken out of every list; the turn it may have held is free. */
  ghost function Dropped(r: Run, c: ClientId): Run {
    r.(s := r.s.(clients := Removed(r.s.clients, c), flags := r.s.flags - {c},
                 sub := SubSession(Removed(r.s.sub.toSave, c), Removed(r.s.sub.toKill, c)),
                 interacting := if r.s.interacting == Some(c) then None else r.s.interacting, sent := []),
       granted := r.granted - {c})
  }

  lemma DroppedKeeps(r: Run, c: ClientId)
    requires Inv(r) && c in r.s.flags
    ensures Rest(Dropped(r, c))
    ensures r.s.interacting != Some(c) ==> Guarded(Dropped(r, c)) && OneInteracts(Dropped(r, c))
    ensures r.s.interacting == Some(c) && (r.s.phase == Shutdown || r.s.phase == ClosingSubSession) ==>
      Dropped(r, c).granted == {}
  {
    hide Inv, Bookkeeping, WmsCounted, ToldOnce, MembersTold, Truthful, Guarded, OneInteracts;
    InvParts(r);
    DroppedCounts(r, c);
    DroppedBooks(r, c);
    DroppedTurns(r, c);
    DroppedTold(r, c);
  }

  lemma InvParts(r: Run)
    requires Inv(r)
    ensures Bookkeeping(r) && WmsCounted(r) && ToldOnce(r) && MembersTold(r) && r.s.WellFormed() && Truthful(r)
    ensures Guarded(r) && OneInteracts(r)
  {
  }

  lemma DroppedTold(r: Run, c: ClientId)
    requires r.s.WellFormed() && ToldOnce(r) && MembersTold(r) && Truthful(r)
    ensures ToldOnce(Dropped(r, c)) && MembersTold(Dropped(r, c)) && Dropped(r, c).s.WellFormed() && Truthful(Dropped(r, c))
  {
  }

  lemma DroppedTurns(r: Run, c: ClientId)
    requires Guarded(r) && OneInteracts(r)
    ensures r.s.interacting != Some(c) ==> Guarded(Dropped(r, c)) && OneInteracts(Dropped(r, c))
    ensures r.s.interacting == Some(c) && (r.s.phase == Shutdown || r.s.phase == ClosingSubSession) ==>
      Dropped(r, c).granted == {}
  {
  }

  lemma DroppedBooks(r: Run, c: ClientId)
    requires Bookkeeping(r) && c in r.s.flags
    ensures Bookkeeping(Dropped(r, c))
  {
    RemovedNoRepeats(r.s.clients, c);
    if r.s.sub == NO_SUB { assert Dropped(r, c).s.sub == NO_SUB; }
  }

  lemma DroppedCounts(r: Run, c: ClientId)
    requires WmsCounted(r)
    ensures WmsCounted(Dropped(r, c))
  {
    assert Unreported(Dropped(r, c)) == Unreported(r) - {c};
  }

  lemma StepLeave(r: Run, c: ClientId)
    requires Inv(r) && Allowed(r, Leave(c))
    ensures Inv(Step(r, Leave(c)))
  {
    hide Inv, Rest, Step, Completes, Server.CompleteShutdownOrCheckpoint, Server.ContinueKilling, Server.Drop, Dropped;
    InvBooks(r);
    var q := LeftTurn(r, c);
    InvBooks(q);
    CompletingCompletes(q.s);
    var t := q.s.CompleteShutdownOrCheckpoint();
    CompletingKeeps(q, t);
    AfterDropNews(q.s, t);
    KillingGoesOn(With(q, t));
    LeaveIs(r, c, q);
    NewsOfLeaving(q, t, t.ContinueKilling());
  }

  /** After the client is gone and its turn, if it had it, is handed on. */
  lemma LeftTurn(r: Run, c: ClientId) returns (q: Run)
    requires Inv(r) && c in r.s.flags && r.s.WellFormed()
    ensures Inv(q) && q == Observed(Dropped(r, c), r.s.(sent := []).Drop(c))
    ensures forall m :: m in q.s.sent ==> m.Interact?
  {
    hide Inv, Rest, Server.HandlePendingInteractions, Server.Drop, Dropped, Guarded, OneInteracts;
    DroppedKeeps(r, c);
    DropIsTurn(r, c);
    var d := Dropped(r, c);
    RestBooks(d);
    q := Observed(d, r.s.(sent := []).Drop(c));
    if r.s.interacting == Some(c) {
      HandingOutKeeps(d);
      TurnHandedOut(d.s);
    } else {
      PlainNews([]);
      assert d.told + multiset{} == d.told && d.granted + {} == d.granted;
      RestAndRules(d);
    }
  }

  lemma DropIsTurn(r: Run, c: ClientId)
    ensures var d := Dropped(r, c);
      && d.s.sent == [] && d.s.phase == r.s.phase && (r.s.interacting == Some(c) ==> d.s.interacting.None?)
      && r.s.(sent := []).Drop(c) == if r.s.interacting == Some(c) then d.s.HandlePendingInteractions() else d.s
  {
    hide Server.HandlePendingInteractions;
  }

  lemma AfterDropNews(s: Server, t: Server)
    requires Completes(s, t)
    ensures Extends(s, t) && forall m :: m in News(s, t) ==> !m.SaveYourself? && !m.Interact?
    ensures t.interacting == s.interacting
  {
  }

  ghost function ContinueNews(s: Server): seq<Message> {
    if s.phase == Killing && s.Select(Others, s.clients) == [] then
      KillNews(s) + (if s.clients == [] then [Quit] else [])
    else if s.phase == KillingSubSession && s.Select(Others, s.sub.toKill) == [] then [SubSessionClosed]
    else if s.phase == KillingWM && s.clients == [] then [Quit]
    else []
  }

  /** A departure may be the one the killing was waiting for. */
  lemma ContinuesKilling(s: Server)
    ensures var p :=
        if s.phase == Killing && s.Select(Others, s.clients) == [] then KillingWM
        else if s.phase == KillingSubSession && s.Select(Others, s.sub.toKill) == [] then Idle
        else s.phase;
      s.ContinueKilling() == s.(phase := p, sent := s.sent + ContinueNews(s),
                                sub := if s.phase == KillingSubSession && p == Idle then NO_SUB else s.sub)
    ensures forall m :: m in ContinueNews(s) ==> m.Die? || m.Quit? || m.SubSessionClosed?
  {
    KillingWm(s);
    assert s.sent + [] == s.sent;
    if s.phase == Killing && s.Select(Others, s.clients) == [] {
      assert s.KillWM().CompleteKillingWM() == s.ContinueKilling();
      assert s.sent + KillNews(s) + [Quit] == s.sent + (KillNews(s) + [Quit]);
      assert KillNews(s) + [] == KillNews(s);
    }
  }

  lemma KillingGoesOn(r: Run)
    requires Inv(r)
    ensures Inv(With(r, r.s.ContinueKilling()))
    ensures Extends(r.s, r.s.ContinueKilling())
    ensures forall m :: m in News(r.s, r.s.ContinueKilling()) ==> !m.SaveYourself? && !m.Interact?
  {
    hide Inv, Server.ContinueKilling, ContinueNews;
    InvBooks(r);
    SubOutside(r);
    ContinuesKilling(r.s);
    var u := r.s.ContinueKilling();
    assert News(r.s, u) == ContinueNews(r.s);
    if u.phase == Shutdown || u.phase == Checkpoint || u.phase == ClosingSubSession {
      SentKeeps(r, u.sent);
      assert u == r.s.(sent := u.sent);
    } else {
      KillingCounts(r);
      OutsideMoveKeeps(r, u.phase, u.sub, u.sent);
      assert u == r.s.(phase := u.phase, sub := u.sub, sent := u.sent);
    }
  }

  lemma KillingCounts(r: Run)
    requires Inv(r)
    ensures r.s.phase == Starting || (r.s.phase == KillingSubSession && r.counted) ==> r.s.wmWaiting == 0
  {
  }

  lemma NewsOfLeaving(q: Run, t: Server, u: Server)
    requires Extends(q.s, t) && Extends(t, u) && (forall m :: m in q.s.sent ==> m.Interact?)
    requires forall m :: m in News(q.s, t) ==> !m.SaveYourself? && !m.Interact?
    requires forall m :: m in News(t, u) ==> !m.SaveYourself? && !m.Interact?
    ensures SaveTargets(u.sent) == multiset{} && InteractTargets(u.sent) == InteractTargets(q.s.sent)
    ensures SaveTargets(q.s.sent) == multiset{}
  {
    assert u.sent == q.s.sent + News(q.s, t) + News(t, u);
    NoSaveTargets(u.sent);
    NoSaveTargets(q.s.sent);
    assert forall c :: Interact(c) in u.sent <==> Interact(c) in q.s.sent;
  }

  lemma LeaveIs(r: Run, c: ClientId, q: Run)
    requires r.s.WellFormed() && c in r.s.flags && q.s.WellFormed()
    requires q == Observed(Dropped(r, c), r.s.(sent := []).Drop(c))
    ensures Step(r, Leave(c)).s == q.s.CompleteShutdownOrCheckpoint().ContinueKilling()
    ensures var u := Step(r, Leave(c)).s;
      SaveTargets(u.sent) == multiset{} && SaveTargets(q.s.sent) == multiset{}
      && InteractTargets(u.sent) == InteractTargets(q.s.sent) ==>
      Step(r, Leave(c)) == q.(s := u)
  {
    hide Server.CompleteShutdownOrCheckpoint, Server.ContinueKilling, Server.Drop;
    assert r.done + {} == r.done && r.asked + {} == r.asked;
  }

  lemma StepJoin(r: Run, p: Properties)
    requires Inv(r) && Allowed(r, Join(p))
    ensures Inv(Step(r, Join(p)))
  {
    var t := r.s.(sent := []).NewClient(r.nextId, p);
    var q := r.(s := t, nextId := r.nextId + 1);
    assert r.nextId !in r.s.fixed.props && r.nextId !in r.s.clients;
    JoinedBooks(r, q, p);
    JoinedCounts(r, q, p);
    PlainNews([]);
    assert r.told + multiset{} == r.told && r.granted + {} == r.granted && r.done + {} == r.done && r.asked + {} == r.asked;
    assert Step(r, Join(p)) == q;
  }

  lemma JoinedBooks(r: Run, q: Run, p: Properties)
    requires Inv(r) && q == r.(s := r.s.(sent := []).NewClient(r.nextId, p), nextId := r.nextId + 1)
    ensures Bookkeeping(q) && Truthful(q) && Guarded(q) && OneInteracts(q)
  {
    assert r.nextId !in r.s.clients;
  }

  lemma JoinedCounts(r: Run, q: Run, p: Properties)
    requires Inv(r) && Allowed(r, Join(p))
    requires q == r.(s := r.s.(sent := []).NewClient(r.nextId, p), nextId := r.nextId + 1)
    ensures WmsCounted(q) && ToldOnce(q) && MembersTold(q)
  {
    hide Inv;
    InvParts(r);
    JoinedProgram(r, p);
    hide Allowed;
    JoinedTold(r, q, p);
    JoinedReports(r, q, p);
  }

  lemma JoinedProgram(r: Run, p: Properties)
    requires r.s.WellFormed() && Allowed(r, Join(p))
    ensures p.Program() == r.s.fixed.wm ==> !LoggingOut(r.s.phase)
  {
  }

  lemma JoinedTold(r: Run, q: Run, p: Properties)
    requires Bookkeeping(r) && ToldOnce(r) && MembersTold(r)
    requires q == r.(s := r.s.(sent := []).NewClient(r.nextId, p), nextId := r.nextId + 1)
    ensures ToldOnce(q) && MembersTold(q)
  {
    assert forall c :: c != r.nextId ==> (q.s.IsWM(c) <==> r.s.IsWM(c));
  }

  lemma JoinedReports(r: Run, q: Run, p: Properties)
    requires Bookkeeping(r) && WmsCounted(r) && (p.Program() == r.s.fixed.wm ==> !LoggingOut(r.s.phase))
    requires q == r.(s := r.s.(sent := []).NewClient(r.nextId, p), nextId := r.nextId + 1)
    ensures WmsCounted(q)
  {
    assert forall c :: c != r.nextId ==> (q.s.IsWM(c) <==> r.s.IsWM(c));
    if LoggingOut(r.s.phase) {
      assert Unreported(q) == Unreported(r);
    }
  }

  // ---- starting a round ----

  ghost function Elements(ids: seq<ClientId>): set<ClientId> { set c | c in ids }

  lemma {:induction false} ElementsAtMost(ids: seq<ClientId>)
    ensures |Elements(ids)| <= |ids|
  {
    if ids != [] {
      var k := |ids| - 1;
      ElementsAtMost(ids[..k]);
      assert ids == ids[..k] + [ids[k]];
      assert Elements(ids) == Elements(ids[..k]) + {ids[k]};
    }
  }

  /** What the observer sees at the start of a round. */
  ghost function Begun(r: Run, e: Event, s: Server): Run {
    Run(s, r.nextId, {}, {}, SaveTargets(s.sent), {}, false, r.nextId, CountIsFresh(r.s, e), TurnsAreFresh(r.s, e))
  }

  /** A round of all clients: with fresh flags, the window managers counted, and them or everybody asked. */
  ghost predicate BeginsAll(s: Server, t: Server) {
    && (t.phase == Shutdown || t.phase == Checkpoint) && (t.phase == Shutdown ==> t.protection)
    && t.clients == s.clients && t.fixed == s.fixed && t.sub == s.sub && t.interacting == s.interacting
    && t.flags == ResetFlags(s.flags, s.clients) && t.wmWaiting == s.CountWMs(s.clients)
    && t.sent == t.SaveMessages(s.Select(if t.wmWaiting > 0 then WindowManagers else Everyone, s.clients))
  }

  lemma BeginsWithInv(r: Run, e: Event, t: Server)
    requires Rest(r) && r.s.phase == Idle && r.s.interacting.None? && BeginsAll(r.s, t) && !e.CloseSubSession?
    ensures Inv(Begun(r, e, t))
  {
    BegunTold(r, t);
    BegunCounts(r, e, t);
    assert forall c :: c in t.flags ==> t.flags[c] == FRESH;
  }

  lemma BegunCounts(r: Run, e: Event, t: Server)
    requires BeginsAll(r.s, t)
    ensures |Unreported(Begun(r, e, t))| <= t.wmWaiting
  {
    var wms := r.s.Select(WindowManagers, r.s.clients);
    ElementsAtMost(wms);
    assert Unreported(Begun(r, e, t)) == Elements(wms);
  }

  lemma BegunTold(r: Run, t: Server)
    requires Bookkeeping(r) && BeginsAll(r.s, t)
    ensures forall c :: c in SaveTargets(t.sent) ==> SaveTargets(t.sent)[c] == 1 && c < r.nextId
    ensures t.wmWaiting > 0 ==> forall c :: c in SaveTargets(t.sent) ==> t.IsWM(c)
    ensures forall c :: c in t.clients && (t.wmWaiting == 0 || t.IsWM(c)) ==> c in SaveTargets(t.sent)
  {
    var who := if t.wmWaiting > 0 then WindowManagers else Everyone;
    SelectNoRepeats(r.s, who, r.s.clients);
    SaveTargetsOfSave(t, r.s.Select(who, r.s.clients));
    forall c | c in t.clients && (t.wmWaiting == 0 || t.IsWM(c)) ensures c in SaveTargets(t.sent) {
      assert r.s.Addressed(who, c);
      assert SaveTargets(t.sent)[c] == 1;
    }
  }

  /** Without clients the round completes at once. */
  lemma BegunCompletes(r: Run, e: Event, t: Server)
    requires Inv(Begun(r, e, t)) && t.WellFormed() && (t.clients == [] ==> t.sent == [])
    ensures Inv(Begun(r, e, t.CompleteIfNoClients()))
    ensures InteractTargets(t.sent) == {} ==> InteractTargets(t.CompleteIfNoClients().sent) == {}
  {
    hide Inv, Completes, Server.CompleteShutdownOrCheckpoint;
    if t.clients == [] {
      CompletingCompletes(t);
      var u := t.CompleteShutdownOrCheckpoint();
      CompletingKeeps(Begun(r, e, t), u);
      CompletedNews(t, u);
      NoSaveTargets([]);
      assert Begun(r, e, u) == With(Begun(r, e, t), u);
    }
  }

  lemma StepLogout(r: Run, confirmed: bool, save: bool)
    requires Inv(r) && Allowed(r, Logout(confirmed, save))
    ensures Inv(Step(r, Logout(confirmed, save)))
  {
    hide Inv, Rest, Server.CompleteShutdownOrCheckpoint, BeginsAll, Step;
    InvIsRest(r);
    RestBooks(r);
    if StartsRound(r.s, Logout(confirmed, save)) {
      var t := LogoutBegins(r.s, save);
      BeginsWithInv(r, Logout(confirmed, save), t);
      BegunSent(r.s, t);
      BegunCompletes(r, Logout(confirmed, save), t);
      BegunIs(r, Logout(confirmed, save), t.CompleteIfNoClients());
    } else {
      LogoutPutOff(r, confirmed, save);
    }
  }

  lemma BegunIs(r: Run, e: Event, u: Server)
    requires r.s.WellFormed() && Knows(r.s, e) && StartsRound(r.s, e)
    requires Handle(r.s.(sent := []), r.nextId, e) == u && InteractTargets(u.sent) == {}
    ensures Step(r, e) == Begun(r, e, u)
  {
    hide Handle;
    assert multiset{} + SaveTargets(u.sent) == SaveTargets(u.sent);
  }

  /** A request that starts no round at most remembers that it was made. */
  lemma LogoutPutOff(r: Run, confirmed: bool, save: bool)
    requires Inv(r) && !StartsRound(r.s, Logout(confirmed, save))
    ensures Inv(Step(r, Logout(confirmed, save)))
  {
    var q := r.(s := r.s.(sent := [], pendingShutdown := r.s.phase == Starting));
    RequestKeeps(r, q);
    PutOffIs(r, confirmed, save, q);
  }

  lemma RequestKeeps(r: Run, q: Run)
    requires Inv(r) && q == r.(s := r.s.(sent := [], pendingShutdown := r.s.phase == Starting))
    ensures Inv(q) && r.s.WellFormed()
  {
    assert Unreported(q) == Unreported(r);
  }

  lemma PutOffIs(r: Run, confirmed: bool, save: bool, q: Run)
    requires r.s.WellFormed() && !StartsRound(r.s, Logout(confirmed, save))
    requires q == r.(s := r.s.(sent := [], pendingShutdown := r.s.phase == Starting))
    ensures Step(r, Logout(confirmed, save)) == q
  {
    PlainNews([]);
    assert r.told + multiset{} == r.told && r.granted + {} == r.granted && r.done + {} == r.done && r.asked + {} == r.asked;
  }

  lemma LogoutBegins(s: Server, save: bool) returns (t: Server)
    requires s.WellFormed() && s.phase == Idle
    ensures t.WellFormed() && BeginsAll(s, t) && t.phase == Shutdown
    ensures t.saving == Saving(if save then SaveBoth else SaveGlobal, save,
                               if save then PREVIOUS_LOGOUT else s.saving.sessionGroup, s.saving.config)
    ensures s.(sent := []).ShutdownEvent(true, save) == t.CompleteIfNoClients()
  {
    hide Server.CompleteIfNoClients, Server.CompleteShutdownOrCheckpoint, Server.AskFirst, BeginsAll;
    var u := s.(sent := [], pendingShutdown := false,
                saving := Saving(if save then SaveBoth else SaveGlobal, save,
                                 if save then PREVIOUS_LOGOUT else s.saving.sessionGroup, s.saving.config),
                phase := Shutdown, protection := true,
                flags := ResetFlags(s.flags, s.clients), wmWaiting := s.CountWMs(s.clients));
    AskedFirst(s, s.(sent := []));
    AskingBegins(s, u);
    t := u.AskFirst();
  }

  lemma AskingBegins(s: Server, u: Server)
    requires s.WellFormed() && u.sent == [] && (u.phase == Shutdown || u.phase == Checkpoint)
    requires u.phase == Shutdown ==> u.protection
    requires u.clients == s.clients && u.fixed == s.fixed && u.sub == s.sub && u.interacting == s.interacting
    requires u.flags == ResetFlags(s.flags, s.clients) && u.wmWaiting == s.CountWMs(s.clients)
    ensures u.AskFirst().WellFormed() && BeginsAll(s, u.AskFirst())
    ensures u.AskFirst().saving == u.saving && u.AskFirst().phase == u.phase
  {
    var who := if u.wmWaiting > 0 then WindowManagers else Everyone;
    AskFirstSends(u, who);
    AskedFirst(s, u);
  }

  lemma AskFirstSends(u: Server, who: Who)
    requires u.sent == [] && who == (if u.wmWaiting > 0 then WindowManagers else Everyone)
    ensures u.AskFirst() == u.(sent := u.AskFirst().SaveMessages(u.Select(who, u.clients)))
  {
    hide Server.SaveMessages, Server.Select;
    var ids := u.Select(who, u.clients);
    assert [] + u.SaveMessages(ids) == u.SaveMessages(ids);
    SaveMessagesSame(u.AskFirst(), u, ids);
  }

  lemma SaveMessagesSame(s: Server, t: Server, ids: seq<ClientId>)
    requires s.saving == t.saving
    ensures s.SaveMessages(ids) == t.SaveMessages(ids)
  {
  }

  /** Who is asked first depends on the programs only. */
  lemma AskedFirst(s: Server, t: Server)
    requires t.fixed == s.fixed && t.clients == s.clients
    ensures t.Select(WindowManagers, t.clients) == s.Select(WindowManagers, s.clients)
    ensures t.Select(Everyone, t.clients) == s.Select(Everyone, s.clients)
    ensures t.CountWMs(t.clients) == s.CountWMs(s.clients)
  {
    SelectSame(s, t, WindowManagers, s.clients);
    SelectSame(s, t, Everyone, s.clients);
    assert t.CountWMs(t.clients) == |t.Select(WindowManagers, t.clients)|;
    assert s.CountWMs(s.clients) == |s.Select(WindowManagers, s.clients)|;
  }

  lemma BegunSent(s: Server, t: Server)
    requires BeginsAll(s, t)
    ensures t.clients == [] ==> t.sent == []
    ensures InteractTargets(t.sent) == {}
  {
  }

  lemma StepSaveSession(r: Run)
    requires Inv(r) && Allowed(r, SaveSession)
    ensures Inv(Step(r, SaveSession))
  {
    hide Inv, Rest, Server.CompleteShutdownOrCheckpoint, BeginsAll, Step;
    InvIsRest(r);
    RestBooks(r);
    if r.s.phase == Idle {
      var t := SaveSessionBegins(r.s);
      BeginsWithInv(r, SaveSession, t);
      BegunSent(r.s, t);
      BegunCompletes(r, SaveSession, t);
      BegunIs(r, SaveSession, t.CompleteIfNoClients());
    } else {
      StepNothing(r, SaveSession);
    }
  }

  lemma SaveSessionBegins(s: Server) returns (t: Server)
    requires s.WellFormed() && s.phase == Idle
    ensures t.WellFormed() && BeginsAll(s, t) && t.phase == Checkpoint
    ensures t.saving == Saving(SaveLocal, true, if s.CurrentSession() == "" || s.saving.sessionGroup == PREVIOUS_LOGOUT then BY_USER
                                                else s.saving.sessionGroup, s.saving.config)
    ensures s.(sent := []).SaveCurrentSession() == t.CompleteIfNoClients()
  {
    hide Server.CompleteIfNoClients, Server.CompleteShutdownOrCheckpoint, Server.AskFirst, BeginsAll;
    var group := if s.CurrentSession() == "" || s.saving.sessionGroup == PREVIOUS_LOGOUT then BY_USER
                 else s.saving.sessionGroup;
    var u := s.(sent := [], phase := Checkpoint, saving := Saving(SaveLocal, true, group, s.saving.config),
                flags := ResetFlags(s.flags, s.clients), wmWaiting := s.CountWMs(s.clients));
    AskedFirst(s, s.(sent := []));
    AskingBegins(s, u);
    t := u.AskFirst();
  }

  // ---- closing part of the session ----

  /** A round of some clients: their flags are fresh, and the others' are left alone, like the count. */
  ghost predicate BeginsSome(s: Server, t: Server, saved: seq<ClientId>, killed: seq<ClientId>) {
    && t.phase == ClosingSubSession && t.protection && t.clients == s.clients && t.fixed == s.fixed
    && t.interacting == s.interacting && t.wmWaiting == s.wmWaiting
    && t.flags == ResetFlags(s.flags, saved) && t.sub == SubSession(saved, killed)
    && t.sent == t.SaveMessages(saved)
  }

  lemma SubSessionBegins(r: Run, e: Event, t: Server, saved: seq<ClientId>, killed: seq<ClientId>)
    requires Rest(r) && r.s.phase == Idle && r.s.interacting.None?
    requires NoRepeats(saved) && forall c :: c in saved || c in killed ==> c in r.s.flags
    requires e.CloseSubSession? && saved == r.s.Named(r.s.clients, e.saveAndClose + e.saveOnly)
    requires BeginsSome(r.s, t, saved, killed)
    ensures Inv(Begun(r, e, t)) && InteractTargets(t.sent) == {} && t.WellFormed()
  {
    hide Rest, Inv;
    RestBooks(r);
    SubSessionBooks(r, e, t, saved, killed);
    SubSessionFlags(r, e, t, saved, killed);
    RestAndRules(Begun(r, e, t));
  }

  lemma SubSessionBooks(r: Run, e: Event, t: Server, saved: seq<ClientId>, killed: seq<ClientId>)
    requires Rest(r) && NoRepeats(saved) && (forall c :: c in saved || c in killed ==> c in r.s.flags)
    requires r.s.interacting.None? && e.CloseSubSession? && BeginsSome(r.s, t, saved, killed)
    ensures t.WellFormed() && Rest(Begun(r, e, t))
  {
    SaveTargetsOfSave(t, saved);
    SubSessionWellFormed(r.s, t, saved, killed);
    SubSessionTold(r, e, t, saved, killed);
  }

  lemma SubSessionTold(r: Run, e: Event, t: Server, saved: seq<ClientId>, killed: seq<ClientId>)
    requires Rest(r) && t.WellFormed() && e.CloseSubSession? && BeginsSome(r.s, t, saved, killed)
    requires forall c :: SaveTargets(t.sent)[c] == if c in saved then 1 else 0
    requires forall c :: c in saved ==> t.flags[c] == FRESH && c in r.s.flags
    ensures Rest(Begun(r, e, t))
  {
    hide Bookkeeping, TurnsAreFresh;
    BegunBooks(r, e, t, saved);
  }

  lemma BegunBooks(r: Run, e: Event, t: Server, saved: seq<ClientId>)
    requires Bookkeeping(r) && t.WellFormed() && t.clients == r.s.clients && t.fixed == r.s.fixed
    requires t.phase == ClosingSubSession && InteractTargets(t.sent) == {}
    requires forall c :: SaveTargets(t.sent)[c] == if c in saved then 1 else 0
    requires forall c :: c in saved ==> c in r.s.flags
    ensures Bookkeeping(Begun(r, e, t))
  {
  }

  lemma SubSessionWellFormed(s: Server, t: Server, saved: seq<ClientId>, killed: seq<ClientId>)
    requires s.WellFormed() && forall c :: c in saved || c in killed ==> c in s.flags
    requires BeginsSome(s, t, saved, killed)
    ensures t.WellFormed() && forall c :: c in saved ==> t.flags[c] == FRESH
  {
  }

  lemma SubSessionFlags(r: Run, e: Event, t: Server, saved: seq<ClientId>, killed: seq<ClientId>)
    requires r.s.interacting.None? && BeginsSome(r.s, t, saved, killed)
    requires e.CloseSubSession? && saved == r.s.Named(r.s.clients, e.saveAndClose + e.saveOnly)
    ensures Guarded(Begun(r, e, t)) && OneInteracts(Begun(r, e, t)) && InteractTargets(t.sent) == {}
  {
  }

  lemma {:induction false} NamedNoRepeats(s: Server, ids: seq<ClientId>, names: set<string>)
    requires NoRepeats(ids)
    ensures NoRepeats(s.Named(ids, names))
  {
    if ids != [] {
      var k := |ids| - 1;
      NamedNoRepeats(s, ids[..k], names);
      assert ids[k] !in ids[..k];
      assert forall i :: 0 <= i < |s.Named(ids[..k], names)| ==> s.Named(ids[..k], names)[i] in s.Named(ids[..k], names);
    }
  }

  lemma {:induction false} NamedSame(s: Server, t: Server, ids: seq<ClientId>, names: set<string>)
    requires s.fixed == t.fixed
    ensures s.Named(ids, names) == t.Named(ids, names)
  {
    if ids != [] { NamedSame(s, t, ids[..|ids| - 1], names); }
  }

  lemma StepCloseSubSession(r: Run, name: string, close: set<string>, only: set<string>)
    requires Inv(r) && Allowed(r, CloseSubSession(name, close, only))
    ensures Inv(Step(r, CloseSubSession(name, close, only)))
  {
    hide Inv, Rest, Completes, Server.CompleteShutdownOrCheckpoint, BeginsSome, Step;
    InvIsRest(r);
    RestBooks(r);
    var e := CloseSubSession(name, close, only);
    if r.s.phase == Idle {
      RestLists(r);
      RestNoRepeats(r);
      NamedNoRepeats(r.s, r.s.clients, close + only);
      var saved, killed := r.s.Named(r.s.clients, close + only), r.s.Named(r.s.clients, close);
      var t := ClosingBegins(r.s, name, close, only);
      SubSessionBegins(r, e, t, saved, killed);
      CompletingCompletes(t);
      var u := t.CompleteShutdownOrCheckpoint();
      CompletingKeeps(Begun(r, e, t), u);
      SubSessionNews(r, e, t, u);
      BegunIs(r, e, u);
    } else {
      StepNothing(r, e);
    }
  }

  lemma RestNoRepeats(r: Run)
    requires Rest(r)
    ensures NoRepeats(r.s.clients)
  {
  }

  lemma ClosingBegins(s: Server, name: string, close: set<string>, only: set<string>) returns (t: Server)
    requires s.WellFormed() && s.phase == Idle && s.sub == NO_SUB
    ensures BeginsSome(s, t, s.Named(s.clients, close + only), s.Named(s.clients, close)) && t.WellFormed()
    ensures t.saving == Saving(SaveBoth, true, "SubSession: " + name, s.saving.config)
    ensures s.(sent := []).SaveSubSession(name, close, only) == t.CompleteShutdownOrCheckpoint()
  {
    hide Server.CompleteShutdownOrCheckpoint, Server.AddToSubSession, BeginsSome;
    var saved, killed := s.Named(s.clients, close + only), s.Named(s.clients, close);
    var u := s.(sent := [], phase := ClosingSubSession, protection := true,
                saving := Saving(SaveBoth, true, "SubSession: " + name, s.saving.config));
    NamedSame(s, u, s.clients, close + only);
    NamedSame(s, u, s.clients, close);
    NamedSame(s, s.(sent := []), s.clients, close + only);
    NamedSame(s, s.(sent := []), s.clients, close);
    t := u.AddToSubSession(saved, killed);
    AddingBegins(s, u, saved, killed);
  }

  lemma AddingBegins(s: Server, u: Server, saved: seq<ClientId>, killed: seq<ClientId>)
    requires s.WellFormed() && u.phase == ClosingSubSession && u.protection && u.sent == [] && u.sub == NO_SUB
    requires u.clients == s.clients && u.fixed == s.fixed && u.interacting == s.interacting && u.flags == s.flags
    requires u.wmWaiting == s.wmWaiting && forall c :: c in saved || c in killed ==> c in s.flags
    ensures BeginsSome(s, u.AddToSubSession(saved, killed), saved, killed)
    ensures u.AddToSubSession(saved, killed).WellFormed() && u.AddToSubSession(saved, killed).saving == u.saving
  {
    AddingSends(u, saved, killed);
    SubSessionWellFormed(s, u.AddToSubSession(saved, killed), saved, killed);
  }

  lemma AddingSends(u: Server, saved: seq<ClientId>, killed: seq<ClientId>)
    requires u.sent == [] && u.sub == NO_SUB
    ensures u.AddToSubSession(saved, killed)
         == u.(flags := ResetFlags(u.flags, saved), sub := SubSession(saved, killed),
               sent := u.AddToSubSession(saved, killed).SaveMessages(saved))
  {
    assert [] + saved == saved && [] + killed == killed && [] + u.SaveMessages(saved) == u.SaveMessages(saved);
    assert u.AddToSubSession(saved, killed).SaveMessages(saved) == u.SaveMessages(saved);
  }

  lemma SubSessionNews(r: Run, e: Event, t: Server, u: Server)
    requires Completes(t, u) && InteractTargets(t.sent) == {}
    ensures Begun(r, e, u) == With(Begun(r, e, t), u) && InteractTargets(u.sent) == {}
  {
    hide Completes, CountIsFresh, TurnsAreFresh;
    AfterDropNews(t, u);
    assert u.sent == t.sent + News(t, u);
    NoSaveTargets(News(t, u));
    SaveTargetsConcat(t.sent, News(t, u));
    assert SaveTargets(t.sent) + multiset{} == SaveTargets(t.sent);
    assert forall c :: Interact(c) in u.sent ==> Interact(c) in t.sent;
  }

  /** Whatever happens next, if the environment keeps its side the invariant is kept. */
  lemma StepKeepsInv(r: Run, e: Event)
    requires Inv(r) && Allowed(r, e)
    ensures Inv(Step(r, e))
  {
    hide Inv, Step, Allowed;
    match e
    case Join(p) => StepJoin(r, p);
    case Leave(c) => StepLeave(r, c);
    case Logout(confirmed, save) => StepLogout(r, confirmed, save);
    case SaveSession => StepSaveSession(r);
    case CloseSubSession(name, close, only) => StepCloseSubSession(r, name, close, only);
    case Done(c) => StepDone(r, c);
    case AskPhase2(c) => StepAskPhase2(r, c);
    case AskInteract(c) => StepAskInteract(r, c);
    case EndInteract(c, cancel) => StepEndInteract(r, c, cancel);
    case ProtectionTimer => StepProtectionTimer(r);
    case SoundFinished => StepSoundFinished(r);
    case KillTimer => StepKillTimer(r);
    case WmKillTimer => StepWmKillTimer(r);
    case SubSessionTimer => StepSubSessionTimer(r);
    case StartupBegins => StepStartup(r, e);
    case StartupEnds => StepStartup(r, e);
  }
}
