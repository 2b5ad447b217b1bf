/**
 Runs from the start in which the session manager keeps less than one would expect, one for each of the cases
 that SessionGaps.dfy describes.
 */
module SessionExamples {
  import opened SessionStore
  import opened SessionModel
  import opened SessionRounds
  import opened SessionSafety
  import opened SessionEnds
  import opened SessionRuns
  import opened SessionGaps

  // ---- runs, event by event ----

  /** From the start the events es are possible and lead to r. */
  ghost predicate LeadsTo(start: Run, es: seq<Event>, r: Run) {
    AllowedAll(start, es) && Execute(start, es) == r && Inv(r)
  }

  lemma {:induction false} OneMore(start: Run, es: seq<Event>, r: Run, e: Event)
    requires LeadsTo(start, es, r) && r.s.WellFormed() && Allowed(r, e)
    ensures Knows(r.s, e) && LeadsTo(start, es + [e], Step(r, e)) && Step(r, e).s.WellFormed()
    decreases |es|
  {
    hide Inv, Step, Allowed;
    AllowedKnows(r, e);
    StepKeepsInv(r, e);
    InvBooks(Step(r, e));
    if es == [] {
      assert es + [e] == [e] && [e][1..] == [];
      assert start == r;
      assert AllowedAll(Step(r, e), [e][1..]);
      assert AllowedAll(r, [e]);
      assert Execute(r, [e]) == Execute(Step(r, e), []);
    } else {
      AllowedKnows(start, es[0]);
      assert (es + [e])[1..] == es[1..] + [e];
      OneMore(Step(start, es[0]), es[1..], r, e);
    }
  }

  /** Two clients have connected, and no round has begun. */
  ghost predicate TwoJoined(r: Run, p: Properties, q: Properties) {
    && r.s.phase == Idle && r.s.clients == [0, 1] && r.s.flags == map[0 := FRESH, 1 := FRESH]
    && r.s.fixed.props == map[0 := p, 1 := q] && r.s.wmWaiting == 0 && r.s.interacting.None? && !r.s.protection
    && r.s.sub == NO_SUB && r.nextId == 2
  }

  lemma BothJoin(wm: string, excludeApps: set<string>, saving: Saving, p: Properties, q: Properties) returns (r: Run)
    ensures LeadsTo(Initial(wm, excludeApps, saving), [Join(p), Join(q)], r) && r.s.WellFormed()
    ensures TwoJoined(r, p, q) && r.s.fixed.wm == wm
  {
    hide Inv, LeadsTo, Step, Allowed;
    var start := Initial(wm, excludeApps, saving);
    InitialInv(wm, excludeApps, saving);
    NoneYet(start);
    MayJoin(start, p);
    OneMore(start, [], start, Join(p));
    assert [] + [Join(p)] == [Join(p)] && [Join(p)] + [Join(q)] == [Join(p), Join(q)];
    var one := Step(start, Join(p));
    JoinIs(start, p);
    MayJoin(one, q);
    OneMore(start, [Join(p)], one, Join(q));
    r := Step(one, Join(q));
    JoinIs(one, q);
    assert [] + [0] == [0] && [0] + [1] == [0, 1];
  }

  lemma NoneYet(start: Run)
    requires Inv(start)
    ensures LeadsTo(start, [], start) && start.s.WellFormed()
  {
  }

  lemma MayJoin(r: Run, p: Properties)
    requires r.s.WellFormed() && r.s.phase == Idle
    ensures Allowed(r, Join(p))
  {
  }

  lemma JoinIs(r: Run, p: Properties)
    requires r.s.WellFormed()
    ensures Step(r, Join(p)).s == r.s.(sent := []).NewClient(r.nextId, p) && Step(r, Join(p)).nextId == r.nextId + 1
  {
  }

  /** A logout or a checkpoint begins. */
  lemma RoundBegins(r: Run, e: Event) returns (t: Server)
    requires Inv(r) && r.s.WellFormed() && r.s.phase == Idle && r.s.interacting.None? && r.s.clients != []
    requires e.SaveSession? || (e.Logout? && e.confirmed)
    ensures Allowed(r, e) && Step(r, e) == Begun(r, e, t) && BeginsAll(r.s, t) && t.WellFormed()
    ensures t.phase == (if e.SaveSession? then Checkpoint else Shutdown)
    ensures e.SaveSession? ==> t.protection == r.s.protection
  {
    hide Inv, BeginsAll, Begun, Step, Server.CompleteIfNoClients, Server.ShutdownEvent, Server.SaveCurrentSession, Allowed;
    if e.Logout? { t := LogoutBegins(r.s, e.save); } else { t := SaveSessionBegins(r.s); CheckpointBegins(r.s.(sent := [])); }
    BeginsSame(r.s, t);
    assert t.CompleteIfNoClients() == t by { SomebodyIsThere(t); }
    BegunIs(r, e, t);
    BegunPhase(r.s, t);
    BeginPhase(r, e);
  }

  lemma SomebodyIsThere(t: Server)
    requires t.WellFormed() && t.clients != []
    ensures t.CompleteIfNoClients() == t
  {
  }

  lemma BeginsSame(s: Server, t: Server)
    requires BeginsAll(s, t)
    ensures t.clients == s.clients && InteractTargets(t.sent) == {}
  {
  }

  lemma BeginPhase(r: Run, e: Event)
    requires r.s.WellFormed() && r.s.phase == Idle && r.s.interacting.None? && r.s.clients != []
    requires e.SaveSession? || (e.Logout? && e.confirmed)
    ensures Allowed(r, e) && Handle(r.s.(sent := []), r.nextId, e).phase == (if e.SaveSession? then Checkpoint else Shutdown)
  {
  }

  // ---- the examples ----

  /** A checkpoint that nothing guards: no timer runs, and both clients may keep silent for ever. */
  lemma UnguardedCheckpoint(wm: string, excludeApps: set<string>, saving: Saving, p: Properties, q: Properties) returns (r: Run)
    ensures LeadsTo(Initial(wm, excludeApps, saving), [Join(p), Join(q), SaveSession], r)
    ensures r.s.phase == Checkpoint && !r.s.protection && r.s.interacting.None? && r.s.WellFormed() && !Allowed(r, ProtectionTimer)
  {
    hide Inv, LeadsTo, Step, Allowed;
    var two := BothJoin(wm, excludeApps, saving, p, q);
    ReachedInv(Initial(wm, excludeApps, saving), [Join(p), Join(q)], two);
    var t := RoundBegins(two, SaveSession);
    OneMore(Initial(wm, excludeApps, saving), [Join(p), Join(q)], two, SaveSession);
    r := Step(two, SaveSession);
    NoTimer(r);
    assert [Join(p), Join(q)] + [SaveSession] == [Join(p), Join(q), SaveSession];
  }

  lemma NoTimer(r: Run)
    requires r.s.WellFormed() && !r.s.protection
    ensures !Allowed(r, ProtectionTimer)
  {
  }

  lemma ReachedInv(start: Run, es: seq<Event>, r: Run)
    requires LeadsTo(start, es, r)
    ensures Inv(r)
  {
  }

  /** What the beginning of a round means with a window manager and one other client. */
  ghost predicate WmAsked(r: Run, t: Run) {
    && t.s.clients == [0, 1] && t.s.flags == map[0 := FRESH, 1 := FRESH] && t.s.fixed == r.s.fixed && t.s.wmWaiting == 1
    && t.s.interacting.None? && t.told == multiset{0} && t.done == {} && t.asked == {} && t.nextId == 2
  }

  lemma WmIsAsked(r: Run, e: Event, t: Server, w: Properties, p: Properties)
    requires TwoJoined(r, w, p) && w.Program() == r.s.fixed.wm != p.Program() && BeginsAll(r.s, t)
    ensures WmAsked(r, Begun(r, e, t))
  {
    hide Properties.Program, SaveTargets, Server.SaveMessages, Server.CountWMs, Server.Select, CountIsFresh, TurnsAreFresh;
    WmSelected(r.s, w, p);
    assert r.s.CountWMs([0, 1]) == |r.s.Select(WindowManagers, [0, 1])|;
    OneTarget(t, 0);
    assert ResetFlags(r.s.flags, [0, 1]) == map[0 := FRESH, 1 := FRESH];
  }

  lemma WmSelected(s: Server, w: Properties, p: Properties)
    requires s.fixed.props == map[0 := w, 1 := p] && w.Program() == s.fixed.wm != p.Program()
    ensures s.Select(WindowManagers, [0, 1]) == [0] && s.Select(Others, [0, 1]) == [1]
    ensures s.IsWM(0) && !s.IsWM(1)
  {
    hide Properties.Program;
    assert [0, 1][..1] == [0] && [0][..0] == [];
    assert s.Select(WindowManagers, [0]) == [0] && s.Select(Others, [0]) == [];
  }

  /** The window manager leaves a logout or checkpoint that has just begun. */
  lemma WmHasLeft(wm: string, excludeApps: set<string>, saving: Saving, w: Properties, p: Properties, start: Event)
    returns (r: Run)
    requires w.Program() == wm != p.Program() && (start == SaveSession || (start.Logout? && start.confirmed))
    ensures LeadsTo(Initial(wm, excludeApps, saving), [Join(w), Join(p), start, Leave(0)], r)
    ensures Inv(r) && Stuck(r) && r.s.WellFormed() && r.s.phase == (if start.SaveSession? then Checkpoint else Shutdown)
    ensures r.s.clients == [1] && 1 !in r.told && r.s.wmWaiting == 1 && Unreported(r) == {}
    ensures r.s.interacting.None? && r.s.flags == map[1 := FRESH]
  {
    hide Inv, LeadsTo, Step, Allowed, Properties.Program, BeginsAll, Unreported, WmAsked, Stuck;
    var first, es := Initial(wm, excludeApps, saving), [Join(w), Join(p)];
    var two := BothJoin(wm, excludeApps, saving, w, p);
    ReachedInv(first, es, two);
    var t := RoundBegins(two, start);
    OneMore(first, es, two, start);
    WmIsAsked(two, start, t, w, p);
    var begun := Step(two, start);
    ReachedInv(first, es + [start], begun);
    OnlyWmMissing(begun, two, w, p);
    AskedMeans(two, begun);
    LeavingSticks(begun, 0, 1);
    OneMore(first, es + [start], begun, Leave(0));
    r := Step(begun, Leave(0));
    ReachedInv(first, es + [start] + [Leave(0)], r);
    assert es + [start] + [Leave(0)] == [Join(w), Join(p), start, Leave(0)];
    LeftAlone(begun, r);
  }

  /** The other client is then never told to save, and a logout ends without it. */
  lemma WmLeavesTheRound(wm: string, excludeApps: set<string>, saving: Saving, w: Properties, p: Properties, start: Event)
    returns (r: Run)
    requires w.Program() == wm != p.Program() && (start == SaveSession || (start.Logout? && start.confirmed))
    ensures LeadsTo(Initial(wm, excludeApps, saving), [Join(w), Join(p), start, Leave(0)], r)
    ensures r.s.InRound() && r.s.clients == [1] && 1 !in r.told && r.s.wmWaiting == 1 && Unreported(r) == {}
    ensures forall es :: AllowedAll(r, es) && SameRound(r, es) ==> 1 !in Execute(r, es).told
    ensures start.Logout? ==>
      && Allowed(r, ProtectionTimer) && r.s.WellFormed()
      && !Step(r, ProtectionTimer).s.InRound() && 1 !in Step(r, ProtectionTimer).told
  {
    hide Inv, LeadsTo, Step, Allowed, Execute, AllowedAll, SameRound, Properties.Program, Unreported, Stuck;
    r := WmHasLeft(wm, excludeApps, saving, w, p, start);
    forall es | AllowedAll(r, es) && SameRound(r, es) ensures 1 !in Execute(r, es).told { NobodyElseIsTold(r, es); }
    if start.Logout? { TimeoutEnds(r); }
  }

  lemma AskedMeans(r: Run, b: Run)
    requires WmAsked(r, b)
    ensures b.s.clients == [0, 1] && b.s.interacting.None? && b.s.wmWaiting == 1
    ensures b.s.flags - {0} == map[1 := FRESH]
  {
  }

  lemma OnlyWmMissing(b: Run, two: Run, w: Properties, p: Properties)
    requires WmAsked(two, b) && TwoJoined(two, w, p) && w.Program() == two.s.fixed.wm != p.Program()
    ensures 0 in Unreported(b) && !b.s.Reported(1) && 1 !in b.told && !b.s.IsWM(1)
  {
    hide Properties.Program;
    WmSelected(b.s, w, p);
  }

  lemma LeftAlone(b: Run, r: Run)
    requires b.s.clients == [0, 1] && r.s.clients == Removed(b.s.clients, 0) && Stuck(r) && !b.s.IsWM(1) && r.s.InRound()
    requires r.s.fixed == b.s.fixed && r.s.wmWaiting == 1 && r.s.phase != ClosingSubSession
    ensures r.s.clients == [1] && Unreported(r) == {}
  {
    assert [0, 1][..1] == [0] && [0][..0] == [] && Removed([0], 0) == [];
    assert r.s.IsWM(1) == b.s.IsWM(1);
  }

  lemma TimeoutEnds(r: Run)
    requires Inv(r) && Stuck(r) && r.s.WellFormed() && r.s.phase == Shutdown && r.s.interacting.None?
    requires r.s.clients == [1] && r.s.flags == map[1 := FRESH] && 1 !in r.told
    ensures Allowed(r, ProtectionTimer) && !Step(r, ProtectionTimer).s.InRound() && 1 !in Step(r, ProtectionTimer).told
  {
    hide Inv, Step, Allowed, Stuck, Server.ProtectionTimeout;
    StillGuarded(r);
    TimerMayFire(r);
    StuckStays(r, ProtectionTimer);
    OneTimeout(r.s.(sent := []));
  }

  lemma StillGuarded(r: Run)
    requires Inv(r) && r.s.phase == Shutdown && r.s.interacting.None?
    ensures r.s.protection
  {
  }

  // ---- a cancelled logout, then a sub-session ----

  ghost predicate LoggedOut(r: Run) {
    && r.s.WellFormed() && r.s.phase == Shutdown && r.s.clients == [0, 1] && r.s.flags == map[0 := FRESH, 1 := FRESH]
  }

  lemma FirstAsks(r: Run)
    requires LoggedOut(r) && r.s.interacting.None?
    ensures Allowed(r, AskInteract(0))
    ensures var q := Step(r, AskInteract(0));
      LoggedOut(q) && q.s.interacting == Some(0) && q.s.fixed == r.s.fixed && q.s.wmWaiting == r.s.wmWaiting
  {
    TurnOfFirst(r.s.(sent := []));
  }

  lemma TurnOfFirst(s: Server)
    requires s.WellFormed() && s.phase == Shutdown && s.clients == [0, 1] && s.interacting.None?
    requires s.flags == map[0 := FRESH, 1 := FRESH]
    ensures s.InteractRequest(0) == s.(interacting := Some(0), protection := false, sent := s.sent + [Interact(0)])
  {
    var t := s.(flags := s.flags[0 := FRESH.(pendingInteraction := true)]);
    assert t.FirstPending([0, 1]) == 0;
    assert t.flags[0 := FRESH] == s.flags;
  }

  lemma SecondAsks(r: Run)
    requires LoggedOut(r) && r.s.interacting == Some(0)
    ensures Allowed(r, AskInteract(1))
    ensures var q := Step(r, AskInteract(1));
      && q.s == r.s.(sent := [], flags := map[0 := FRESH, 1 := FRESH.(pendingInteraction := true)])
  {
  }

  /** The clients with a name of their own are closed, and the round waits for them. */
  lemma ClosingWaits(r: Run, e: Event, c: ClientId) returns (t: Server)
    requires Inv(r) && r.s.WellFormed() && r.s.phase == Idle && r.s.interacting.None? && e.CloseSubSession?
    requires r.s.Named(r.s.clients, e.saveAndClose + e.saveOnly) == [c]
    ensures Allowed(r, e) && Step(r, e) == Begun(r, e, t) && t.WellFormed()
    ensures BeginsSome(r.s, t, [c], r.s.Named(r.s.clients, e.saveAndClose))
  {
    hide Inv, BeginsSome, Begun, Step, Server.CompleteShutdownOrCheckpoint, Server.SaveSubSession;
    SubOutside(r);
    t := ClosingBegins(r.s, e.name, e.saveAndClose, e.saveOnly);
    OneIsSaved(r.s, t, c, r.s.Named(r.s.clients, e.saveAndClose));
    Completing(t);
    BegunIs(r, e, t);
  }

  lemma OneIsSaved(s: Server, t: Server, c: ClientId, killed: seq<ClientId>)
    requires t.WellFormed() && BeginsSome(s, t, [c], killed)
    ensures c in t.Pending() && !t.Reported(c) && InteractTargets(t.sent) == {}
  {
  }

  lemma OneNamed(s: Server, p: Properties, q: Properties)
    requires s.fixed.props == map[0 := p, 1 := q] && p.clientId != q.clientId
    ensures s.Named([0, 1], {p.clientId} + {}) == [0] && s.Named([0, 1], {q.clientId} + {}) == [1]
  {
    assert [0, 1][..1] == [0] && [0][..0] == [];
    assert s.Named([0], {p.clientId} + {}) == [0] && s.Named([0], {q.clientId} + {}) == [];
  }

  /** Two clients ask to interact in a logout, and the first one cancels it. */
  lemma TwoAskedFirstCancels(wm: string, excludeApps: set<string>, saving: Saving, p: Properties, q: Properties, save: bool)
    returns (both: Run, idle: Run)
    ensures LeadsTo(Initial(wm, excludeApps, saving),
                    [Join(p), Join(q), Logout(true, save), AskInteract(0), AskInteract(1), EndInteract(0, true)], idle)
    ensures Inv(both) && both.s.WellFormed() && both.s.phase == Shutdown && both.s.interacting == Some(0)
    ensures both.s.clients == [0, 1] && both.s.flags == map[0 := FRESH, 1 := FRESH.(pendingInteraction := true)]
    ensures both.s.fixed.props == map[0 := p, 1 := q] && idle == Step(both, EndInteract(0, true))
  {
    hide Inv, LeadsTo, Step, Allowed, LoggedOut, Server.CountWMs;
    var first, es := Initial(wm, excludeApps, saving), [Join(p), Join(q), Logout(true, save)];
    var begun, two := InLogout(wm, excludeApps, saving, p, q, save);
    LoggedOutMeans(begun);
    FirstAsks(begun);
    OneMore(first, es, begun, AskInteract(0));
    var asked := Step(begun, AskInteract(0));
    SecondAsks(asked);
    LoggedOutMeans(asked);
    OneMore(first, es + [AskInteract(0)], asked, AskInteract(1));
    both := Step(asked, AskInteract(1));
    ReachedInv(first, es + [AskInteract(0)] + [AskInteract(1)], both);
    CancelThenClose(both, 0, "", {}, {});
    OneMore(first, es + [AskInteract(0)] + [AskInteract(1)], both, EndInteract(0, true));
    idle := Step(both, EndInteract(0, true));
    assert es + [AskInteract(0)] + [AskInteract(1)] + [EndInteract(0, true)]
        == [Join(p), Join(q), Logout(true, save), AskInteract(0), AskInteract(1), EndInteract(0, true)];
  }

  /** In a sub-session that closes only the first one, the second one still waits for a turn that is free. */
  lemma LeftoverRequest(wm: string, excludeApps: set<string>, saving: Saving, p: Properties, q: Properties,
                        save: bool, name: string)
    returns (r: Run)
    requires p.clientId != q.clientId
    ensures LeadsTo(Initial(wm, excludeApps, saving),
                    [Join(p), Join(q), Logout(true, save), AskInteract(0), AskInteract(1), EndInteract(0, true),
                     CloseSubSession(name, {p.clientId}, {})], r)
    ensures r.s.phase == ClosingSubSession && r.s.interacting.None? && 1 in r.s.flags && r.s.flags[1].pendingInteraction
    ensures !r.cleared
  {
    hide Inv, LeadsTo, Step, Allowed, BeginsSome, Server.Named;
    var es := [Join(p), Join(q), Logout(true, save), AskInteract(0), AskInteract(1), EndInteract(0, true)];
    var close := CloseSubSession(name, {p.clientId}, {});
    var both, idle := TwoAskedFirstCancels(wm, excludeApps, saving, p, q, save);
    ReachedInv(Initial(wm, excludeApps, saving), es, idle);
    CancelThenClose(both, 0, name, {p.clientId}, {});
    CancelledIs(both, 0);
    OneNamed(both.s, p, q);
    OneNamed(idle.s, p, q);
    var t := ClosingWaits(idle, close, 0);
    OneMore(Initial(wm, excludeApps, saving), es, idle, close);
    r := Step(idle, close);
    assert es + [close]
        == [Join(p), Join(q), Logout(true, save), AskInteract(0), AskInteract(1), EndInteract(0, true), close];
    StillPending(idle.s, t, [0], idle.s.Named(idle.s.clients, {p.clientId}));
    assert both.s.flags[1].pendingInteraction;
  }

  lemma LoggedOutMeans(r: Run)
    requires LoggedOut(r)
    ensures r.s.WellFormed() && r.s.phase == Shutdown && r.s.clients == [0, 1] && r.s.flags == map[0 := FRESH, 1 := FRESH]
  {
  }

  lemma StillPending(s: Server, t: Server, saved: seq<ClientId>, killed: seq<ClientId>)
    requires BeginsSome(s, t, saved, killed)
    ensures forall c :: c in s.flags && c !in saved ==> c in t.flags && t.flags[c] == s.flags[c]
    ensures forall c :: c in saved ==> t.flags[c] == FRESH
    ensures t.phase == ClosingSubSession && t.interacting == s.interacting && t.wmWaiting == s.wmWaiting
    ensures t.clients == s.clients && t.fixed == s.fixed && t.sub.toSave == saved && t.sent == t.SaveMessages(saved)
  {
  }

  lemma InLogout(wm: string, excludeApps: set<string>, saving: Saving, p: Properties, q: Properties, save: bool)
    returns (begun: Run, two: Run)
    ensures LeadsTo(Initial(wm, excludeApps, saving), [Join(p), Join(q), Logout(true, save)], begun)
    ensures LoggedOut(begun) && begun.s.interacting.None? && TwoJoined(two, p, q) && two.s.fixed.wm == wm
    ensures begun.s.fixed == two.s.fixed && begun.s.wmWaiting == two.s.CountWMs([0, 1])
  {
    hide Inv, LeadsTo, Step, Allowed, BeginsAll, Server.CountWMs;
    var first := Initial(wm, excludeApps, saving);
    two := BothJoin(wm, excludeApps, saving, p, q);
    ReachedInv(first, [Join(p), Join(q)], two);
    var t := RoundBegins(two, Logout(true, save));
    OneMore(first, [Join(p), Join(q)], two, Logout(true, save));
    begun := Step(two, Logout(true, save));
    assert [Join(p), Join(q)] + [Logout(true, save)] == [Join(p), Join(q), Logout(true, save)];
    LogoutFresh(two.s, t);
  }

  lemma LogoutFresh(s: Server, t: Server)
    requires s.clients == [0, 1] && s.flags == map[0 := FRESH, 1 := FRESH] && BeginsAll(s, t)
    ensures t.flags == map[0 := FRESH, 1 := FRESH] && t.clients == s.clients && t.fixed == s.fixed
    ensures t.interacting == s.interacting && t.wmWaiting == s.CountWMs([0, 1])
  {
    hide Server.CountWMs;
  }

  /** The window manager cancels a logout, and another client is closed. */
  lemma ClosedAfterCancel(wm: string, excludeApps: set<string>, saving: Saving, w: Properties, p: Properties,
                          save: bool, name: string)
    returns (idle: Run, t: Server)
    requires w.Program() == wm != p.Program() && w.clientId != p.clientId
    ensures LeadsTo(Initial(wm, excludeApps, saving),
                    [Join(w), Join(p), Logout(true, save), AskInteract(0), EndInteract(0, true)], idle)
    ensures idle.s.WellFormed() && idle.s.clients == [0, 1] && idle.s.flags == map[0 := FRESH, 1 := FRESH]
    ensures idle.s.wmWaiting == 1 && idle.s.fixed.wm == wm && idle.s.fixed.props == map[0 := w, 1 := p]
    ensures idle.s.interacting.None? && StartsRound(idle.s, CloseSubSession(name, {p.clientId}, {}))
    ensures var close := CloseSubSession(name, {p.clientId}, {});
      && Allowed(idle, close) && Step(idle, close) == Begun(idle, close, t) && t.WellFormed() && !Step(idle, close).counted
      && BeginsSome(idle.s, t, [1], idle.s.Named(idle.s.clients, {p.clientId}))
  {
    hide Inv, LeadsTo, Step, Allowed, BeginsAll, BeginsSome, Server.Named, LoggedOut, Properties.Program, Server.CountWMs;
    var first, es := Initial(wm, excludeApps, saving), [Join(w), Join(p), Logout(true, save)];
    var begun, two := InLogout(wm, excludeApps, saving, w, p, save);
    WmSelected(two.s, w, p);
    assert two.s.CountWMs([0, 1]) == |two.s.Select(WindowManagers, [0, 1])|;
    LoggedOutMeans(begun);
    FirstAsks(begun);
    OneMore(first, es, begun, AskInteract(0));
    var asked := Step(begun, AskInteract(0));
    ReachedInv(first, es + [AskInteract(0)], asked);
    LoggedOutMeans(asked);
    CancelThenClose(asked, 0, name, {p.clientId}, {});
    CancelledIs(asked, 0);
    OneMore(first, es + [AskInteract(0)], asked, EndInteract(0, true));
    idle := Step(asked, EndInteract(0, true));
    assert es + [AskInteract(0)] + [EndInteract(0, true)]
        == [Join(w), Join(p), Logout(true, save), AskInteract(0), EndInteract(0, true)];
    ReachedInv(first, es + [AskInteract(0)] + [EndInteract(0, true)], idle);
    OneNamed(idle.s, w, p);
    t := ClosingWaits(idle, CloseSubSession(name, {p.clientId}, {}), 1);
  }

  /** If it reports done only in the sub-session that follows, the client to be closed is told to save twice. */
  lemma ToldTwice(wm: string, excludeApps: set<string>, saving: Saving, w: Properties, p: Properties,
                  save: bool, name: string)
    returns (r: Run)
    requires w.Program() == wm != p.Program() && w.clientId != p.clientId
    ensures LeadsTo(Initial(wm, excludeApps, saving),
                    [Join(w), Join(p), Logout(true, save), AskInteract(0), EndInteract(0, true),
                     CloseSubSession(name, {p.clientId}, {}), Done(0)], r)
    ensures r.s.phase == ClosingSubSession && !r.counted && r.told[1] == 2
  {
    hide Inv, LeadsTo, Step, Allowed, BeginsSome, Server.Named, Properties.Program, SaveTargets, Server.SaveMessages;
    var first, es := Initial(wm, excludeApps, saving), [Join(w), Join(p), Logout(true, save), AskInteract(0), EndInteract(0, true)];
    var close := CloseSubSession(name, {p.clientId}, {});
    var idle, t := ClosedAfterCancel(wm, excludeApps, saving, w, p, save, name);
    OneMore(first, es, idle, close);
    var closing := Step(idle, close);
    StillPending(idle.s, t, [1], idle.s.Named(idle.s.clients, {p.clientId}));
    LateReportTells(closing, w, p);
    OneMore(first, es + [close], closing, Done(0));
    r := Step(closing, Done(0));
    assert es + [close] + [Done(0)]
        == [Join(w), Join(p), Logout(true, save), AskInteract(0), EndInteract(0, true), close, Done(0)];
  }

  lemma LateReportTells(r: Run, w: Properties, p: Properties)
    requires r.s.WellFormed() && r.s.phase == ClosingSubSession && r.s.clients == [0, 1] && r.s.wmWaiting == 1
    requires r.s.fixed.props == map[0 := w, 1 := p] && w.Program() == r.s.fixed.wm != p.Program()
    requires 0 in r.s.flags && 1 in r.s.flags && r.s.flags[0] == FRESH && !r.s.Reported(1) && r.s.sub.toSave == [1]
    requires r.done == {} && r.s.sent == r.s.SaveMessages([1]) && r.told == SaveTargets(r.s.sent)
    ensures Allowed(r, Done(0)) && Step(r, Done(0)).told[1] == 2 && Step(r, Done(0)).s.phase == ClosingSubSession
    ensures Step(r, Done(0)).counted == r.counted
  {
    hide Properties.Program, Server.CompleteShutdownOrCheckpoint, Server.WmReported, Step, SaveTargets, Server.SaveMessages;
    WmSelected(r.s, w, p);
    LateMarked(r);
    var q := DoneMarked(r, 0);
    Completing(q.s);
    assert 1 in q.s.Pending();
    DoneIs(r, 0);
    LastAwaited(q.s.(protection := true), w, p);
    OneTarget(q.s.(protection := true), 1);
    OneTarget(r.s, 1);
    DoneNotes(r, 0);
  }

  lemma DoneNotes(r: Run, c: ClientId)
    requires r.s.WellFormed() && c in r.s.flags && r.s.phase != Idle
    ensures Step(r, Done(c)).counted == r.counted && Step(r, Done(c)).told == r.told + SaveTargets(Step(r, Done(c)).s.sent)
    ensures c !in r.done ==> Allowed(r, Done(c))
  {
    hide Handle;
  }

  lemma LateMarked(r: Run)
    requires r.s.WellFormed() && 0 in r.s.flags && r.s.phase == ClosingSubSession && !r.s.Reported(1) && r.s.sub.toSave == [1]
    ensures var q := DoneMarked(r, 0);
      && q.s.WellFormed() && q.s.sent == [] && !q.s.Reported(1) && q.s.Pending() == [1] && q.s.clients == r.s.clients
      && q.s.fixed == r.s.fixed && q.s.wmWaiting == r.s.wmWaiting && q.s.phase == r.s.phase
  {
  }

  lemma LastAwaited(t: Server, w: Properties, p: Properties)
    requires t.fixed.props == map[0 := w, 1 := p] && w.Program() == t.fixed.wm != p.Program()
    requires t.clients == [0, 1] && t.wmWaiting == 1 && t.sent == []
    ensures t.WmReported(0, true).sent == t.SaveMessages([1]) && t.WmReported(0, true).phase == t.phase
  {
    hide Properties.Program, Server.SaveMessages;
    WmSelected(t, w, p);
    assert [] + t.SaveMessages([1]) == t.SaveMessages([1]);
  }

  lemma OneTarget(s: Server, c: ClientId)
    ensures SaveTargets(s.SaveMessages([c])) == multiset{c}
  {
    assert s.SaveMessages([c])[..0] == [] && SaveTargets([]) == multiset{};
  }
}
