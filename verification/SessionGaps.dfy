/**
 Where the session manager keeps less than one would expect: when exactly that happens, and a run in which it does.
 */
module SessionGaps {
  import opened SessionStore
  import opened SessionModel
  import opened SessionRounds
  import opened SessionSafety
  import opened SessionEnds
  import opened SessionRuns

  // ---- where the code keeps less ----

  /** A checkpoint does not start the protection timer: it is guarded against silent clients just if the timer
      happened to be running, or nobody is connected. */
  lemma CheckpointGuarded(s: Server)
    requires s.WellFormed() && s.phase == Idle && s.interacting.None?
    ensures (s.SaveCurrentSession().InRound() ==> s.SaveCurrentSession().protection) <==> s.protection || s.clients == []
  {
    hide Server.CompleteShutdownOrCheckpoint, Server.CompleteIfNoClients, Server.SaveCurrentSession, Server.AskFirst;
    var t := AskedToSave(s);
    CheckpointBegins(s);
    if s.clients == [] { NobodyToWaitFor(t); }
  }

  lemma AskedToSave(s: Server) returns (t: Server)
    requires s.WellFormed() && s.phase == Idle
    ensures t.WellFormed() && t.phase == Checkpoint && t.clients == s.clients
    ensures s.clients == [] ==> s.SaveCurrentSession() == t.CompleteShutdownOrCheckpoint()
  {
    hide Server.CompleteShutdownOrCheckpoint;
    t := s.(phase := Checkpoint,
            saving := Saving(SaveLocal, true, if s.CurrentSession() == "" || s.saving.sessionGroup == PREVIOUS_LOGOUT
                                              then BY_USER else s.saving.sessionGroup, s.saving.config),
            flags := ResetFlags(s.flags, s.clients), wmWaiting := s.CountWMs(s.clients)).AskFirst();
  }

  lemma CheckpointBegins(s: Server)
    requires s.WellFormed() && s.phase == Idle
    ensures s.clients != [] ==> s.SaveCurrentSession().phase == Checkpoint && s.SaveCurrentSession().protection == s.protection
  {
    hide Server.CompleteShutdownOrCheckpoint;
  }

  lemma NobodyToWaitFor(t: Server)
    requires t.WellFormed() && t.clients == [] && t.phase == Checkpoint
    ensures !t.CompleteShutdownOrCheckpoint().InRound()
  {
    hide Server.CompleteShutdownOrCheckpoint;
    Completing(t);
    assert t.Pending() == [];
    StoredOrDiscarded(t);
  }

  // ---- a window manager that leaves without having reported ----

  /** More window managers are awaited than can still report; or no round is on, and the count is left over. */
  ghost predicate Stuck(r: Run) {
    || (LoggingOut(r.s.phase) && |Unreported(r)| < r.s.wmWaiting)
    || (r.s.phase == Idle && r.s.wmWaiting > 0)
  }

  predicate Onwards(from: Phase, to: Phase) {
    to == from || if LoggingOut(from) then LoggingOut(to) || to == Idle else from != Idle
  }

  /** What events other than reports, joins and the beginning of rounds do not touch. */
  ghost predicate SameCount(s: Server, t: Server) {
    && t.wmWaiting == s.wmWaiting && t.fixed == s.fixed && (forall c :: c in t.clients ==> c in s.clients)
    && Onwards(s.phase, t.phase)
  }

  lemma CompletedSameCount(s: Server, t: Server)
    requires Completes(s, t)
    ensures SameCount(s, t)
  {
  }

  lemma SameCountTransitive(s: Server, t: Server, u: Server)
    requires SameCount(s, t) && SameCount(t, u)
    ensures SameCount(s, u)
  {
  }

  lemma LeavingSameCount(s: Server, c: ClientId)
    requires s.WellFormed() && c in s.flags
    ensures SameCount(s, s.DeleteClient(c))
  {
    hide Server.CompleteShutdownOrCheckpoint, Server.ContinueKilling, Completes, ContinueNews, SameCount, Server.Drop;
    DroppedWellFormed(s, c);
    var d := s.Drop(c);
    var u := d.CompleteShutdownOrCheckpoint();
    DroppedSameCount(s, c);
    CompletingCompletes(d);
    CompletedSameCount(d, u);
    ContinuedSameCount(u);
    SameCountTransitive(d, u, u.ContinueKilling());
    SameCountTransitive(s, d, u.ContinueKilling());
  }

  lemma DroppedSameCount(s: Server, c: ClientId)
    requires s.WellFormed() && c in s.flags
    ensures SameCount(s, s.Drop(c))
  {
    hide Server.FirstPending, Removed;
  }

  lemma ContinuedSameCount(u: Server)
    ensures SameCount(u, u.ContinueKilling())
  {
    hide Server.ContinueKilling, ContinueNews;
    ContinuesKilling(u);
  }

  lemma TurnsSameCount(s: Server, n: ClientId, e: Event)
    requires s.WellFormed() && Knows(s, e) && (e.AskInteract? || e.EndInteract?)
    requires e.EndInteract? && e.cancel && s.interacting == Some(e.c) ==> TakesTurns(s.phase)
    ensures SameCount(s, Handle(s, n, e))
  {
    hide Server.FirstPending, Server.CancelMessages;
  }

  lemma TimeoutSameCount(s: Server)
    requires s.WellFormed()
    ensures SameCount(s, s.ProtectionTimeout())
  {
    hide Server.CompleteShutdownOrCheckpoint, GiveUp, Completes;
    if s.InRound() && s.interacting.None? {
      TimeoutIs(s);
      CompletingCompletes(GaveUpOn(s));
      CompletedSameCount(GaveUpOn(s), GaveUpOn(s).CompleteShutdownOrCheckpoint());
    }
  }

  /** An event that neither is a report in a round nor begins anything. */
  predicate Plain(r: Run, e: Event) {
    !StartsRound(r.s, e) && !e.AskPhase2? && !e.Join? && !e.StartupBegins? && (e.Done? ==> r.s.phase == Idle)
  }

  lemma OthersSameCount(s: Server, n: ClientId, e: Event)
    requires s.WellFormed() && s.sent == [] && Knows(s, e) && !StartsRound(s, e) && (e.Done? ==> s.phase == Idle)
    requires !e.AskPhase2? && !e.Leave? && !e.ProtectionTimer? && !e.AskInteract? && !e.EndInteract?
    requires !e.Join? && !e.StartupBegins?
    ensures SameCount(s, Handle(s, n, e))
  {
    hide Server.KillWM, Server.LogoutSoundFinished, KillNews, SoundNews, Server.DiscardOf;
    KillingWm(s);
    SoundIsFinished(s);
  }

  lemma PlainSameCount(r: Run, e: Event)
    requires r.s.WellFormed() && Knows(r.s, e) && Allowed(r, e) && Plain(r, e)
    ensures SameCount(r.s, Step(r, e).s)
  {
    hide Handle, Step, SameCount, Allowed;
    StepIsHandle(r, e);
    if e.EndInteract? { CancelsInTurn(r, e); }
    HandlingSameCount(r.s.(sent := []), r.nextId, e);
    SentSameCount(r.s, Step(r, e).s);
  }

  lemma HandlingSameCount(s: Server, n: ClientId, e: Event)
    requires s.WellFormed() && s.sent == [] && Knows(s, e) && !StartsRound(s, e) && (e.Done? ==> s.phase == Idle)
    requires !e.AskPhase2? && !e.Join? && !e.StartupBegins?
    requires e.EndInteract? && e.cancel && s.interacting == Some(e.c) ==> TakesTurns(s.phase)
    ensures SameCount(s, Handle(s, n, e))
  {
    hide Handle, SameCount, Server.WellFormed;
    match e
    case Leave(c) => LeavingSameCount(s, c); LeaveHandled(s, n, c);
    case ProtectionTimer => TimeoutSameCount(s); TimerHandled(s, n);
    case AskInteract(_) => TurnsSameCount(s, n, e);
    case EndInteract(_, _) => TurnsSameCount(s, n, e);
    case _ => OthersSameCount(s, n, e);
  }

  lemma CancelsInTurn(r: Run, e: Event)
    requires r.s.WellFormed() && Allowed(r, e) && e.EndInteract?
    ensures e.cancel && r.s.interacting == Some(e.c) ==> TakesTurns(r.s.phase)
  {
  }

  lemma SentSameCount(s: Server, t: Server)
    requires SameCount(s.(sent := []), t)
    ensures SameCount(s, t)
  {
  }

  lemma {:induction false} SubsetSize(a: set<ClientId>, b: set<ClientId>)
    requires a <= b
    ensures |a| <= |b|
    decreases a
  {
    if x :| x in a { SubsetSize(a - {x}, b - {x}); }
  }

  /** No more window managers can still report than before. */
  lemma FewerUnreported(r: Run, q: Run)
    requires SameCount(r.s, q.s) && r.done <= q.done && r.asked <= q.asked
    ensures |Unreported(q)| <= |Unreported(r)|
  {
    assert forall c :: q.s.IsWM(c) == r.s.IsWM(c);
    SubsetSize(Unreported(q), Unreported(r));
  }

  lemma PlainStuck(r: Run, e: Event)
    requires Inv(r) && Allowed(r, e) && Stuck(r) && Plain(r, e)
    ensures Stuck(Step(r, e)) && Step(r, e).told == r.told
  {
    hide Inv, Step, Handle, Unreported, Allowed, SameCount;
    AsksNobody(r, e);
    PlainSameCount(r, e);
    PlainNotes(r, e);
    FewerUnreported(r, Step(r, e));
    SameCountMeans(r.s, Step(r, e).s);
  }

  lemma SameCountMeans(s: Server, t: Server)
    requires SameCount(s, t)
    ensures t.wmWaiting == s.wmWaiting && Onwards(s.phase, t.phase)
  {
  }

  lemma PlainNotes(r: Run, e: Event)
    requires r.s.WellFormed() && Knows(r.s, e) && !StartsRound(r.s, e) && SaveTargets(Step(r, e).s.sent) == multiset{}
    ensures Step(r, e).told == r.told && r.done <= Step(r, e).done && r.asked <= Step(r, e).asked
  {
    hide Handle;
    assert r.told + multiset{} == r.told;
  }

  lemma JoinStuck(r: Run, p: Properties)
    requires Inv(r) && Allowed(r, Join(p)) && Stuck(r)
    ensures Stuck(Step(r, Join(p))) && Step(r, Join(p)).told == r.told
  {
    hide Inv, Step, Unreported, Allowed;
    AsksNobody(r, Join(p));
    PlainNotes(r, Join(p));
    JoinedLate(r, p);
  }

  /** No window manager joins a logout. */
  lemma JoinedLate(r: Run, p: Properties)
    requires Inv(r) && Allowed(r, Join(p))
    ensures var q := Step(r, Join(p));
      q.s.phase == r.s.phase && q.s.wmWaiting == r.s.wmWaiting && (LoggingOut(r.s.phase) ==> Unreported(q) == Unreported(r))
  {
    var q := Step(r, Join(p));
    assert r.nextId !in r.s.clients && r.nextId !in r.s.fixed.props;
    assert forall c :: c != r.nextId ==> (q.s.IsWM(c) <==> r.s.IsWM(c));
  }

  /** A report leaves the gap between those awaited and those missing as it is, so that the count never gets to zero. */
  lemma ReportStuck(q: Run, t: Server, c: ClientId, first: bool)
    requires q.s.sent == [] && |Unreported(q)| + (if q.s.IsWM(c) && first then 1 else 0) < q.s.wmWaiting
    requires LoggingOut(q.s.phase)
    requires Completes(q.s, t) || (t.protection && Completes(q.s, t.(protection := q.s.protection)))
    ensures Stuck(Observed(q, t.WmReported(c, first))) && Observed(q, t.WmReported(c, first)).told == q.told
  {
    hide Completes, Unreported;
    CompletedPlain(q.s, t);
    ReportNews(t, c, first);
    ReportSame(t, c, first);
    NoSaveTargets(t.TellOthers(c, first));
    assert q.told + multiset{} == q.told;
    SameUnreported(q, Observed(q, t.WmReported(c, first)));
  }

  lemma SameUnreported(q: Run, v: Run)
    requires v.s.fixed == q.s.fixed && v.done == q.done && v.asked == q.asked && forall c :: c in v.s.clients <==> c in q.s.clients
    ensures Unreported(v) == Unreported(q)
  {
    assert forall c :: v.s.IsWM(c) == q.s.IsWM(c);
  }

  lemma CompletedPlain(s: Server, t: Server)
    requires s.sent == [] && (Completes(s, t) || (t.protection && Completes(s, t.(protection := s.protection))))
    ensures t.wmWaiting == s.wmWaiting && t.fixed == s.fixed && (forall c :: c in t.clients <==> c in s.clients)
    ensures Onwards(s.phase, t.phase) && SaveTargets(t.sent) == multiset{} && InteractTargets(t.sent) == {}
  {
    hide SaveTargets;
    var u := if Completes(s, t) then t else t.(protection := s.protection);
    CompletedNews(s, u);
  }

  /** Whether a report counts: it does just if the window manager was missing. */
  lemma DoneCounts(r: Run, c: ClientId)
    requires Inv(r) && Allowed(r, Done(c)) && LoggingOut(r.s.phase)
    ensures r.s.IsWM(c) && !r.s.flags[c].wasPhase2 <==> c in Unreported(r)
  {
  }

  lemma AskCounts(r: Run, c: ClientId)
    requires Inv(r) && Allowed(r, AskPhase2(c)) && LoggingOut(r.s.phase)
    ensures r.s.IsWM(c) <==> c in Unreported(r)
  {
  }

  lemma DoneStuck(r: Run, c: ClientId)
    requires Inv(r) && Allowed(r, Done(c)) && LoggingOut(r.s.phase) && Stuck(r)
    ensures Stuck(Step(r, Done(c))) && Step(r, Done(c)).told == r.told
  {
    hide Inv, Step, Allowed, Unreported, Completes, Server.CompleteShutdownOrCheckpoint, Server.WmReported;
    InvBooks(r);
    AllowedKnows(r, Done(c));
    DoneCounts(r, c);
    var q := DoneMarked(r, c);
    MarkedUnreported(r, c, r.s.flags[c].(saveYourselfDone := true), {c}, {});
    CompletingCompletes(q.s);
    var t := q.s.CompleteShutdownOrCheckpoint().(protection := true);
    WithProtection(q.s, q.s.CompleteShutdownOrCheckpoint());
    DoneIs(r, c);
    ReportStuck(q, t, c, !r.s.flags[c].wasPhase2);
  }

  lemma AskStuck(r: Run, c: ClientId)
    requires Inv(r) && Allowed(r, AskPhase2(c)) && LoggingOut(r.s.phase) && Stuck(r)
    ensures Stuck(Step(r, AskPhase2(c))) && Step(r, AskPhase2(c)).told == r.told
  {
    hide Inv, Step, Allowed, Unreported, Completes, Server.CompleteShutdownOrCheckpoint, Server.WmReported;
    InvBooks(r);
    AllowedKnows(r, AskPhase2(c));
    AskCounts(r, c);
    var q := AskedMarked(r, c);
    MarkedUnreported(r, c, r.s.flags[c].(waitForPhase2 := true, wasPhase2 := true), {}, {c});
    CompletingCompletes(q.s);
    AskedIs(r, c);
    ReportStuck(q, q.s.CompleteShutdownOrCheckpoint(), c, true);
  }

  lemma MarkedUnreported(r: Run, c: ClientId, f: Flags, done: set<ClientId>, asked: set<ClientId>)
    requires r.s.WellFormed() && c in r.s.flags && done <= {c} && asked <= {c} && done + asked == {c}
    ensures var q := Mark(r.(s := r.s.(sent := [])), c, f, done, asked);
      && q.s.WellFormed() && Unreported(q) == Unreported(r) - {c}
      && |Unreported(q)| == |Unreported(r)| - (if c in Unreported(r) then 1 else 0)
  {
    var r0 := r.(s := r.s.(sent := []));
    SameUnreported(r, r0);
    UnreportedMark(r0, c, f, done, asked);
    hide Unreported;
    assert Unreported(Mark(r0, c, f, done, asked)) == Unreported(r) - {c};
  }

  /** Once a window manager has left without reporting, nobody is told to save any more, whatever happens, until the
      next round begins. */
  lemma StuckStays(r: Run, e: Event)
    requires Inv(r) && Allowed(r, e) && Stuck(r) && !StartsRound(r.s, e) && r.s.WellFormed() && Knows(r.s, e)
    ensures Stuck(Step(r, e)) && Step(r, e).told == r.told
  {
    hide Inv, Step, Allowed, Unreported;
    if e.Join? {
      JoinStuck(r, e.props);
    } else if e.AskPhase2? {
      AsksInRound(r, e);
      AskStuck(r, e.c);
    } else if e.Done? && r.s.phase != Idle {
      DoneStuck(r, e.c);
    } else {
      AsksInRound(r, e);
      PlainStuck(r, e);
    }
  }

  lemma AsksInRound(r: Run, e: Event)
    requires r.s.WellFormed() && Allowed(r, e) && Stuck(r)
    ensures !e.StartupBegins? && (e.AskPhase2? ==> LoggingOut(r.s.phase))
  {
  }

  /** No new round begins along the way. */
  ghost predicate SameRound(r: Run, es: seq<Event>)
    requires AllowedAll(r, es)
    decreases |es|
  {
    es == [] || (!StartsRound(r.s, es[0]) && SameRound(Step(r, es[0]), es[1..]))
  }

  lemma {:induction false} NobodyElseIsTold(r: Run, es: seq<Event>)
    requires Inv(r) && Stuck(r) && AllowedAll(r, es) && SameRound(r, es)
    ensures Execute(r, es).told == r.told
    decreases |es|
  {
    hide Inv, Step, Allowed, Stuck;
    if es != [] {
      AllowedKnows(r, es[0]);
      StuckStays(r, es[0]);
      StepKeepsInv(r, es[0]);
      NobodyElseIsTold(Step(r, es[0]), es[1..]);
    }
  }

  // ---- and otherwise the reports of the window managers have everybody told ----

  /** A missing window manager's report, with p still missing: the round goes on, or everybody else is told. */
  lemma OneReports(r: Run, w: ClientId)
    requires Inv(r) && (r.s.phase == Shutdown || r.s.phase == Checkpoint) && w in Unreported(r)
    requires |Unreported(r)| == r.s.wmWaiting
    ensures r.s.WellFormed() && Knows(r.s, Done(w)) && Allowed(r, Done(w)) && !StartsRound(r.s, Done(w))
    ensures var q := Step(r, Done(w));
      if r.s.wmWaiting == 1 then forall d :: d in r.s.clients && !r.s.IsWM(d) ==> d in q.told
      else forall p :: p != w && p in r.s.clients && !r.s.Reported(p) ==>
        && q.s.phase == r.s.phase && q.s.clients == r.s.clients && q.s.fixed == r.s.fixed && !q.s.Reported(p)
        && Unreported(q) == Unreported(r) - {w} && q.s.wmWaiting == r.s.wmWaiting - 1
  {
    hide Inv, Step, Unreported, Server.Reported, Allowed;
    InvBooks(r);
    MissingMayReport(r, w);
    AllowedKnows(r, Done(w));
    if r.s.wmWaiting == 1 {
      LastOneReports(r, w);
    } else {
      forall p | p != w && p in r.s.clients && !r.s.Reported(p)
        ensures var v := Step(r, Done(w));
          && v.s.phase == r.s.phase && v.s.clients == r.s.clients && v.s.fixed == r.s.fixed && !v.s.Reported(p)
          && Unreported(v) == Unreported(r) - {w} && v.s.wmWaiting == r.s.wmWaiting - 1
      {
        OneOfMoreReports(r, w, p);
      }
    }
  }

  lemma LastOneReports(r: Run, w: ClientId)
    requires r.s.WellFormed() && w in r.s.flags && r.s.phase != Idle && r.s.wmWaiting == 1
    requires r.s.IsWM(w) && !r.s.flags[w].wasPhase2
    ensures forall d :: d in r.s.clients && !r.s.IsWM(d) ==> d in Step(r, Done(w)).told
  {
    hide Step, Completes, Server.CompleteShutdownOrCheckpoint, Server.WmReported;
    var q := DoneMarked(r, w);
    FlagWellFormed(r.s, w);
    DoneIs(r, w);
    CompletingCompletes(q.s);
    CompletedCount(q.s, q.s.CompleteShutdownOrCheckpoint());
    LastReportTells(q, q.s.CompleteShutdownOrCheckpoint().(protection := true), w);
  }

  lemma FlagWellFormed(s: Server, c: ClientId)
    requires s.WellFormed() && c in s.flags
    ensures s.(sent := [], flags := s.flags[c := s.flags[c].(saveYourselfDone := true)]).WellFormed()
  {
  }

  lemma OneOfMoreReports(r: Run, w: ClientId, p: ClientId)
    requires r.s.WellFormed() && w in r.s.flags && (r.s.phase == Shutdown || r.s.phase == Checkpoint) && r.s.wmWaiting > 1
    requires r.s.IsWM(w) && !r.s.flags[w].wasPhase2 && p != w && p in r.s.clients && !r.s.Reported(p)
    ensures var v := Step(r, Done(w));
      && v.s.phase == r.s.phase && v.s.clients == r.s.clients && v.s.fixed == r.s.fixed && !v.s.Reported(p)
      && Unreported(v) == Unreported(r) - {w} && v.s.wmWaiting == r.s.wmWaiting - 1
  {
    hide Step, Unreported, Completes, Server.CompleteShutdownOrCheckpoint, Server.WmReported;
    var q := DoneMarked(r, w);
    MarkedUnreported(r, w, r.s.flags[w].(saveYourselfDone := true), {w}, {});
    DoneIs(r, w);
    StillWaiting(q.s, p);
    CountsDown(q, q.s.(protection := true), w);
  }

  lemma MissingMayReport(r: Run, w: ClientId)
    requires Inv(r) && (r.s.phase == Shutdown || r.s.phase == Checkpoint) && w in Unreported(r)
    ensures Allowed(r, Done(w)) && r.s.IsWM(w) && w in r.s.flags && !r.s.flags[w].wasPhase2
  {
  }

  lemma CompletedCount(s: Server, t: Server)
    requires Completes(s, t)
    ensures t.wmWaiting == s.wmWaiting && t.fixed == s.fixed && forall c :: c in t.clients <==> c in s.clients
  {
  }

  lemma CountsDown(q: Run, t: Server, w: ClientId)
    requires t.IsWM(w) && t.wmWaiting > 1 && t == q.s.(protection := true)
    ensures var v := Observed(q, t.WmReported(w, true));
      && v.s.phase == q.s.phase && v.s.clients == q.s.clients && v.s.fixed == q.s.fixed && v.s.flags == q.s.flags
      && Unreported(v) == Unreported(q) && v.s.wmWaiting == q.s.wmWaiting - 1
  {
    SameUnreported(q, Observed(q, t.WmReported(w, true)));
  }

  lemma LastReportTells(q: Run, t: Server, w: ClientId)
    requires t.IsWM(w) && t.wmWaiting == 1
    ensures forall d :: d in t.clients && !t.IsWM(d) ==> d in Observed(q, t.WmReported(w, true)).told
  {
    var others := t.Select(Others, t.clients);
    var x := t.SaveMessages(others);
    SaveTargetsConcat(t.sent, x);
    assert t.WmReported(w, true).sent == t.sent + x;
    forall d | d in t.clients && !t.IsWM(d) ensures d in SaveTargets(x) {
      AddressedOthers(t, d);
      var i :| 0 <= i < |others| && others[i] == d;
      TargetOf(x, i);
    }
  }

  lemma {:induction false} TargetOf(ms: seq<Message>, i: nat)
    requires i < |ms| && ms[i].SaveYourself?
    ensures ms[i].to in SaveTargets(ms)
  {
    if i < |ms| - 1 { TargetOf(ms[..|ms| - 1], i); }
  }

  /** The missing window managers report one after the other, one that holds the round up last. */
  lemma {:induction false} ReportsTellOthers(r: Run, p: ClientId) returns (es: seq<Event>)
    requires Inv(r) && (r.s.phase == Shutdown || r.s.phase == Checkpoint) && p in r.s.clients && !r.s.Reported(p)
    requires |Unreported(r)| == r.s.wmWaiting > 0
    ensures AllowedAll(r, es) && SameRound(r, es)
    ensures forall e :: e in es ==> e.Done? && e.c in Unreported(r)
    ensures forall d :: d in r.s.clients && !r.s.IsWM(d) ==> d in Execute(r, es).told
    decreases r.s.wmWaiting
  {
    hide Inv, Step, Unreported, Allowed, Server.Reported, StartsRound;
    var w := SomeoneMissing(Unreported(r), p);
    OneReports(r, w);
    StepKeepsInv(r, Done(w));
    var q := Step(r, Done(w));
    if r.s.wmWaiting == 1 {
      es := [Done(w)];
      assert es[1..] == [];
    } else {
      var rest := ReportsTellOthers(q, p);
      es := [Done(w)] + rest;
      assert es[1..] == rest;
      assert forall d :: q.s.IsWM(d) == r.s.IsWM(d);
    }
  }

  lemma SomeoneMissing(missing: set<ClientId>, p: ClientId) returns (w: ClientId)
    requires missing != {}
    ensures w in missing && (|missing| > 1 ==> w != p)
  {
    if |missing| > 1 {
      assert missing != {p};
      assert missing - {p} != {};
      w :| w in missing - {p};
    } else {
      w :| w in missing;
    }
  }

  /** While window managers are awaited, the other clients can still be told to save in this round if and only if
      exactly as many have to report as are awaited, that is if none of them left before it reported. */
  lemma OthersCanStillBeTold(r: Run, d: ClientId)
    requires Inv(r) && Awaits(r.s) && (r.s.phase == Shutdown || r.s.phase == Checkpoint)
    requires r.s.wmWaiting > 0 && d in r.s.clients && !r.s.IsWM(d)
    ensures (exists es :: AllowedAll(r, es) && SameRound(r, es) && d in Execute(r, es).told)
            <==> |Unreported(r)| == r.s.wmWaiting
  {
    hide Inv, Unreported, Execute, AllowedAll, SameRound;
    OnlyWmsSoFar(r, d);
    if |Unreported(r)| == r.s.wmWaiting {
      var p :| p in r.s.Pending() && !r.s.Reported(p);
      var es := ReportsTellOthers(r, p);
    } else {
      forall es | AllowedAll(r, es) && SameRound(r, es) ensures d !in Execute(r, es).told { NobodyElseIsTold(r, es); }
    }
  }

  lemma OnlyWmsSoFar(r: Run, d: ClientId)
    requires Inv(r) && (r.s.phase == Shutdown || r.s.phase == Checkpoint) && r.s.wmWaiting > 0 && !r.s.IsWM(d)
    ensures d !in r.told && |Unreported(r)| <= r.s.wmWaiting
  {
  }

  /** So the others cannot be told any more when a window manager leaves a round that waits for its report. */
  lemma LeavingSticks(r: Run, w: ClientId, d: ClientId)
    requires Inv(r) && (r.s.phase == Shutdown || r.s.phase == Checkpoint) && r.s.interacting.None?
    requires w in Unreported(r) && d in r.s.clients && d != w && !r.s.Reported(d)
    ensures r.s.WellFormed() && Knows(r.s, Leave(w)) && Allowed(r, Leave(w)) && !StartsRound(r.s, Leave(w))
    ensures var q := Step(r, Leave(w));
      && Stuck(q) && q.told == r.told && q.s.phase == r.s.phase && q.s.clients == Removed(r.s.clients, w)
      && q.s.interacting.None? && q.s.protection == r.s.protection && q.s.flags == r.s.flags - {w}
      && q.s.wmWaiting == r.s.wmWaiting && q.s.fixed == r.s.fixed
  {
    hide Inv, Step, Handle, SameCount, Server.DeleteClient, Unreported, Removed;
    InvBooks(r);
    MissingLeaves(r, w);
    StepIsHandle(r, Leave(w));
    LeaveHandled(r.s.(sent := []), r.nextId, w);
    LeavingWaits(r.s.(sent := []), w, d);
    AsksNobody(r, Leave(w));
    PlainNotes(r, Leave(w));
    LeftUnreported(r, w);
  }

  lemma MissingLeaves(r: Run, w: ClientId)
    requires Inv(r) && (r.s.phase == Shutdown || r.s.phase == Checkpoint) && w in Unreported(r)
    ensures Knows(r.s, Leave(w)) && Allowed(r, Leave(w)) && !StartsRound(r.s, Leave(w)) && |Unreported(r)| <= r.s.wmWaiting
  {
  }

  lemma LeftUnreported(r: Run, w: ClientId)
    requires r.s.WellFormed() && w in r.s.flags && w in Unreported(r) && Step(r, Leave(w)).s.fixed == r.s.fixed
    requires Step(r, Leave(w)).s.clients == Removed(r.s.clients, w)
    ensures |Unreported(Step(r, Leave(w)))| < |Unreported(r)|
  {
    hide Handle, Removed;
    var q := Step(r, Leave(w));
    assert forall c :: q.s.IsWM(c) == r.s.IsWM(c);
    assert Unreported(q) == Unreported(r) - {w};
  }

  lemma LeavingWaits(s: Server, c: ClientId, d: ClientId)
    requires s.WellFormed() && (s.phase == Shutdown || s.phase == Checkpoint) && s.interacting.None?
    requires c in s.clients && d in s.clients && d != c && !s.Reported(d)
    ensures s.DeleteClient(c) == s.(clients := Removed(s.clients, c), flags := s.flags - {c},
                                    sub := SubSession(Removed(s.sub.toSave, c), Removed(s.sub.toKill, c)))
  {
    hide Server.CompleteShutdownOrCheckpoint, Server.Drop, Server.ContinueKilling, Server.Reported, Removed;
    DroppedWellFormed(s, c);
    OneFewer(s, c);
    StillWaiting(s.Drop(c), d);
    NotKilling(s.Drop(c));
  }

  lemma OneFewer(s: Server, c: ClientId)
    requires s.interacting.None?
    ensures s.Drop(c) == s.(clients := Removed(s.clients, c), flags := s.flags - {c},
                            sub := SubSession(Removed(s.sub.toSave, c), Removed(s.sub.toKill, c)))
    ensures forall d :: d in s.clients && d != c ==>
      d in Removed(s.clients, c) && (s.Drop(c).Reported(d) <==> s.Reported(d))
  {
  }

  lemma StillWaiting(u: Server, d: ClientId)
    requires u.WellFormed() && (u.phase == Shutdown || u.phase == Checkpoint) && d in u.clients && !u.Reported(d)
    ensures u.CompleteShutdownOrCheckpoint() == u
  {
    hide Server.CompleteShutdownOrCheckpoint;
    Completing(u);
    assert d in u.Pending();
  }

  lemma NotKilling(u: Server)
    ensures u.InRound() ==> u.ContinueKilling() == u
  {
  }

  /** Two timeouts then end the round without them. */
  lemma EndsWithoutThem(r: Run, d: ClientId) returns (es: seq<Event>)
    requires Inv(r) && Stuck(r) && r.s.InRound() && r.s.interacting.None? && r.s.protection && d !in r.told
    ensures |es| <= 2 && (forall e :: e in es ==> e == ProtectionTimer)
    ensures AllowedAll(r, es) && !Execute(r, es).s.InRound() && d !in Execute(r, es).told
  {
    hide Inv, Step, Allowed, Stuck;
    var q := TwoTimeoutsEndRound(r);
    InvBooks(r);
    StuckStays(r, ProtectionTimer);
    if q.s.InRound() {
      StepKeepsInv(r, ProtectionTimer);
      StuckStays(q, ProtectionTimer);
      es := [ProtectionTimer, ProtectionTimer];
      assert es[1..] == [ProtectionTimer] && es[1..][1..] == [];
    } else {
      es := [ProtectionTimer];
      assert es[1..] == [];
    }
  }

  // ---- a sub-session after a cancelled logout ----

  /** A sub-session begins with nobody waiting for the free turn just if no request was left over from an earlier
      round outside the clients it names: only theirs are cleared. */
  lemma LeftoverRequests(s: Server, name: string, close: set<string>, only: set<string>)
    requires s.WellFormed() && s.phase == Idle && s.interacting.None?
    ensures var t := s.SaveSubSession(name, close, only);
      (forall c :: c in t.flags ==> !t.flags[c].pendingInteraction) <==>
        forall c :: c in s.flags && s.flags[c].pendingInteraction ==> c in s.Named(s.clients, close + only)
  {
    hide Server.CompleteShutdownOrCheckpoint, Server.SaveSubSession;
    var t := ClosingStarts(s, name, close, only);
    CompletingKeepsRequests(t);
  }

  lemma CompletingKeepsRequests(t: Server)
    requires t.WellFormed()
    ensures var v := t.CompleteShutdownOrCheckpoint();
      v.flags.Keys == t.flags.Keys
      && forall c :: c in t.flags ==> v.flags[c].pendingInteraction == t.flags[c].pendingInteraction
  {
    hide Server.CompleteShutdownOrCheckpoint;
    CompletingCompletes(t);
  }

  /** A cancelled round leaves all its requests and its count behind. Of a sub-session closed right after it, the
      turns are right just if it names every client whose request was pending, and the count just if it was zero. */
  lemma CancelThenClose(r: Run, c: ClientId, name: string, close: set<string>, only: set<string>)
    requires Inv(r) && TakesTurns(r.s.phase) && r.s.interacting == Some(c)
    ensures r.s.WellFormed() && Knows(r.s, EndInteract(c, true)) && Allowed(r, EndInteract(c, true))
    ensures var q := Step(r, EndInteract(c, true));
      && q.s.WellFormed() && q.s.phase == Idle && Allowed(q, CloseSubSession(name, close, only))
      && var t := Step(q, CloseSubSession(name, close, only));
         && (t.cleared <==> forall d :: d in r.s.flags && r.s.flags[d].pendingInteraction ==>
                              d in r.s.Named(r.s.clients, close + only))
         && (t.counted <==> r.s.wmWaiting == 0)
  {
    hide Inv, Step;
    InvBooks(r);
    StepKeepsInv(r, EndInteract(c, true));
    var q := Step(r, EndInteract(c, true));
    InvBooks(q);
    CancelledIs(r, c);
    NamedSame(r.s, q.s, r.s.clients, close + only);
    StartNotes(q, CloseSubSession(name, close, only));
  }

  lemma CancelledIs(r: Run, c: ClientId)
    requires r.s.WellFormed() && TakesTurns(r.s.phase) && r.s.interacting == Some(c)
    ensures var s := Step(r, EndInteract(c, true)).s;
      && s.phase == Idle && s.interacting.None? && s.flags == r.s.flags && s.clients == r.s.clients
      && s.fixed == r.s.fixed && s.wmWaiting == r.s.wmWaiting && s.sub == (if r.s.phase == ClosingSubSession then NO_SUB else r.s.sub)
  {
    hide Server.CancelMessages;
  }

  lemma StartNotes(q: Run, e: Event)
    requires q.s.WellFormed() && Knows(q.s, e) && StartsRound(q.s, e)
    ensures Step(q, e).cleared == TurnsAreFresh(q.s, e) && Step(q, e).counted == CountIsFresh(q.s, e)
  {
    hide Handle;
  }

  /** In a sub-session a window manager's report has everybody else told to save just if the count of awaited
      window managers is left at one by an earlier round: closing a sub-session does not set it. */
  lemma StaleCount(s: Server, c: ClientId)
    requires s.WellFormed() && s.phase == ClosingSubSession && s.sent == []
    requires c in s.flags && s.IsWM(c) && !s.flags[c].wasPhase2
    ensures (exists m :: m in s.SaveYourselfDone(c).sent && m.SaveYourself?) <==>
              s.wmWaiting == 1 && exists d :: d in s.clients && !s.IsWM(d)
  {
    hide Server.CompleteShutdownOrCheckpoint, Completes;
    var u := s.(flags := s.flags[c := s.flags[c].(saveYourselfDone := true)]);
    CompletingCompletes(u);
    var t := u.CompleteShutdownOrCheckpoint();
    AfterDropNews(u, t);
    CompletesCounts(u, t);
    SameClients(u, t);
    assert t.sent == News(u, t);
    if s.wmWaiting == 1 { OthersAreTold(t.(protection := true), c); }
  }

  lemma SameClients(s: Server, t: Server)
    requires Completes(s, t)
    ensures forall c :: c in t.clients <==> c in s.clients
  {
  }

  lemma OthersAreTold(t: Server, c: ClientId)
    requires t.IsWM(c) && t.wmWaiting == 1 && forall m :: m in t.sent ==> !m.SaveYourself?
    ensures (exists m :: m in t.WmReported(c, true).sent && m.SaveYourself?) <==> exists d :: d in t.clients && !t.IsWM(d)
  {
    var others := t.Select(Others, t.clients);
    var ms := t.SaveMessages(others);
    assert t.WmReported(c, true).sent == t.sent + ms;
    if d :| d in t.clients && !t.IsWM(d) {
      assert t.Addressed(Others, d);
      assert d in others;
      assert ms[0] in t.WmReported(c, true).sent && ms[0].SaveYourself?;
    }
    if m :| m in ms {
      var i :| 0 <= i < |ms| && ms[i] == m;
      assert others[i] in others;
    }
  }
}
