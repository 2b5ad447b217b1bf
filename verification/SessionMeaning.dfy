/**
 What the end of a round comes to: what is written about whom, whose saved data is thrown away, and who is told what.
 All of it is said of the clients' properties, of the stored group and of the phase.
 */
module SessionMeaning {
  import opened Picking
  import opened SessionEntries
  import opened SessionModel
  import opened SessionRounds
  import opened SessionStore

  // ---- discard commands ----

  /** Some connected client has set this discard command. */
  ghost predicate Used(s: Server, command: Command) {
    exists c :: c in s.clients && c in s.fixed.props && Says(s.fixed.props[c].list, "DiscardCommand", "LISTofARRAY8", command)
  }

  /** The group that is about to be saved to has an entry with this discard command. */
  ghost predicate InOld(s: Server, command: Command) {
    && s.saving.sessionGroup in s.saving.config
    && exists n: nat :: 1 <= n <= s.saving.config[s.saving.sessionGroup].count
         && s.saving.config[s.saving.sessionGroup].Read(n).discardCommand == command
  }

  lemma SaysDiscard(s: Server, c: ClientId, command: Command)
    requires c in s.fixed.props
    ensures Says(s.fixed.props[c].list, "DiscardCommand", "LISTofARRAY8", command) <==> s.fixed.props[c].DiscardCommand() == command
  {
    hide Says, Properties.DiscardCommand;
    OnlyTheGetters(s.fixed.props[c]);
  }

  lemma UsedIs(s: Server, command: Command)
    ensures Used(s, command) <==>
      exists i :: 0 <= i < |s.clients| && s.clients[i] in s.fixed.props && s.fixed.props[s.clients[i]].DiscardCommand() == command
  {
    hide Says, Properties.DiscardCommand;
    forall c | c in s.fixed.props
      ensures Says(s.fixed.props[c].list, "DiscardCommand", "LISTofARRAY8", command)
         <==> s.fixed.props[c].DiscardCommand() == command
    {
      SaysDiscard(s, c, command);
    }
  }

  /** One of the first n entries has this discard command. */
  ghost predicate Listed(g: Group, n: nat, command: Command) {
    exists k: nat :: 1 <= k <= n && g.Read(k).discardCommand == command
  }

  lemma ListedNext(g: Group, n: nat, command: Command)
    requires n > 0
    ensures Listed(g, n, command) <==> Listed(g, n - 1, command) || g.Read(n).discardCommand == command
  {
    hide Group.Read;
    if k: nat :| 1 <= k <= n && g.Read(k).discardCommand == command { assert k <= n - 1 || k == n; }
  }

  lemma {:induction false} OldDiscardsAre(s: Server, g: Group, n: nat, command: Command)
    ensures RunCommand(command) in s.OldDiscards(g, n) <==> command != [] && !Used(s, command) && Listed(g, n, command)
  {
    hide Properties.DiscardCommand, Group.Read, Used, Listed;
    if n == 0 {
      NothingListed(g, command);
    } else {
      OldDiscardsAre(s, g, n - 1, command);
      ListedNext(g, n, command);
      UsedIs(s, g.Read(n).discardCommand);
    }
  }

  lemma NothingListed(g: Group, command: Command)
    ensures !Listed(g, 0, command)
  {
  }

  lemma {:induction false} OnlyCommands(s: Server, g: Group, n: nat)
    ensures forall m :: m in s.OldDiscards(g, n) ==> m.RunCommand?
  {
    if n != 0 { OnlyCommands(s, g, n - 1); }
  }

  /** The same of a part of the clients. */
  ghost predicate UsedAmong(s: Server, ids: seq<ClientId>, command: Command) {
    exists c :: c in ids && c in s.fixed.props && Says(s.fixed.props[c].list, "DiscardCommand", "LISTofARRAY8", command)
  }

  lemma UsedNext(s: Server, ids: seq<ClientId>, command: Command)
    requires ids != []
    ensures var k := |ids| - 1;
      UsedAmong(s, ids, command)
      <==> (UsedAmong(s, ids[..k], command) || (ids[k] in s.fixed.props && s.fixed.props[ids[k]].DiscardCommand() == command))
  {
    hide Says, Properties.DiscardCommand;
    var c := ids[|ids| - 1];
    if c in s.fixed.props { SaysDiscard(s, c, command); }
    assert forall d :: d in ids <==> d in ids[..|ids| - 1] || d == c;
  }

  lemma {:induction false} DiscardCommandsAre(s: Server, g: Group, ids: seq<ClientId>, command: Command)
    ensures RunCommand(command) in s.DiscardCommands(g, ids)
      <==> command != [] && UsedAmong(s, ids, command) && Listed(g, g.count, command)
  {
    hide Properties.DiscardCommand, Group.Read, UsedAmong, Says;
    if ids == [] {
      NobodyUses(s, command);
    } else {
      DiscardCommandsAre(s, g, ids[..|ids| - 1], command);
      UsedNext(s, ids, command);
    }
  }

  lemma NobodyUses(s: Server, command: Command)
    ensures !UsedAmong(s, [], command)
  {
  }

  lemma {:induction false} OnlyDiscards(s: Server, g: Group, ids: seq<ClientId>)
    ensures forall m :: m in s.DiscardCommands(g, ids) ==> m.RunCommand?
  {
    if ids != [] { OnlyDiscards(s, g, ids[..|ids| - 1]); }
  }

  // ---- what is written ----

  ghost predicate IsWm(s: Server, c: ClientId) {
    c in s.fixed.props && Text(s.fixed.props[c].list, "Program", s.fixed.wm)
  }

  lemma IsWmIs(s: Server, c: ClientId)
    ensures IsWm(s, c) <==> s.IsWM(c)
  {
    hide Text, Properties.Program;
    if c in s.fixed.props { OnlyTheGetters(s.fixed.props[c]); }
  }

  ghost predicate FirstWmAt(s: Server, k: nat) {
    k < |s.clients| && IsWm(s, s.clients[k]) && forall j :: 0 <= j < k ==> !IsWm(s, s.clients[j])
  }

  /** The clients with the first window manager moved to the front, if there is any. */
  ghost predicate WmInFront(s: Server, ids: seq<ClientId>) {
    && (forall k: nat :: FirstWmAt(s, k) ==> ids == [s.clients[k]] + s.clients[..k] + s.clients[k + 1..])
    && ((forall k: nat :: !FirstWmAt(s, k)) ==> ids == s.clients)
  }

  lemma WmFirstInFront(s: Server)
    requires s.WellFormed()
    ensures WmInFront(s, WmFirst(s.clients, s.fixed.props, s.fixed.wm))
  {
    hide Text, Properties.Program, Server.IsWM, IsWm;
    forall c ensures IsWm(s, c) <==> c in s.fixed.props && s.fixed.props[c].Program() == s.fixed.wm { KnownWm(s, c); }
    var i := FirstWm(s.clients, s.fixed.props, s.fixed.wm);
    if i < |s.clients| { assert FirstWmAt(s, i); }
  }

  lemma KnownWm(s: Server, c: ClientId)
    ensures IsWm(s, c) <==> c in s.fixed.props && s.fixed.props[c].Program() == s.fixed.wm
  {
    hide Text, Properties.Program, IsWm;
    IsWmIs(s, c);
  }

  ghost function OfSubSession(s: Server): ClientId -> bool {
    c => c in s.fixed.props && !LeftOut(s.fixed.props[c].list, s.fixed.excludeApps) && c in s.sub.toSave
  }

  ghost function Among(others: seq<ClientId>): ClientId -> bool { c => c in others }

  lemma {:induction false} InBothPicks(s: Server, ids: seq<ClientId>, others: seq<ClientId>)
    ensures Picks(s.InBoth(ids, others), ids, Among(others))
  {
    hide Picks;
    var p := Among(others);
    if ids == [] {
      PicksNone(p);
    } else {
      var rest, c := ids[..|ids| - 1], ids[|ids| - 1];
      InBothPicks(s, rest, others);
      PicksOn(s.InBoth(rest, others), rest, p, c);
      assert rest + [c] == ids;
      assert s.InBoth(rest, others) + [] == s.InBoth(rest, others);
    }
  }

  /** What storing writes: an entry for each client that is not left out, those of a part of the session in their order,
      otherwise those of all of it behind the first window manager; and nothing but the group itself. */
  ghost predicate Stores(s: Server, t: Server, stored: seq<ClientId>) {
    var group := s.saving.sessionGroup;
    && (if s.phase == ClosingSubSession then t.clients == s.clients && Picks(stored, s.clients, OfSubSession(s))
        else WmInFront(s, t.clients) && Picks(stored, t.clients, NotLeftOut(s.fixed.props, s.fixed.excludeApps)))
    && group in t.saving.config && Writes(t.saving.config[group], stored, s.fixed.props, s.fixed.wm)
    && t.saving == s.saving.(config := s.saving.config[group := t.saving.config[group]])
  }

  ghost function StoredOf(s: Server): seq<ClientId>
    requires s.WellFormed()
  {
    var ordered := if s.phase == ClosingSubSession then s.clients else WmFirst(s.clients, s.fixed.props, s.fixed.wm);
    var chosen := if s.phase == ClosingSubSession then s.InBoth(ordered, s.sub.toSave) else ordered;
    KnownAll(s, chosen);
    StoredIds(chosen, s.fixed.props, s.fixed.excludeApps)
  }

  lemma KnownAll(s: Server, ids: seq<ClientId>)
    requires s.WellFormed() && forall c :: c in ids ==> c in s.clients
    ensures forall i :: 0 <= i < |ids| ==> ids[i] in s.fixed.props
  {
    forall i | 0 <= i < |ids| ensures ids[i] in s.fixed.props { assert ids[i] in ids; }
  }

  lemma StoringStores(s: Server)
    requires s.WellFormed()
    ensures Stores(s, s.StoreSession(), StoredOf(s))
  {
    hide Server.OldDiscards, Numbered, EntriesFor, StoredIds, Server.InBoth, WmFirst, Picks, Writes, WmInFront, LeftOut;
    var props, excluded := s.fixed.props, s.fixed.excludeApps;
    var stored := StoredOf(s);
    WmFirstInFront(s);
    if s.phase == ClosingSubSession {
      SubSessionPicks(s);
    } else {
      var ordered := WmFirst(s.clients, props, s.fixed.wm);
      KnownAll(s, ordered);
      StoredPicks(ordered, props, excluded);
    }
    StoredAreKnown(s);
    NumberedWrites(stored, props, s.fixed.wm);
  }

  ghost predicate StoresSession(s: Server, t: Server) { exists stored :: Stores(s, t, stored) }

  lemma StoringIs(s: Server)
    requires s.WellFormed()
    ensures StoresSession(s, s.StoreSession())
  {
    hide Server.StoreSession, Stores, StoredOf;
    StoringStores(s);
  }

  lemma StoredAreKnown(s: Server)
    requires s.WellFormed()
    ensures forall i :: 0 <= i < |StoredOf(s)| ==> StoredOf(s)[i] in s.fixed.props
  {
    hide Storable, WmFirst, Server.InBoth;
    forall i | 0 <= i < |StoredOf(s)| ensures StoredOf(s)[i] in s.fixed.props { assert StoredOf(s)[i] in StoredOf(s); }
  }

  lemma SubSessionPicks(s: Server)
    requires s.WellFormed() && s.phase == ClosingSubSession
    ensures Picks(StoredOf(s), s.clients, OfSubSession(s))
  {
    hide Picks, LeftOut, Server.InBoth, StoredIds;
    var members := s.InBoth(s.clients, s.sub.toSave);
    InBothPicks(s, s.clients, s.sub.toSave);
    KnownAll(s, members);
    StoredPicks(members, s.fixed.props, s.fixed.excludeApps);
    PicksTwice(StoredOf(s), members, s.clients, Among(s.sub.toSave), NotLeftOut(s.fixed.props, s.fixed.excludeApps), OfSubSession(s));
  }

  // ---- the end of a round ----

  /** Who takes part in the round that is on. */
  ghost predicate Member(s: Server, c: ClientId) {
    if s.phase == ClosingSubSession then c in s.sub.toSave else c in s.clients
  }

  ghost predicate Answered(s: Server, c: ClientId) {
    c in s.flags && (s.flags[c].saveYourselfDone || s.flags[c].waitForPhase2)
  }

  /** It has asked for phase 2 and not been given it. */
  ghost predicate WantsPhase2(s: Server, c: ClientId) {
    c in s.flags && !s.flags[c].saveYourselfDone && s.flags[c].waitForPhase2
  }

  /** The messages that the end of a round sends. */
  ghost predicate EndSends(s: Server, news: seq<Message>) {
    && (forall m :: m in news ==> m.RunCommand? || m.Stored? || m.Discarded? || m.SaveComplete? || m.Die? || m.SubSessionClosed?)
    && (Stored in news <==> s.saving.saveSession) && (Discarded in news <==> !s.saving.saveSession)
    && (forall command :: RunCommand(command) in news <==>
          command != [] && InOld(s, command) && (Used(s, command) <==> !s.saving.saveSession))
    && (forall c :: SaveComplete(c) in news <==> s.phase == Checkpoint && c in s.clients)
    && (forall c :: Die(c) in news <==> s.phase == ClosingSubSession && c in s.sub.toKill)
    && (SubSessionClosed in news <==> s.phase == ClosingSubSession && forall c :: c in s.sub.toKill ==> IsWm(s, c))
  }

  /** Where the end of a round leads. */
  ghost predicate EndMoves(s: Server, t: Server) {
    && (s.phase == Shutdown ==> t.phase == WaitingForKNotify && t.sub == s.sub)
    && (s.phase == Checkpoint ==> t.phase == Idle && t.sub == s.sub)
    && (s.phase == ClosingSubSession ==>
          if forall c :: c in s.sub.toKill ==> IsWm(s, c) then t.phase == Idle && t.sub == NO_SUB
          else t.phase == KillingSubSession && t.sub == s.sub)
  }

  /** How a round ends: the session is stored, or else discarded. */
  ghost predicate Ends(s: Server, t: Server) {
    && Extends(s, t) && EndSends(s, News(s, t)) && EndMoves(s, t)
    && t == s.(clients := t.clients, saving := t.saving, phase := t.phase, sub := t.sub, sent := t.sent)
    && (if s.saving.saveSession then exists stored :: Stores(s, t, stored) else t.saving == s.saving && t.clients == s.clients)
  }

  /** How phase 2 begins: everybody to whom it is owed is told, and nothing else happens. */
  ghost predicate BeginsPhase2(s: Server, t: Server) {
    && Extends(s, t) && t == s.(flags := t.flags, sent := t.sent) && t.flags.Keys == s.flags.Keys
    && (forall m :: m in News(s, t) <==> m.SaveYourselfPhase2? && Member(s, m.to) && WantsPhase2(s, m.to))
    && (forall c :: c in s.flags ==>
          t.flags[c] == if Member(s, c) && WantsPhase2(s, c) then s.flags[c].(waitForPhase2 := false) else s.flags[c])
  }

  lemma EndingSends(s: Server, commands: seq<Message>, last: seq<Message>, news: seq<Message>)
    requires news == commands + [if s.saving.saveSession then Stored else Discarded] + last
    requires forall m :: m in commands ==> m.RunCommand?
    requires forall command :: RunCommand(command) in commands <==>
      command != [] && InOld(s, command) && (Used(s, command) <==> !s.saving.saveSession)
    requires forall m :: m in last ==> m.SaveComplete? || m.Die? || m.SubSessionClosed?
    requires forall c :: SaveComplete(c) in last <==> s.phase == Checkpoint && c in s.clients
    requires forall c :: Die(c) in last <==> s.phase == ClosingSubSession && c in s.sub.toKill
    requires SubSessionClosed in last <==> s.phase == ClosingSubSession && forall c :: c in s.sub.toKill ==> IsWm(s, c)
    ensures EndSends(s, news)
  {
    hide InOld, Used, IsWm;
    var end := [if s.saving.saveSession then Stored else Discarded];
    forall m ensures m in news <==> m in commands || m in end || m in last {}
  }

  /** What is sent after saving. */
  ghost predicate LastSends(s: Server, last: seq<Message>) {
    && (forall m :: m in last ==> m.SaveComplete? || m.Die? || m.SubSessionClosed?)
    && (forall c :: SaveComplete(c) in last <==> s.phase == Checkpoint && c in s.clients)
    && (forall c :: Die(c) in last <==> s.phase == ClosingSubSession && c in s.sub.toKill)
    && (SubSessionClosed in last <==> s.phase == ClosingSubSession && forall c :: c in s.sub.toKill ==> IsWm(s, c))
  }

  lemma AfterSaving(u: Server)
    requires u.WellFormed() && u.InRound()
    ensures var t := u.AfterSave();
      && Extends(u, t) && LastSends(u, News(u, t)) && EndMoves(u, t)
      && t == u.(phase := t.phase, sub := t.sub, sent := t.sent)
  {
    hide IsWm, Server.IsWM;
    var t := u.AfterSave();
    if u.phase == Shutdown {
      assert News(u, t) == [];
    } else if u.phase == Checkpoint {
      assert News(u, t) == u.SaveCompletes(u.clients);
      CompletesSent(u);
    } else {
      KillingStarts(u);
    }
  }

  lemma CompletesSent(u: Server)
    requires u.phase == Checkpoint
    ensures LastSends(u, u.SaveCompletes(u.clients))
  {
    hide IsWm;
    var last := u.SaveCompletes(u.clients);
    forall c | c in u.clients ensures SaveComplete(c) in last {
      var i :| 0 <= i < |u.clients| && u.clients[i] == c;
      assert last[i] == SaveComplete(c);
    }
  }

  lemma KillingStarts(u: Server)
    requires u.WellFormed() && u.phase == ClosingSubSession
    ensures var t := u.AfterSave();
      && Extends(u, t) && LastSends(u, News(u, t)) && EndMoves(u, t)
      && t == u.(phase := t.phase, sub := t.sub, sent := t.sent)
  {
    hide IsWm, Server.Select, Server.DieMessages, LastSends, EndMoves;
    var dies := u.DieMessages(u.sub.toKill);
    var v := u.(phase := KillingSubSession).Send(dies);
    WaitedFor(u, v);
    DiesSent(u, dies);
    if v.Select(Others, u.sub.toKill) == [] {
      assert u.AfterSave() == v.(sub := NO_SUB, phase := Idle).Send([SubSessionClosed]);
      assert News(u, u.AfterSave()) == dies + [SubSessionClosed];
    } else {
      assert u.AfterSave() == v;
      assert News(u, u.AfterSave()) == dies;
    }
    KillingMoves(u, u.AfterSave());
    KillingSends(u, dies, News(u, u.AfterSave()));
  }

  lemma KillingMoves(u: Server, t: Server)
    requires u.phase == ClosingSubSession
    requires if forall c :: c in u.sub.toKill ==> IsWm(u, c) then t.phase == Idle && t.sub == NO_SUB
             else t.phase == KillingSubSession && t.sub == u.sub
    ensures EndMoves(u, t)
  {
    hide IsWm;
  }

  lemma KillingSends(u: Server, dies: seq<Message>, news: seq<Message>)
    requires u.phase == ClosingSubSession && forall m :: m in dies <==> m.Die? && m.to in u.sub.toKill
    requires news == if forall c :: c in u.sub.toKill ==> IsWm(u, c) then dies + [SubSessionClosed] else dies
    ensures LastSends(u, news)
  {
    hide IsWm;
    forall m ensures m in news <==> m in dies || (m == SubSessionClosed && forall c :: c in u.sub.toKill ==> IsWm(u, c)) {}
  }

  lemma WaitedFor(u: Server, v: Server)
    requires u.fixed == v.fixed
    ensures v.Select(Others, u.sub.toKill) == [] <==> forall c :: c in u.sub.toKill ==> IsWm(u, c)
  {
    hide IsWm, Server.IsWM, Server.Select;
    var waited := v.Select(Others, u.sub.toKill);
    SameWms(u, v);
    forall c ensures IsWm(u, c) <==> u.IsWM(c) { IsWmIs(u, c); }
    assert waited != [] ==> waited[0] in waited;
    forall c ensures c in waited <==> c in u.sub.toKill && !IsWm(u, c) {}
  }

  lemma SameWms(u: Server, v: Server)
    requires u.fixed == v.fixed
    ensures forall c :: v.Addressed(Others, c) <==> !u.IsWM(c)
  {
  }

  lemma DiesSent(u: Server, dies: seq<Message>)
    requires dies == u.DieMessages(u.sub.toKill)
    ensures forall m :: m in dies <==> m.Die? && m.to in u.sub.toKill
  {
    forall c | c in u.sub.toKill ensures Die(c) in dies {
      var i :| 0 <= i < |u.sub.toKill| && u.sub.toKill[i] == c;
      assert dies[i] == Die(c);
    }
  }

  /** The session is saved, and then the round is over. */
  lemma SavedThenEnds(s: Server, u: Server, commands: seq<Message>)
    requires s.WellFormed() && s.InRound() && u.WellFormed()
    requires u == s.(clients := u.clients, saving := u.saving,
                     sent := s.sent + (commands + [if s.saving.saveSession then Stored else Discarded]))
    requires forall c :: c in u.clients <==> c in s.clients
    requires forall m :: m in commands ==> m.RunCommand?
    requires forall command :: RunCommand(command) in commands <==>
      command != [] && InOld(s, command) && (Used(s, command) <==> !s.saving.saveSession)
    ensures var t := u.AfterSave();
      && Extends(s, t) && EndSends(s, News(s, t)) && EndMoves(s, t)
      && t == s.(clients := u.clients, saving := u.saving, phase := t.phase, sub := t.sub, sent := t.sent)
  {
    hide Server.AfterSave, InOld, Used, EndSends, LastSends, IsWm;
    AfterSaving(u);
    var t := u.AfterSave();
    var last := News(u, t);
    assert News(s, t) == commands + [if s.saving.saveSession then Stored else Discarded] + last;
    SameLast(s, u, last);
    LastParts(s, last);
    EndingSends(s, commands, last, News(s, t));
    SameMoves(s, u, t);
  }

  lemma SameLast(s: Server, u: Server, last: seq<Message>)
    requires LastSends(u, last) && u.phase == s.phase && u.sub == s.sub && u.fixed == s.fixed
    requires forall c :: c in u.clients <==> c in s.clients
    ensures LastSends(s, last)
  {
    hide Text;
  }

  lemma LastParts(s: Server, last: seq<Message>)
    requires LastSends(s, last)
    ensures forall m :: m in last ==> m.SaveComplete? || m.Die? || m.SubSessionClosed?
    ensures forall c :: SaveComplete(c) in last <==> s.phase == Checkpoint && c in s.clients
    ensures forall c :: Die(c) in last <==> s.phase == ClosingSubSession && c in s.sub.toKill
    ensures SubSessionClosed in last <==> s.phase == ClosingSubSession && forall c :: c in s.sub.toKill ==> IsWm(s, c)
  {
    hide IsWm;
  }

  lemma SameMoves(s: Server, u: Server, t: Server)
    requires EndMoves(u, t) && u.phase == s.phase && u.sub == s.sub && u.fixed == s.fixed
    ensures EndMoves(s, t)
  {
    hide Text;
  }

  lemma OldCommands(s: Server, command: Command)
    ensures InOld(s, command) && command != [] <==> Listed(s.OldGroup(), s.OldGroup().count, command) && command != []
  {
    hide Group.Read;
  }

  lemma StoringEnds(s: Server)
    requires s.WellFormed() && s.InRound() && s.saving.saveSession
    ensures Ends(s, s.StoreSession().AfterSave())
  {
    hide Server.OldDiscards, Server.AfterSave, Server.OldGroup, InOld, Used, Listed, Stores, StoredOf, EndSends, EndMoves,
      Numbered, EntriesFor, StoredIds, Server.InBoth, WmFirst;
    var g, u := s.OldGroup(), s.StoreSession();
    var commands := s.OldDiscards(g, g.count);
    forall command ensures RunCommand(command) in commands <==> command != [] && InOld(s, command) && !Used(s, command) {
      OldDiscardsAre(s, g, g.count, command);
      OldCommands(s, command);
    }
    OnlyCommands(s, g, g.count);
    StoringKeeps(s);
    SavedThenEnds(s, u, commands);
    StoringStores(s);
    StoresToo(s, u, u.AfterSave(), StoredOf(s));
  }

  lemma StoringKeeps(s: Server)
    requires s.WellFormed()
    ensures var u := s.StoreSession();
      && u.WellFormed() && (forall c :: c in u.clients <==> c in s.clients)
      && u == s.(clients := u.clients, saving := u.saving, sent := s.sent + (s.OldDiscards(s.OldGroup(), s.OldGroup().count) + [Stored]))
  {
    hide Server.OldDiscards, Server.OldGroup, Numbered, EntriesFor, StoredIds, Server.InBoth;
  }

  lemma StoresToo(s: Server, u: Server, t: Server, stored: seq<ClientId>)
    requires Stores(s, u, stored) && t.clients == u.clients && t.saving == u.saving
    ensures Stores(s, t, stored)
  {
    hide WmInFront, Picks, Writes;
  }

  lemma DiscardingEnds(s: Server)
    requires s.WellFormed() && s.InRound() && !s.saving.saveSession
    ensures Ends(s, s.DiscardSession().AfterSave())
  {
    hide Server.DiscardCommands, Server.AfterSave, Server.OldGroup, InOld, Used, Listed, EndSends, EndMoves;
    var g, u := s.OldGroup(), s.DiscardSession();
    var commands := s.DiscardCommands(g, s.clients);
    forall command ensures RunCommand(command) in commands <==> command != [] && InOld(s, command) && Used(s, command) {
      DiscardCommandsAre(s, g, s.clients, command);
      OldCommands(s, command);
      UsedByAll(s, command);
    }
    OnlyDiscards(s, g, s.clients);
    SavedThenEnds(s, u, commands);
  }

  lemma UsedByAll(s: Server, command: Command)
    ensures Used(s, command) <==> UsedAmong(s, s.clients, command)
  {
    hide Says;
  }

  lemma Phase2Starts(s: Server)
    requires s.WellFormed()
    ensures var second := s.Select(Phase2Waiters, s.Pending());
      BeginsPhase2(s, s.(flags := ClearWait(s.flags, second)).Send(s.Phase2Messages(second)))
  {
    hide ClearWait, Server.Select, Server.Phase2Messages, WantsPhase2, Member, Server.Pending, BeginsPhase2;
    var second := s.Select(Phase2Waiters, s.Pending());
    var ms := s.Phase2Messages(second);
    WaitersWant(s);
    Phase2Sent(s, second, ms);
    Phase2Cleared(s, second, ms);
  }

  lemma Phase2Cleared(s: Server, second: seq<ClientId>, ms: seq<Message>)
    requires s.WellFormed() && forall c :: c in second <==> Member(s, c) && WantsPhase2(s, c)
    requires forall m :: m in ms <==> m.SaveYourselfPhase2? && m.to in second
    ensures BeginsPhase2(s, s.(flags := ClearWait(s.flags, second)).Send(ms))
  {
    hide ClearWait, WantsPhase2, Member, Server.WellFormed;
    assert News(s, s.(flags := ClearWait(s.flags, second)).Send(ms)) == ms;
  }

  lemma WaitersWant(s: Server)
    ensures forall c :: c in s.Select(Phase2Waiters, s.Pending()) <==> Member(s, c) && WantsPhase2(s, c)
  {
    hide Server.Select;
    forall c ensures c in s.Select(Phase2Waiters, s.Pending()) <==> Member(s, c) && WantsPhase2(s, c) {
      assert s.Addressed(Phase2Waiters, c) <==> WantsPhase2(s, c);
    }
  }

  lemma Phase2Sent(s: Server, ids: seq<ClientId>, ms: seq<Message>)
    requires ms == s.Phase2Messages(ids)
    ensures forall m :: m in ms <==> m.SaveYourselfPhase2? && m.to in ids
  {
    forall c | c in ids ensures SaveYourselfPhase2(c) in ms {
      var i :| 0 <= i < |ids| && ids[i] == c;
      assert ms[i] == SaveYourselfPhase2(c);
    }
  }

  /** A round goes on as it is until everybody who takes part has answered. Then those are told to whom phase 2 is owed;
      only when it is owed to nobody, the session is stored or discarded and the round is over. */
  ghost predicate Completion(s: Server, t: Server) {
    && (!s.InRound() || (exists c :: Member(s, c) && !Answered(s, c)) ==> t == s)
    && (s.InRound() && (forall c :: Member(s, c) ==> Answered(s, c)) ==>
          if exists c :: Member(s, c) && WantsPhase2(s, c) then BeginsPhase2(s, t) else Ends(s, t))
  }

  lemma CompletionIs(s: Server)
    requires s.WellFormed()
    ensures Completion(s, s.CompleteShutdownOrCheckpoint())
  {
    hide Server.CompleteShutdownOrCheckpoint, Server.StoreOrDiscard, Server.AfterSave, Ends, BeginsPhase2, Completion,
      Server.Select, ClearWait, Member, Answered, WantsPhase2, Server.Reported, Server.Pending, Server.Phase2Messages;
    Completing(s);
    MembersAnswered(s);
    var t := s.CompleteShutdownOrCheckpoint();
    if !s.InRound() || exists c :: Member(s, c) && !Answered(s, c) {
      Unfinished(s, t);
    } else {
      WaitersWant(s);
      var second := s.Select(Phase2Waiters, s.Pending());
      if second == [] {
        EndingEnds(s);
        NobodyWants(s, t, second);
      } else {
        Phase2Starts(s);
        SomebodyWants(s, t, second);
      }
    }
  }

  lemma MembersAnswered(s: Server)
    ensures (exists c :: c in s.Pending() && !s.Reported(c)) <==> exists c :: Member(s, c) && !Answered(s, c)
  {
    forall c ensures c in s.Pending() <==> Member(s, c) {}
    forall c ensures s.Reported(c) <==> Answered(s, c) {}
  }

  lemma Unfinished(s: Server, t: Server)
    requires t == s && (!s.InRound() || exists c :: Member(s, c) && !Answered(s, c))
    ensures Completion(s, t)
  {
    hide Member, Answered, WantsPhase2, Ends, BeginsPhase2;
  }

  lemma NobodyWants(s: Server, t: Server, second: seq<ClientId>)
    requires Ends(s, t) && s.InRound() && second == [] && forall c :: c in second <==> Member(s, c) && WantsPhase2(s, c)
    requires !exists c :: Member(s, c) && !Answered(s, c)
    ensures Completion(s, t)
  {
    hide Member, Answered, WantsPhase2, Ends, BeginsPhase2;
  }

  lemma SomebodyWants(s: Server, t: Server, second: seq<ClientId>)
    requires BeginsPhase2(s, t) && s.InRound() && second != [] && forall c :: c in second <==> Member(s, c) && WantsPhase2(s, c)
    requires !exists c :: Member(s, c) && !Answered(s, c)
    ensures Completion(s, t)
  {
    hide Member, Answered, WantsPhase2, Ends, BeginsPhase2;
    assert second[0] in second;
  }

  lemma EndingEnds(s: Server)
    requires s.WellFormed() && s.InRound()
    ensures Ends(s, s.StoreOrDiscard().AfterSave())
  {
    hide Server.StoreSession, Server.DiscardSession, Server.AfterSave, Ends;
    if s.saving.saveSession { StoringEnds(s); } else { DiscardingEnds(s); }
  }

  // ---- who is asked to save, and how ----

  /** The round's request to save: it announces a logout and lets the client interact, unless it is a mere checkpoint. */
  ghost predicate Asks(s: Server, m: Message) {
    m.SaveYourself? && m.saveType == s.saving.saveType
    && m.shutdown == (s.saving.saveType != SaveLocal) && m.interactAny == (s.saving.saveType != SaveLocal)
  }

  lemma AskingIs(s: Server, ids: seq<ClientId>)
    ensures forall m :: m in s.SaveMessages(ids) <==> Asks(s, m) && m.to in ids
  {
    forall m ensures m in s.SaveMessages(ids) <==> Asks(s, m) && m.to in ids {
      if Asks(s, m) && m.to in ids {
        var i :| 0 <= i < |ids| && ids[i] == m.to;
        assert s.SaveMessages(ids)[i] == m;
      }
    }
  }

  /** A logout and a checkpoint ask the window managers first, and everybody when there is none. */
  lemma BeginningAsks(s: Server, t: Server)
    requires BeginsAll(s, t)
    ensures forall m :: m in t.sent <==>
      Asks(t, m) && m.to in s.clients && ((exists d :: d in s.clients && IsWm(s, d)) ==> IsWm(s, m.to))
  {
    hide IsWm, Server.SaveMessages, Server.Select, Server.CountWMs, Server.IsWM;
    forall c ensures IsWm(s, c) <==> s.IsWM(c) { IsWmIs(s, c); }
    CountsWms(s);
    AskedClients(s);
    AskingIs(t, s.Select(if t.wmWaiting > 0 then WindowManagers else Everyone, s.clients));
  }

  lemma AskedClients(s: Server)
    ensures forall c :: c in s.Select(WindowManagers, s.clients) <==> c in s.clients && s.IsWM(c)
    ensures forall c :: c in s.Select(Everyone, s.clients) <==> c in s.clients
    ensures forall c :: c in s.Select(Others, s.clients) <==> c in s.clients && !s.IsWM(c)
  {
    hide Server.IsWM, Server.Select;
  }

  lemma CountsWms(s: Server)
    ensures s.CountWMs(s.clients) > 0 <==> exists d :: d in s.clients && s.IsWM(d)
  {
    hide Server.IsWM, Server.Select;
    AskedClients(s);
    var wms := s.Select(WindowManagers, s.clients);
    assert s.CountWMs(s.clients) == |wms|;
    if wms != [] { assert wms[0] in wms; }
  }

  /** Closing a part of the session asks the clients that registered under one of the names. */
  lemma ClosingAsks(s: Server, t: Server, names: set<string>, closed: set<string>)
    requires BeginsSome(s, t, s.Named(s.clients, names), s.Named(s.clients, closed))
    ensures forall m :: m in t.sent <==>
      Asks(t, m) && m.to in s.clients && m.to in s.fixed.props && s.fixed.props[m.to].clientId in names
    ensures forall c :: c in t.sub.toSave <==> c in s.clients && c in s.fixed.props && s.fixed.props[c].clientId in names
    ensures forall c :: c in t.sub.toKill <==> c in s.clients && c in s.fixed.props && s.fixed.props[c].clientId in closed
  {
    hide Server.SaveMessages, Server.Named;
    AskingIs(t, s.Named(s.clients, names));
  }

  /** The last first report that is awaited from a window manager has everybody else asked, and no other report does. */
  lemma ReportingAsks(u: Server, c: ClientId, first: bool)
    ensures var t := u.WmReported(c, first);
      && Extends(u, t) && t == u.(wmWaiting := t.wmWaiting, sent := t.sent)
      && t.wmWaiting == (if IsWm(u, c) && first && u.wmWaiting > 0 then u.wmWaiting - 1 else u.wmWaiting)
      && forall m :: m in News(u, t) <==>
           IsWm(u, c) && first && u.wmWaiting == 1 && Asks(u, m) && m.to in u.clients && !IsWm(u, m.to)
  {
    hide IsWm, Server.SaveMessages, Server.Select, Server.IsWM;
    forall d ensures IsWm(u, d) <==> u.IsWM(d) { IsWmIs(u, d); }
    AskedClients(u);
    AskingIs(u, u.Select(Others, u.clients));
    var t, ms := u.WmReported(c, first), u.TellOthers(c, first);
    if u.IsWM(c) && first && u.wmWaiting > 0 {
      assert News(u, t) == ms;
    } else {
      assert News(u, t) == [];
    }
  }

  // ---- other requests ----

  /** The message runs the command with which the client's saved data is thrown away, if it has set any. */
  ghost predicate ThrowsAway(s: Server, c: ClientId, m: Message) {
    m.RunCommand? && m.command != [] && c in s.fixed.props
    && Says(s.fixed.props[c].list, "DiscardCommand", "LISTofARRAY8", m.command)
  }

  lemma DiscardOfIs(s: Server, c: ClientId)
    ensures forall m :: m in s.DiscardOf(c) <==> ThrowsAway(s, c, m)
  {
    hide Says, Properties.DiscardCommand;
    if c in s.fixed.props {
      forall command
        ensures Says(s.fixed.props[c].list, "DiscardCommand", "LISTofARRAY8", command)
           <==> s.fixed.props[c].DiscardCommand() == command
      {
        SaysDiscard(s, c, command);
      }
    }
  }

  /** A client that has saved while no round is on has its data thrown away, and nothing else happens. */
  lemma LateDoneIs(s: Server, nextId: ClientId, c: ClientId)
    requires s.WellFormed() && s.sent == [] && c in s.flags && s.phase == Idle
    ensures var t := Handle(s, nextId, Done(c));
      && t == s.(sent := t.sent)
      && forall m :: m in t.sent <==> ThrowsAway(s, c, m)
  {
    hide ThrowsAway, Server.DiscardOf, Server.CompleteShutdownOrCheckpoint;
    DiscardOfIs(s, c);
    assert [] + s.DiscardOf(c) == s.DiscardOf(c);
  }

  /** What cancelling a logout sends: everybody is told, and what somebody has saved already is thrown away. */
  ghost predicate Cancels(s: Server, ids: seq<ClientId>, m: Message) {
    || (m.ShutdownCancelled? && m.to in ids)
    || (exists c :: c in ids && c in s.flags && s.flags[c].saveYourselfDone && ThrowsAway(s, c, m))
  }

  lemma {:induction false} CancelMessagesAre(s: Server, ids: seq<ClientId>)
    requires forall c :: c in ids ==> c in s.flags
    ensures forall m :: m in s.CancelMessages(ids) <==> Cancels(s, ids, m)
  {
    hide ThrowsAway, Server.DiscardOf, Cancels;
    if ids == [] {
      NobodyCancels(s);
    } else {
      var rest, c := ids[..|ids| - 1], ids[|ids| - 1];
      CancelMessagesAre(s, rest);
      DiscardOfIs(s, c);
      forall m ensures m in s.CancelMessages(ids) <==> Cancels(s, ids, m) {
        CancelsNext(s, ids, m);
      }
    }
  }

  lemma NobodyCancels(s: Server)
    ensures forall m :: !Cancels(s, [], m)
  {
  }

  lemma CancelsNext(s: Server, ids: seq<ClientId>, m: Message)
    requires ids != [] && ids[|ids| - 1] in s.flags
    ensures var c := ids[|ids| - 1];
      Cancels(s, ids, m) <==>
        (Cancels(s, ids[..|ids| - 1], m) || m == ShutdownCancelled(c)
         || (s.flags[c].saveYourselfDone && ThrowsAway(s, c, m)))
  {
    hide ThrowsAway;
    assert forall d :: d in ids <==> d in ids[..|ids| - 1] || d == ids[|ids| - 1];
  }

  /** The client that has the turn may cancel: the server is idle again. Of a logout everybody is told, of the closing of
      a part of the session whoever asked for it. */
  lemma CancellingIs(s: Server, nextId: ClientId, c: ClientId)
    requires s.WellFormed() && s.sent == [] && c in s.flags && s.interacting == Some(c)
    ensures var t := Handle(s, nextId, EndInteract(c, true));
      && t == s.(phase := Idle, interacting := None, sub := if s.phase == ClosingSubSession then NO_SUB else s.sub, sent := t.sent)
      && forall m :: m in t.sent <==> if s.phase == ClosingSubSession then m == SubSessionCloseCanceled else Cancels(s, s.clients, m)
  {
    hide Cancels, Server.CancelMessages;
    var u := s.(interacting := None);
    CancelMessagesAre(u, u.clients);
    forall m ensures Cancels(u, u.clients, m) <==> Cancels(s, s.clients, m) { CancelsSame(s, u, m); }
    var t := Handle(s, nextId, EndInteract(c, true));
    if s.phase == ClosingSubSession {
      assert t.sent == [SubSessionCloseCanceled];
    } else {
      assert t.sent == u.CancelMessages(u.clients);
    }
  }

  lemma CancelsSame(s: Server, u: Server, m: Message)
    requires u.fixed == s.fixed && u.flags == s.flags && u.clients == s.clients
    ensures Cancels(u, u.clients, m) <==> Cancels(s, s.clients, m)
  {
    hide Says;
  }

  /** A request to log out while the session starts up is remembered; any other forgets it. */
  lemma PutOffIs(s: Server, nextId: ClientId, confirmed: bool, save: bool)
    requires s.WellFormed() && s.sent == [] && !StartsRound(s, Logout(confirmed, save))
    ensures Handle(s, nextId, Logout(confirmed, save)) == s.(pendingShutdown := s.phase == Starting)
  {
  }

  // ---- turns, silence, and clients that join ----

  /** Client k of the list is the first that waits for its turn. */
  ghost predicate FirstWaiting(s: Server, k: nat) {
    && k < |s.clients| && s.clients[k] in s.flags && s.flags[s.clients[k]].pendingInteraction
    && forall j :: 0 <= j < k && s.clients[j] in s.flags ==> !s.flags[s.clients[j]].pendingInteraction
  }

  /** While somebody has the turn nothing happens. Otherwise the first client that waits for it gets it, and the protection
      timer stops; if none waits the timer starts. */
  ghost predicate HandsOut(s: Server, t: Server) {
    && (s.interacting.Some? ==> t == s)
    && (s.interacting.None? && (forall k: nat :: !FirstWaiting(s, k)) ==> t == s.(protection := true))
    && (s.interacting.None? ==> forall k: nat :: FirstWaiting(s, k) ==>
          var c := s.clients[k];
          t == s.(interacting := Some(c), protection := false, sent := s.sent + [Interact(c)],
                  flags := s.flags[c := s.flags[c].(pendingInteraction := false)]))
  }

  lemma TurnIs(s: Server)
    ensures HandsOut(s, s.HandlePendingInteractions())
  {
    var k := s.FirstPending(s.clients);
    if k < |s.clients| { assert FirstWaiting(s, k); }
    forall j: nat | FirstWaiting(s, j) ensures j == k {}
  }

  /** In a round whose clients may interact a request waits for its turn; otherwise it is granted at once, and whoever has
      been waiting since an earlier round may get a turn, too. */
  lemma AskingTurnIs(s: Server, nextId: ClientId, c: ClientId)
    requires s.WellFormed() && c in s.flags
    ensures HandsOut(
      if s.phase == Shutdown || s.phase == ClosingSubSession then s.(flags := s.flags[c := s.flags[c].(pendingInteraction := true)])
      else s.(sent := s.sent + [Interact(c)]),
      Handle(s, nextId, AskInteract(c)))
  {
    hide Server.HandlePendingInteractions, HandsOut;
    TurnIs(s.(flags := s.flags[c := s.flags[c].(pendingInteraction := true)]));
    TurnIs(s.Send([Interact(c)]));
  }

  /** Only the client that has the turn can give it back, and then the next one gets it. */
  lemma EndingTurnIs(s: Server, nextId: ClientId, c: ClientId)
    requires s.WellFormed() && c in s.flags
    ensures var t := Handle(s, nextId, EndInteract(c, false));
      if s.interacting == Some(c) then HandsOut(s.(interacting := None), t) else t == s
  {
    hide Server.HandlePendingInteractions, HandsOut;
    TurnIs(s.(interacting := None));
  }

  /** The timer has run out: it counts as answers of all clients that have given none, unless somebody interacts. */
  ghost predicate GivesUp(s: Server, q: Server) {
    && q == s.(protection := false, flags := q.flags) && q.flags.Keys == s.flags.Keys
    && forall c :: c in s.flags ==>
         q.flags[c] == if c in s.clients && !Answered(s, c) then s.flags[c].(saveYourselfDone := true) else s.flags[c]
  }

  lemma SilenceIs(s: Server, nextId: ClientId) returns (q: Server, t: Server)
    requires s.WellFormed()
    ensures !s.InRound() || s.interacting.Some? ==> Handle(s, nextId, ProtectionTimer) == s.(protection := false)
    ensures s.InRound() && s.interacting.None? ==>
      GivesUp(s, q) && Completion(q, t) && Handle(s, nextId, ProtectionTimer) == t.(protection := true)
  {
    hide Server.CompleteShutdownOrCheckpoint, Completion, GiveUp;
    q := s.(protection := false, flags := GiveUp(s.flags, s.clients));
    t := s;
    if s.InRound() && s.interacting.None? {
      CompletionIs(q);
      t := q.CompleteShutdownOrCheckpoint();
    }
  }

  /** A client's answers are noted before the round may go on, and restart the timer if the client is done. */
  lemma AnswerIs(s: Server, nextId: ClientId, e: Event) returns (q: Server, t: Server)
    requires s.WellFormed() && Knows(s, e) && ((e.Done? && s.phase != Idle) || e.AskPhase2?)
    ensures q == s.(flags := s.flags[e.c :=
      if e.Done? then s.flags[e.c].(saveYourselfDone := true) else s.flags[e.c].(waitForPhase2 := true, wasPhase2 := true)])
    ensures Completion(q, t)
    ensures var u := if e.Done? then t.(protection := true) else t;
      Handle(s, nextId, e) == u.WmReported(e.c, e.AskPhase2? || !s.flags[e.c].wasPhase2)
  {
    hide Server.CompleteShutdownOrCheckpoint, Completion, Server.WmReported;
    q := s.(flags := s.flags[e.c :=
      if e.Done? then s.flags[e.c].(saveYourselfDone := true) else s.flags[e.c].(waitForPhase2 := true, wasPhase2 := true)]);
    CompletionIs(q);
    t := q.CompleteShutdownOrCheckpoint();
  }

  // ---- killing ----

  ghost predicate OnlyWms(s: Server, ids: seq<ClientId>) { forall c :: c in ids ==> IsWm(s, c) }

  /** The window managers' turn to die: each of them is told, and without any the server quits. */
  ghost predicate KillsWms(s: Server, t: Server) {
    && Extends(s, t) && t == s.(phase := KillingWM, sent := t.sent)
    && forall m :: m in News(s, t) <==>
         (m.Die? && m.to in s.clients && IsWm(s, m.to)) || (m == Quit && forall c :: c in s.clients ==> !IsWm(s, c))
  }

  lemma WmsSelected(s: Server)
    ensures forall c :: IsWm(s, c) <==> s.IsWM(c)
    ensures s.Select(WindowManagers, s.clients) == [] <==> forall c :: c in s.clients ==> !IsWm(s, c)
    ensures s.Select(Others, s.clients) == [] <==> OnlyWms(s, s.clients)
  {
    hide IsWm, Server.IsWM, Server.Select;
    forall c ensures IsWm(s, c) <==> s.IsWM(c) { IsWmIs(s, c); }
    AskedClients(s);
    var wms, others := s.Select(WindowManagers, s.clients), s.Select(Others, s.clients);
    assert wms != [] ==> wms[0] in wms;
    assert others != [] ==> others[0] in others;
  }

  lemma DieTo(s: Server, ids: seq<ClientId>)
    ensures forall m :: m in s.DieMessages(ids) <==> m.Die? && m.to in ids
  {
    forall c | c in ids ensures Die(c) in s.DieMessages(ids) {
      var i :| 0 <= i < |ids| && ids[i] == c;
      assert s.DieMessages(ids)[i] == Die(c);
    }
  }

  lemma KillNewsIs(s: Server)
    ensures forall m :: m in KillNews(s) <==>
      (m.Die? && m.to in s.clients && IsWm(s, m.to)) || (m == Quit && forall c :: c in s.clients ==> !IsWm(s, c))
  {
    hide IsWm, Server.IsWM, Server.Select, Server.DieMessages;
    WmsSelected(s);
    AskedClients(s);
    DieTo(s, s.Select(WindowManagers, s.clients));
  }

  /** The timers bring the window managers' turn, the end of the server, and the end of closing a part of the session. */
  lemma KillTimersAre(s: Server, nextId: ClientId)
    requires s.WellFormed()
    ensures var t := Handle(s, nextId, KillTimer); if s.phase == Killing then KillsWms(s, t) else t == s
    ensures Handle(s, nextId, WmKillTimer) == s.(sent := s.sent + [Quit])
    ensures Handle(s, nextId, SubSessionTimer) ==
      if s.phase == KillingSubSession then s.(phase := Idle, sub := NO_SUB, sent := s.sent + [SubSessionClosed]) else s
  {
    hide Server.KillWM, KillNews, IsWm;
    KillingWm(s);
    KillNewsIs(s);
    if s.phase == Killing { assert News(s, s.KillWM()) == KillNews(s); }
  }

  /** After the logout sound everybody but the window managers is told to die, or, if there is nobody else, these are. */
  lemma SoundIs(s: Server, nextId: ClientId)
    requires s.WellFormed() && s.sent == []
    ensures var t := Handle(s, nextId, SoundFinished);
      && (s.phase != WaitingForKNotify ==> t == s)
      && (s.phase == WaitingForKNotify && OnlyWms(s, s.clients) ==> KillsWms(s, t))
      && (s.phase == WaitingForKNotify && !OnlyWms(s, s.clients) ==>
            && t == s.(phase := Killing, sent := t.sent)
            && forall m :: m in t.sent <==> m.Die? && m.to in s.clients && !IsWm(s, m.to))
  {
    hide Server.LogoutSoundFinished, KillNews, IsWm, Server.IsWM, Server.Select, Server.DieMessages, OnlyWms;
    SoundIsFinished(s);
    KillNewsIs(s);
    WmsSelected(s);
    AskedClients(s);
    DieTo(s, s.Select(Others, s.clients));
    var t := s.LogoutSoundFinished();
    assert News(s, t) == t.sent;
  }

  ghost predicate StillWaits(s: Server) {
    && (s.phase == Killing ==> !OnlyWms(s, s.clients))
    && (s.phase == KillingWM ==> s.clients != [])
    && (s.phase == KillingSubSession ==> !OnlyWms(s, s.sub.toKill))
  }

  /** What a departure may lead to: while clients are killed the window managers' turn comes when nobody else is left; while
      these are killed the server quits when all are gone; and a part of the session is closed when nobody of it is left
      but window managers. */
  lemma DepartureIs(s: Server)
    ensures var t := s.ContinueKilling();
      && (s.phase == Killing && OnlyWms(s, s.clients) ==> KillsWms(s, t))
      && (s.phase == KillingWM && s.clients == [] ==> t == s.(sent := s.sent + [Quit]))
      && (s.phase == KillingSubSession && OnlyWms(s, s.sub.toKill) ==>
            t == s.(phase := Idle, sub := NO_SUB, sent := s.sent + [SubSessionClosed]))
      && (StillWaits(s) ==> t == s)
  {
    hide Server.ContinueKilling, KillNews, IsWm, Server.IsWM, Server.Select;
    ContinuesKilling(s);
    WmsSelected(s);
    WaitedFor(s, s);
    assert s.sent + [] == s.sent;
    if s.phase == Killing && OnlyWms(s, s.clients) { LastDeparture(s, s.ContinueKilling()); }
  }

  lemma LastDeparture(s: Server, t: Server)
    requires t == s.(phase := KillingWM, sent := s.sent + (KillNews(s) + if s.clients == [] then [Quit] else []))
    ensures KillsWms(s, t)
  {
    hide KillNews, IsWm;
    KillNewsIs(s);
    assert News(s, t) == KillNews(s) + if s.clients == [] then [Quit] else [];
  }
}
