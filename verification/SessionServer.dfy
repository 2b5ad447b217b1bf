/**
 The session manager's handlers as they run: a server object whose fields, timers and clients' flags change
 in place. Each handler is proved to do to the objects what SessionModel.dfy says it does to their value.
 */
module SessionServer {
  import opened Picking
  import opened SessionEntries
  import opened SessionMeaning
  import opened SessionModel
  import opened SessionRounds
  import opened SessionStore
  import opened Strings

  class KSMClient {
    const ident: ClientId
    const props: Properties
    var saveYourselfDone: bool
    var pendingInteraction: bool
    var waitForPhase2: bool
    var wasPhase2: bool

    constructor (ident: ClientId, props: Properties)
      ensures this.ident == ident && this.props == props && State() == FRESH
    {
      this.ident, this.props := ident, props;
      saveYourselfDone, pendingInteraction, waitForPhase2, wasPhase2 := false, false, false, false;
    }

    function State(): Flags reads this {
      Flags(saveYourselfDone, pendingInteraction, waitForPhase2, wasPhase2)
    }

    method ResetState()
      modifies this
      ensures State() == FRESH
    {
      saveYourselfDone := false;
      pendingInteraction := false;
      waitForPhase2 := false;
      wasPhase2 := false;
    }
  }

  /** The listed objects are connected clients with these identities. */
  ghost predicate ListedIn(table: map<ClientId, KSMClient>, cs: seq<KSMClient>, ids: seq<ClientId>) {
    |cs| == |ids| && forall i {:trigger cs[i]} :: 0 <= i < |cs| ==> ids[i] in table && table[ids[i]] == cs[i]
  }

  ghost predicate ConnectedIn(table: map<ClientId, KSMClient>, props: map<ClientId, Properties>) {
    forall c {:trigger table[c]} :: c in table ==> table[c].ident == c && c in props && table[c].props == props[c]
  }

  ghost predicate FlaggedIn(table: map<ClientId, KSMClient>, flags: map<ClientId, Flags>) reads table.Values {
    table.Keys == flags.Keys && forall c {:trigger table[c]} :: c in table ==> table[c].State() == flags[c]
  }

  /** Nobody is listed twice. */
  ghost predicate Distinct(ids: seq<ClientId>, toSave: seq<ClientId>) { NoRepeats(ids) && NoRepeats(toSave) }

  class KSMServer {
    var state: Phase
    var clients: seq<KSMClient>
    var clientsToSave: seq<KSMClient>
    var clientsToKill: seq<KSMClient>
    var clientInteracting: KSMClient?
    var wmPhase1WaitingCount: nat
    var protectionTimer: bool
    var pendingShutdown: bool
    var saveType: SaveType
    var saveSession: bool
    var sessionGroup: string
    var config: map<string, Group>
    const wm: string
    const excludeApps: set<string>
    var sent: seq<Message>
    ghost var table: map<ClientId, KSMClient>   // the connected clients by their identity
    ghost var model: Server                     // the value these objects stand for

    ghost predicate Listed(cs: seq<KSMClient>, ids: seq<ClientId>) reads this`table { ListedIn(table, cs, ids) }

    ghost predicate Connected(props: map<ClientId, Properties>) reads this`table { ConnectedIn(table, props) }

    ghost predicate Flagged(flags: map<ClientId, Flags>) reads this`table, table.Values { FlaggedIn(table, flags) }

    ghost predicate Interacts(holder: Option<ClientId>) reads this`table, this`clientInteracting {
      match holder
      case None => clientInteracting == null
      case Some(c) => c in table && clientInteracting == table[c]
    }

    ghost predicate Scalars() reads this {
      && state == model.phase && wmPhase1WaitingCount == model.wmWaiting
      && protectionTimer == model.protection && pendingShutdown == model.pendingShutdown
      && model.saving == Saving(saveType, saveSession, sessionGroup, config)
      && model.fixed.wm == wm && model.fixed.excludeApps == excludeApps && sent == model.sent
    }

    ghost predicate Valid() reads this, table.Values {
      && model.WellFormed() && Scalars() && Connected(model.fixed.props) && Flagged(model.flags)
      && Listed(clients, model.clients) && Listed(clientsToSave, model.sub.toSave)
      && Listed(clientsToKill, model.sub.toKill) && Interacts(model.interacting)
      && Distinct(model.clients, model.sub.toSave)
    }

    /** A client that is connected, as the handlers of its messages get it. */
    ghost predicate Has(c: KSMClient) reads this`table {
      c.ident in table && table[c.ident] == c
    }

    constructor (wm: string, excludeApps: set<string>, sessionGroup: string, config: map<string, Group>)
      ensures Valid() && table == map[]
      ensures model == Server(Idle, [], map[], 0, None, false, false, Setup(map[], wm, excludeApps),
                              Saving(SaveBoth, false, sessionGroup, config), NO_SUB, [])
    {
      state, clients, clientsToSave, clientsToKill, clientInteracting := Idle, [], [], [], null;
      wmPhase1WaitingCount, protectionTimer, pendingShutdown := 0, false, false;
      saveType, saveSession := SaveBoth, false;
      this.sessionGroup, this.config, this.wm, this.excludeApps := sessionGroup, config, wm, excludeApps;
      sent, table := [], map[];
      model := Server(Idle, [], map[], 0, None, false, false, Setup(map[], wm, excludeApps),
                      Saving(SaveBoth, false, sessionGroup, config), NO_SUB, []);
    }

    predicate IsWM(c: KSMClient) { c.props.Program() == wm }

    /** The i-th connected client. */
    lemma ClientAt(i: nat)
      requires Valid() && i < |clients|
      ensures |clients| == |model.clients|
      ensures Has(clients[i]) && clients[i].ident == model.clients[i] && model.clients[i] in model.flags
    {
      var c := model.clients[i];
      assert c in table && table[c] == clients[i];
    }

    /** What the server reads of a client is what the model knows of it. */
    lemma Known(c: KSMClient)
      requires Valid() && Has(c)
      ensures c.ident in model.flags && model.flags[c.ident] == c.State()
      ensures c.ident in model.fixed.props && model.fixed.props[c.ident] == c.props
      ensures (IsWM(c) <==> model.IsWM(c.ident)) && c in table.Values
    {
      assert table[c.ident] == c;
    }

    lemma Fields()
      requires Valid()
      ensures model.WellFormed() && Scalars() && |clients| == |model.clients| && Distinct(model.clients, model.sub.toSave)
      ensures clientInteracting == null <==> model.interacting.None?
      ensures clientInteracting != null ==> Has(clientInteracting) && model.interacting == Some(clientInteracting.ident)
    {
    }

    /** Two connected clients are the same object just if they have the same identity. */
    lemma SameClient(c: KSMClient, d: KSMClient)
      requires Has(c) && Has(d)
      ensures c == d <==> c.ident == d.ident
    {
    }

    // ---- changing one thing ----

    method Send(m: Message)
      requires Valid()
      modifies this`sent, this`model
      ensures Valid() && model == old(model).Send([m])
    {
      hide Listed, Connected, Flagged, Interacts, Distinct, Server.WellFormed;
      SameLists(model, model.Send([m]));
      sent := sent + [m];
      model := model.Send([m]);
    }

    method Enter(p: Phase)
      requires Valid()
      modifies this`state, this`model
      ensures Valid() && model == old(model).(phase := p)
    {
      hide Listed, Connected, Flagged, Interacts, Distinct, Server.WellFormed;
      SameLists(model, model.(phase := p));
      state := p;
      model := model.(phase := p);
    }

    method StartProtection()
      requires Valid()
      modifies this`protectionTimer, this`model
      ensures Valid() && model == old(model).(protection := true)
    {
      hide Listed, Connected, Flagged, Interacts, Distinct, Server.WellFormed;
      SameLists(model, model.(protection := true));
      protectionTimer := true;
      model := model.(protection := true);
    }

    method EndProtection()
      requires Valid()
      modifies this`protectionTimer, this`model
      ensures Valid() && model == old(model).(protection := false)
    {
      hide Listed, Connected, Flagged, Interacts, Distinct, Server.WellFormed;
      SameLists(model, model.(protection := false));
      protectionTimer := false;
      model := model.(protection := false);
    }

    method SetWaitingCount(n: nat)
      requires Valid()
      modifies this`wmPhase1WaitingCount, this`model
      ensures Valid() && model == old(model).(wmWaiting := n)
    {
      hide Listed, Connected, Flagged, Interacts, Distinct, Server.WellFormed;
      SameLists(model, model.(wmWaiting := n));
      wmPhase1WaitingCount := n;
      model := model.(wmWaiting := n);
    }

    method SetSaving(saveType: SaveType, saveSession: bool, sessionGroup: string)
      requires Valid()
      modifies this`saveType, this`saveSession, this`sessionGroup, this`model
      ensures Valid()
      ensures model == old(model).(saving := Saving(saveType, saveSession, sessionGroup, old(model).saving.config))
    {
      hide Listed, Connected, Flagged, Interacts, Distinct, Server.WellFormed;
      var saving := Saving(saveType, saveSession, sessionGroup, config);
      SameLists(model, model.(saving := saving));
      this.saveType, this.saveSession, this.sessionGroup := saveType, saveSession, sessionGroup;
      model := model.(saving := saving);
    }

    method SetPendingShutdown(active: bool)
      requires Valid()
      modifies this`pendingShutdown, this`model
      ensures Valid() && model == old(model).(pendingShutdown := active)
    {
      hide Listed, Connected, Flagged, Interacts, Distinct, Server.WellFormed;
      SameLists(model, model.(pendingShutdown := active));
      pendingShutdown := active;
      model := model.(pendingShutdown := active);
    }

    method SetInteracting(c: KSMClient?)
      requires Valid() && (c != null ==> Has(c))
      modifies this`clientInteracting, this`model
      ensures Valid() && model == old(model).(interacting := if c == null then None else Some(c.ident))
    {
      hide Listed, Connected, Flagged, Distinct, Server.WellFormed;
      if c != null {
        Known(c);
        TurnSet(model, Some(c.ident));
      } else {
        TurnSet(model, None);
      }
      clientInteracting := c;
      model := model.(interacting := if c == null then None else Some(c.ident));
    }

    method SetSubSession(toSave: seq<KSMClient>, toKill: seq<KSMClient>, ghost sub: SubSession)
      requires Valid() && Listed(toSave, sub.toSave) && Listed(toKill, sub.toKill)
      requires NoRepeats(sub.toSave) && forall c :: c in sub.toSave || c in sub.toKill ==> c in model.flags
      modifies this`clientsToSave, this`clientsToKill, this`model
      ensures Valid() && model == old(model).(sub := sub)
    {
      hide Listed, Connected, Flagged, Interacts;
      clientsToSave, clientsToKill := toSave, toKill;
      model := model.(sub := sub);
    }

    /** Client c's flags have become f; nothing else has changed. */
    ghost method Note(c: KSMClient, f: Flags)
      requires Has(c) && c.State() == f && model.WellFormed() && Scalars() && Connected(model.fixed.props)
      requires Listed(clients, model.clients) && Listed(clientsToSave, model.sub.toSave)
      requires Listed(clientsToKill, model.sub.toKill) && Interacts(model.interacting)
      requires Distinct(model.clients, model.sub.toSave)
      requires table.Keys == model.flags.Keys
      requires forall d {:trigger table[d]} :: d in table && table[d] != c ==> table[d].State() == model.flags[d]
      modifies this`model
      ensures Valid() && model == old(model).(flags := old(model).flags[c.ident := f])
    {
      hide Listed, Interacts, Connected, Flagged, Distinct, Server.WellFormed;
      FlaggedAfter(c, f, model.flags);
      FlagSet(model, c.ident, f);
      model := model.(flags := model.flags[c.ident := f]);
    }

    method ResetState(c: KSMClient)
      requires Valid() && Has(c)
      modifies c, this`model
      ensures Valid() && model == old(model).(flags := old(model).flags[c.ident := FRESH])
    {
      c.ResetState();
      Note(c, FRESH);
    }

    method MarkDone(c: KSMClient)
      requires Valid() && Has(c)
      modifies c`saveYourselfDone, this`model
      ensures Valid() && c.ident in old(model).flags
      ensures model == old(model).(flags := old(model).flags[c.ident := old(model).flags[c.ident].(saveYourselfDone := true)])
    {
      Known(c);
      c.saveYourselfDone := true;
      Note(c, c.State());
    }

    method MarkPhase2(c: KSMClient)
      requires Valid() && Has(c)
      modifies c`waitForPhase2, c`wasPhase2, this`model
      ensures Valid() && c.ident in old(model).flags
      ensures model == old(model).(flags :=
        old(model).flags[c.ident := old(model).flags[c.ident].(waitForPhase2 := true, wasPhase2 := true)])
    {
      Known(c);
      c.waitForPhase2 := true;
      c.wasPhase2 := true;
      Note(c, c.State());
    }

    method StopWaiting(c: KSMClient)
      requires Valid() && Has(c)
      modifies c`waitForPhase2, this`model
      ensures Valid() && c.ident in old(model).flags
      ensures model == old(model).(flags := old(model).flags[c.ident := old(model).flags[c.ident].(waitForPhase2 := false)])
    {
      Known(c);
      c.waitForPhase2 := false;
      Note(c, c.State());
    }

    method SetPending(c: KSMClient, pending: bool)
      requires Valid() && Has(c)
      modifies c`pendingInteraction, this`model
      ensures Valid() && c.ident in old(model).flags
      ensures model == old(model).(flags :=
        old(model).flags[c.ident := old(model).flags[c.ident].(pendingInteraction := pending)])
    {
      Known(c);
      c.pendingInteraction := pending;
      Note(c, c.State());
    }

    // ---- starting a save round ----

    method SmsSaveYourself(c: KSMClient)
      requires Valid() && Has(c)
      modifies this`sent, this`model
      ensures Valid() && model == old(model).Send([old(model).SaveMessage(c.ident)])
    {
      hide Valid;
      Fields();
      if saveType == SaveLocal {
        Send(SaveYourself(c.ident, saveType, false, false));
      } else {
        Send(SaveYourself(c.ident, saveType, true, true));
      }
    }

    method ResetAndCount(c: KSMClient)
      requires Valid() && Has(c)
      modifies this`wmPhase1WaitingCount, this`model, c
      ensures Valid() && model == OneReset(old(model), c.ident)
    {
      hide Valid, Has;
      Known(c);
      Fields();
      ResetState(c);
      if IsWM(c) { SetWaitingCount(wmPhase1WaitingCount + 1); }
    }

    /** The flags of all clients are reset, and the window managers counted. */
    method ResetClients()
      requires Valid()
      modifies this`wmPhase1WaitingCount, this`model, table.Values
      ensures Valid() && model == AllReset(old(model), old(model).clients)
    {
      hide Valid, Has, OneReset, AllReset, Server.WellFormed, Scalars;
      Fields();
      ghost var m, ids := model, model.clients;
      SetWaitingCount(0);
      ResetStart(m, ids);
      for i := 0 to |clients|
        invariant Valid() && model == AllReset(m, ids[..i]) && model.clients == ids
      {
        ClientAt(i);
        ResetStep(m, ids, i);
        ResetAndCount(clients[i]);
      }
      assert ids[..|ids|] == ids;
    }

    method AskOne(who: Who, c: KSMClient)
      requires Valid() && Has(c) && who != Phase2Waiters
      modifies this`sent, this`model
      ensures Valid() && model == OneAsked(old(model), who, c.ident)
    {
      hide Valid, Has, Server.SaveMessage;
      Known(c);
      SendNothing(model);
      if who == Everyone || (who == WindowManagers && IsWM(c)) || (who == Others && !IsWM(c)) {
        SmsSaveYourself(c);
      }
    }

    method AskToSave(who: Who)
      requires Valid() && who != Phase2Waiters
      modifies this`sent, this`model
      ensures Valid() && model == old(model).Send(old(model).SaveMessages(old(model).Select(who, old(model).clients)))
    {
      hide Valid, Has, OneAsked, Server.SaveMessages, Server.Select;
      Fields();
      ghost var m, ids := model, model.clients;
      AskStart(m, who, ids);
      for i := 0 to |clients|
        invariant Valid() && model == AllAsked(m, who, ids[..i]) && model.clients == ids
      {
        ClientAt(i);
        AskStep(m, who, ids, i);
        AskOne(who, clients[i]);
      }
      assert ids[..|ids|] == ids;
    }

    method AskFirst()
      requires Valid()
      modifies this`sent, this`model
      ensures Valid() && model == old(model).AskFirst()
    {
      hide Valid, Server.WellFormed, Server.SaveMessages, Server.Select;
      Fields();
      if wmPhase1WaitingCount > 0 {
        AskToSave(WindowManagers);
      } else {
        AskToSave(Everyone);
      }
    }

    method RequestShutdown(confirmed: bool, save: bool)
      requires Valid()
      modifies this, table.Values
      ensures Valid() && table == old(table) && old(model).WellFormed() && model == old(model).ShutdownEvent(confirmed, save)
    {
      hide Valid, Server.WellFormed, Server.CompleteIfNoClients, Server.AskFirst, Server.CountWMs, ResetFlags;
      Fields();
      SetPendingShutdown(false);
      if state != Idle {
        if state == Starting { SetPendingShutdown(true); }
        return;
      }
      if !confirmed { return; }
      Fields();
      SetSaving(if save then SaveBoth else SaveGlobal, save, if save then PREVIOUS_LOGOUT else sessionGroup);
      ghost var m := model;
      RoundBegun(old(model), m, m.saving);
      BeginRound(Shutdown, true);
    }

    method BeginRound(p: Phase, guarded: bool)
      requires Valid()
      modifies this, table.Values
      ensures Valid() && table == old(table) && Begins(old(model), p, guarded).WellFormed()
      ensures model == Begins(old(model), p, guarded).CompleteIfNoClients()
    {
      hide Valid, Server.WellFormed, Server.CompleteIfNoClients, Server.AskFirst, Server.CountWMs, ResetFlags;
      ghost var m := model;
      Enter(p);
      if guarded { StartProtection(); }
      Fields();
      CountSame(m, model, m.clients);
      ResetClients();
      AskFirst();
      Fields();
      CompleteIfNoClients();
    }

    method CompleteIfNoClients()
      requires Valid()
      modifies this, table.Values
      ensures Valid() && table == old(table) && old(model).WellFormed() && model == old(model).CompleteIfNoClients()
    {
      hide Valid, Server.WellFormed, Server.CompleteShutdownOrCheckpoint;
      Fields();
      if clients == [] { CompleteShutdownOrCheckpoint(); }
    }

    function CurrentSession(): string reads this {
      if Prefixed(sessionGroup, "Session: ") then sessionGroup[9..] else ""
    }

    method SaveCurrentSession()
      requires Valid()
      modifies this, table.Values
      ensures Valid() && table == old(table) && old(model).WellFormed() && model == old(model).SaveCurrentSession()
    {
      hide Valid, Server.WellFormed, Server.CompleteIfNoClients, Server.AskFirst, Server.CountWMs, ResetFlags, Prefixed;
      Fields();
      if state != Idle { return; }
      SetSaving(SaveLocal, true,
                if CurrentSession() == "" || sessionGroup == PREVIOUS_LOGOUT then BY_USER else sessionGroup);
      ghost var m := model;
      Fields();
      RoundBegun(old(model), m, m.saving);
      BeginRound(Checkpoint, false);
    }

    method SaveSubSession(name: string, saveAndClose: set<string>, saveOnly: set<string>)
      requires Valid() && (state == Idle ==> model.sub == NO_SUB)
      modifies this, table.Values
      ensures Valid() && table == old(table) && old(model).WellFormed()
      ensures model == old(model).SaveSubSession(name, saveAndClose, saveOnly)
    {
      hide Valid, Has, Server.WellFormed, Server.CompleteShutdownOrCheckpoint, AllAdded, OneAdded, Server.Named;
      Fields();
      if state != Idle { return; }
      Enter(ClosingSubSession);
      SetSaving(SaveBoth, true, "SubSession: " + name);
      StartProtection();
      ghost var m, ids := model, model.clients;
      Fields();
      AddStart(m, saveAndClose, saveOnly, ids);
      for i := 0 to |clients|
        invariant Valid() && table == old(table) && model == AllAdded(m, saveAndClose, saveOnly, ids[..i]) && model.clients == ids
        invariant |clients| == |ids|
      {
        ClientAt(i);
        Known(clients[i]);
        AddStep(m, saveAndClose, saveOnly, ids, i);
        AddOne(clients[i], saveAndClose, saveOnly);
      }
      assert ids[..|ids|] == ids;
      AllAddedIs(old(model), m, saveAndClose, saveOnly);
      CompleteShutdownOrCheckpoint();
    }

    method AddOne(c: KSMClient, saveAndClose: set<string>, saveOnly: set<string>)
      requires Valid() && Has(c) && NoRepeats(OneAdded(model, saveAndClose, saveOnly, c.ident).sub.toSave)
      modifies c, this`sent, this`clientsToSave, this`clientsToKill, this`model
      ensures Valid() && model == OneAdded(old(model), saveAndClose, saveOnly, c.ident)
    {
      hide Valid, Has, Server.WellFormed, NoRepeats, Listed, Server.SaveMessage;
      Known(c);
      AllListed();
      if c.props.clientId in saveAndClose {
        ResetState(c);
        SameMessage(old(model), model, c.ident);
        SmsSaveYourself(c);
        AllListed();
        MoreListed(clientsToSave, model.sub.toSave, c);
        MoreListed(clientsToKill, model.sub.toKill, c);
        SubKnown(c);
        SetSubSession(clientsToSave + [c], clientsToKill + [c],
                      SubSession(model.sub.toSave + [c.ident], model.sub.toKill + [c.ident]));
      } else if c.props.clientId in saveOnly {
        ResetState(c);
        SameMessage(old(model), model, c.ident);
        SmsSaveYourself(c);
        AllListed();
        MoreListed(clientsToSave, model.sub.toSave, c);
        SubKnown(c);
        SetSubSession(clientsToSave + [c], clientsToKill, SubSession(model.sub.toSave + [c.ident], model.sub.toKill));
      }
    }

    lemma AllListed()
      requires Valid()
      ensures Listed(clientsToSave, model.sub.toSave) && Listed(clientsToKill, model.sub.toKill)
    {
    }

    lemma MoreListed(cs: seq<KSMClient>, ids: seq<ClientId>, c: KSMClient)
      requires Listed(cs, ids) && Has(c)
      ensures Listed(cs + [c], ids + [c.ident])
    {
      forall i | 0 <= i < |cs + [c]| ensures (ids + [c.ident])[i] in table && table[(ids + [c.ident])[i]] == (cs + [c])[i] {
        if i < |cs| { var d := cs[i]; }
      }
    }

    lemma SubKnown(c: KSMClient)
      requires Valid() && Has(c)
      ensures c.ident in model.flags && (forall d :: d in model.sub.toSave || d in model.sub.toKill ==> d in model.flags)
    {
    }

    // ---- reports from clients ----

    /** A report of failure is treated like one of success. */
    method SaveYourselfDone(c: KSMClient, success: bool)
      requires Valid() && Has(c)
      modifies this, table.Values
      ensures Valid() && table == old(table) && old(model).WellFormed() && c.ident in old(model).flags
      ensures model == old(model).SaveYourselfDone(c.ident)
    {
      hide Valid, Server.WellFormed, Server.CompleteShutdownOrCheckpoint, Server.WmReported, Completes,
        Properties.DiscardCommand;
      Fields();
      Known(c);
      if state == Idle {
        SendNothing(model);
        var discard := c.props.DiscardCommand();
        if discard != [] { Send(RunCommand(discard)); }
        return;
      }
      MarkDone(c);
      Fields();
      CompletingCompletes(model);
      Phase2Remembered(model, c.ident);
      CompleteShutdownOrCheckpoint();
      Known(c);
      StartProtection();
      NoteReport(c, !c.wasPhase2);
    }

    method Phase2Request(c: KSMClient)
      requires Valid() && Has(c)
      modifies this, table.Values
      ensures Valid() && table == old(table) && old(model).WellFormed() && c.ident in old(model).flags
      ensures model == old(model).Phase2Request(c.ident)
    {
      hide Valid, Server.WellFormed, Server.CompleteShutdownOrCheckpoint, Server.WmReported;
      Fields();
      Known(c);
      MarkPhase2(c);
      Fields();
      CompleteShutdownOrCheckpoint();
      NoteReport(c, true);
    }

    /** When the last window manager has finished its first phase, the others are told to save. */
    method NoteReport(c: KSMClient, firstReport: bool)
      requires Valid() && Has(c)
      modifies this`wmPhase1WaitingCount, this`sent, this`model
      ensures Valid() && model == old(model).WmReported(c.ident, firstReport)
    {
      hide Valid, Has, Server.WellFormed, Server.Select, Server.SaveMessages, Server.IsWM;
      Fields();
      Known(c);
      if IsWM(c) && firstReport && wmPhase1WaitingCount > 0 {
        ghost var m := model;
        SetWaitingCount(wmPhase1WaitingCount - 1);
        Fields();
        OthersSame(m, model);
        SendNothing(model);
        if wmPhase1WaitingCount == 0 { AskToSave(Others); }
      }
    }

    // ---- clients coming and going ----

    method NewClient(c: ClientId, p: Properties) returns (client: KSMClient)
      requires Valid() && c !in model.fixed.props
      modifies this`clients, this`table, this`model
      ensures Valid() && fresh(client) && table == old(table)[c := client] && Has(client)
      ensures model == old(model).NewClient(c, p)
    {
      hide ListedIn, ConnectedIn, FlaggedIn, Distinct, Server.WellFormed;
      NewIsNew(c);
      JoinedWellFormed(model, c, p);
      client := new KSMClient(c, p);
      ListedGrows(table, clients, model.clients, c, client);
      ListedGrows(table, clientsToSave, model.sub.toSave, c, client);
      ListedGrows(table, clientsToKill, model.sub.toKill, c, client);
      ConnectedGrows(table, model.fixed.props, model.flags, c, client, p);
      table := table[c := client];
      clients := clients + [client];
      model := model.NewClient(c, p);
    }

    lemma NewIsNew(c: ClientId)
      requires Valid() && c !in model.fixed.props
      ensures c !in table && c !in model.flags && c !in model.clients
    {
    }

    /** The list without any occurrence of c. */
    static function Without(cs: seq<KSMClient>, c: KSMClient): seq<KSMClient> {
      if cs == [] then [] else
        Without(cs[..|cs| - 1], c) + (if cs[|cs| - 1] != c then [cs[|cs| - 1]] else [])
    }

    lemma {:induction false} WithoutListed(cs: seq<KSMClient>, ids: seq<ClientId>, c: KSMClient)
      requires Valid() && Listed(cs, ids) && Has(c)
      ensures Listed(Without(cs, c), Removed(ids, c.ident))
    {
      hide Valid, Listed, Has;
      ListedSize(cs, ids);
      if cs == [] { NoneListed(); }
      if cs != [] {
        var k := |cs| - 1;
        ListedAt(cs, ids, k);
        SameClient(cs[k], c);
        ListedPrefix(cs, ids, k);
        WithoutListed(cs[..k], ids[..k], c);
        if cs[k] != c {
          MoreListed(Without(cs[..k], c), Removed(ids[..k], c.ident), cs[k]);
        } else {
          assert Without(cs[..k], c) + [] == Without(cs[..k], c) && Removed(ids[..k], c.ident) + [] == Removed(ids[..k], c.ident);
        }
      }
    }

    lemma ListedPrefix(cs: seq<KSMClient>, ids: seq<ClientId>, k: nat)
      requires Listed(cs, ids) && k <= |cs|
      ensures Listed(cs[..k], ids[..k])
    {
      forall i | 0 <= i < k ensures ids[..k][i] in table && table[ids[..k][i]] == cs[..k][i] {
        var c := cs[i];
      }
    }

    lemma ListsWithout(c: KSMClient)
      requires Valid() && Has(c)
      ensures ListedIn(table - {c.ident}, Without(clients, c), Taken(model, c.ident).clients)
      ensures ListedIn(table - {c.ident}, Without(clientsToSave, c), Taken(model, c.ident).sub.toSave)
      ensures ListedIn(table - {c.ident}, Without(clientsToKill, c), Taken(model, c.ident).sub.toKill)
    {
      hide ListedIn, ConnectedIn, FlaggedIn, Distinct, Server.WellFormed, Removed, Without, Taken;
      WithoutListed(clients, model.clients, c);
      WithoutListed(clientsToSave, model.sub.toSave, c);
      WithoutListed(clientsToKill, model.sub.toKill, c);
      TakenIs(model, c.ident);
      ListedShrinks(table, Without(clients, c), Taken(model, c.ident).clients, c.ident);
      ListedShrinks(table, Without(clientsToSave, c), Taken(model, c.ident).sub.toSave, c.ident);
      ListedShrinks(table, Without(clientsToKill, c), Taken(model, c.ident).sub.toKill, c.ident);
    }

    lemma ServerWithout(c: KSMClient)
      requires Valid() && Has(c)
      ensures ConnectedIn(table - {c.ident}, model.fixed.props) && FlaggedIn(table - {c.ident}, model.flags - {c.ident})
      ensures Taken(model, c.ident).WellFormed()
      ensures Distinct(Taken(model, c.ident).clients, Taken(model, c.ident).sub.toSave)
      ensures clientInteracting == c <==> model.interacting == Some(c.ident)
    {
      hide ListedIn, ConnectedIn, FlaggedIn, Distinct, Server.WellFormed, Taken;
      Fields();
      TakenKeeps(model, c.ident);
      ConnectedShrinks(table, model.fixed.props, model.flags, c.ident);
      if clientInteracting != null { SameClient(c, clientInteracting); }
    }

    /** The client is taken out of every list. */
    method RemoveClient(c: KSMClient)
      requires Valid() && Has(c)
      modifies this`clients, this`clientsToSave, this`clientsToKill, this`clientInteracting, this`table, this`model
      ensures Valid() && table == old(table) - {c.ident} && model == Taken(old(model), c.ident)
    {
      hide ListedIn, ConnectedIn, FlaggedIn, Distinct, Server.WellFormed, Removed, Without, Taken;
      ghost var m, rest := model, table - {c.ident};
      ListsWithout(c);
      ServerWithout(c);
      TakenIs(m, c.ident);
      if clientInteracting == c { clientInteracting := null; }
      clients, clientsToSave, clientsToKill := Without(clients, c), Without(clientsToSave, c), Without(clientsToKill, c);
      table, model := rest, Taken(m, c.ident);
    }

    /** A client that interacted hands on its turn. */
    method Drop(c: KSMClient)
      requires Valid() && Has(c)
      modifies this, table.Values
      ensures Valid() && table == old(table) - {c.ident} && model == old(model).Drop(c.ident)
    {
      hide Valid, Server.WellFormed, Server.HandlePendingInteractions, Removed, Taken, Server.Drop;
      Fields();
      var interacted := clientInteracting == c;
      if clientInteracting != null { SameClient(c, clientInteracting); }
      DropIs(model, c.ident);
      RemoveClient(c);
      if interacted { HandlePendingInteractions(); }
    }

    method DeleteClient(c: KSMClient)
      requires Valid() && (Has(c) || c.ident !in table)
      modifies this, table.Values
      ensures Valid() && table == old(table) - {c.ident} && old(model).WellFormed()
      ensures model == old(model).DeleteClient(c.ident)
    {
      hide Valid, Server.WellFormed, Server.CompleteShutdownOrCheckpoint, Server.Drop, Server.ContinueKilling;
      Fields();
      IsConnected(c);
      if c !in clients { return; }
      Drop(c);
      Fields();
      OnlyInRound(model);
      if state == Shutdown || state == Checkpoint || state == ClosingSubSession { CompleteShutdownOrCheckpoint(); }
      ContinueKilling();
    }

    method ContinueKilling()
      requires Valid()
      modifies this`state, this`sent, this`clientsToSave, this`clientsToKill, this`model
      ensures Valid() && model == old(model).ContinueKilling()
    {
      hide Valid, Server.WellFormed, Server.CompleteKilling, Server.CompleteKillingSubSession, Server.CompleteKillingWM;
      Fields();
      if state == Killing {
        CompleteKilling();
      } else if state == KillingSubSession {
        CompleteKillingSubSession();
      }
      Fields();
      OnlyKillingWM(model);
      if state == KillingWM { CompleteKillingWM(); }
    }

    lemma IsConnected(c: KSMClient)
      requires Valid() && (Has(c) || c.ident !in table)
      ensures (c in clients <==> Has(c)) && (Has(c) <==> c.ident in model.clients)
    {
      if c in clients {
        var i :| 0 <= i < |clients| && clients[i] == c;
        ClientAt(i);
      }
      if c.ident in model.clients {
        var i :| 0 <= i < |model.clients| && model.clients[i] == c.ident;
        var d := clients[i];
        assert table[c.ident] == d;
      }
      if Has(c) {
        assert c.ident in model.clients;
        var i :| 0 <= i < |model.clients| && model.clients[i] == c.ident;
        var d := clients[i];
        assert table[c.ident] == d;
      }
    }

    // ---- interaction ----

    method HandlePendingInteractions()
      requires Valid()
      modifies this`clientInteracting, this`protectionTimer, this`sent, this`model, table.Values`pendingInteraction
      ensures Valid() && model == old(model).HandlePendingInteractions()
    {
      hide Valid, Has, Server.FirstPending, Server.WellFormed;
      Fields();
      if clientInteracting != null { return; }
      ghost var m, ids := model, model.clients;
      var i := 0;
      while i < |clients|
        invariant 0 <= i <= |clients| == |ids| && clientInteracting == null && model == m && Valid()
        invariant forall j :: 0 <= j < i && ids[j] in m.flags ==> !m.flags[ids[j]].pendingInteraction
      {
        var c := clients[i];
        ClientAt(i);
        Known(c);
        if c.pendingInteraction {
          FirstIs(m, ids, i);
          SetInteracting(c);
          SetPending(c, false);
          break;
        }
        i := i + 1;
      }
      Fields();
      if clientInteracting != null {
        EndProtection();
        Fields();
        Send(Interact(clientInteracting.ident));
      } else {
        FirstIs(m, ids, i);
        StartProtection();
      }
    }

    method InteractRequest(c: KSMClient)
      requires Valid() && Has(c)
      modifies this, table.Values
      ensures Valid() && table == old(table) && old(model).WellFormed() && c.ident in old(model).flags
      ensures model == old(model).InteractRequest(c.ident)
    {
      hide Valid, Has, Server.HandlePendingInteractions, Server.WellFormed;
      Fields();
      Known(c);
      if state == Shutdown || state == ClosingSubSession {
        SetPending(c, true);
      } else {
        Send(Interact(c.ident));
      }
      HandlePendingInteractions();
    }

    method InteractDone(c: KSMClient, cancel: bool)
      requires Valid() && Has(c)
      modifies this, table.Values
      ensures Valid() && table == old(table) && old(model).WellFormed() && c.ident in old(model).flags
      ensures model == old(model).InteractDone(c.ident, cancel)
    {
      hide Valid, Has, Server.HandlePendingInteractions, Server.CancelShutdown, Server.WellFormed;
      Fields();
      Known(c);
      if clientInteracting != null { SameClient(c, clientInteracting); }
      if c != clientInteracting { return; }
      SetInteracting(null);
      if cancel {
        CancelShutdown();
      } else {
        HandlePendingInteractions();
      }
    }

    method CancelOne(c: KSMClient)
      requires Valid() && Has(c)
      modifies this`sent, this`model
      ensures Valid() && c.ident in old(model).flags && model == OneCancelled(old(model), c.ident)
    {
      hide Valid, Has, Server.WellFormed;
      Known(c);
      Send(ShutdownCancelled(c.ident));
      SendNothing(model);
      if c.saveYourselfDone {
        var discard := c.props.DiscardCommand();
        if discard != [] { Send(RunCommand(discard)); }
      }
    }

    method TellCancelled()
      requires Valid()
      modifies this`sent, this`model
      ensures Valid() && old(model).WellFormed() && model == old(model).Send(old(model).CancelMessages(old(model).clients))
    {
      hide Valid, Has, OneCancelled, Server.CancelMessages;
      ghost var m, ids := model, model.clients;
      Fields();
      AllKnown(m);
      CancelStart(m, ids);
      for i := 0 to |clients|
        invariant Valid() && m.flags.Keys >= Elements(ids) && model == AllCancelled(m, ids[..i]) && model.clients == ids
      {
        ClientAt(i);
        CancelStep(m, ids, i);
        CancelOne(clients[i]);
      }
      assert ids[..|ids|] == ids;
    }

    method CancelShutdown()
      requires Valid()
      modifies this
      ensures Valid() && table == old(table) && old(model).WellFormed() && model == old(model).CancelShutdown()
    {
      hide Valid, Has, Server.WellFormed, Server.CancelMessages;
      Fields();
      SetInteracting(null);
      CancelSame(old(model), model);
      if state == ClosingSubSession {
        ClearSubSession();
        Send(SubSessionCloseCanceled);
      } else {
        TellCancelled();
      }
      Enter(Idle);
    }

    method ClearSubSession()
      requires Valid()
      modifies this`clientsToSave, this`clientsToKill, this`model
      ensures Valid() && model == old(model).(sub := NO_SUB)
    {
      hide Valid;
      NoneListed();
      SetSubSession([], [], NO_SUB);
    }

    lemma NoneListed()
      ensures Listed([], []) && NoRepeats([])
    {
    }

    // ---- completing a round ----

    method ProtectionTimeout()
      requires Valid()
      modifies this, table.Values
      ensures Valid() && table == old(table) && old(model).WellFormed() && model == old(model).ProtectionTimeout()
    {
      hide Valid, Has, Server.WellFormed, Server.CompleteShutdownOrCheckpoint, GiveUp;
      Fields();
      EndProtection();  // the timer is single shot
      if (state != Shutdown && state != Checkpoint && state != ClosingSubSession) || clientInteracting != null { return; }
      GiveUpOnClients();
      Fields();
      CompleteShutdownOrCheckpoint();
      StartProtection();
    }

    method GiveUpOn(c: KSMClient)
      requires Valid() && Has(c)
      modifies c`saveYourselfDone, this`model
      ensures Valid() && model == OneGivenUp(old(model), c.ident)
    {
      hide Valid, Has, Server.WellFormed;
      Known(c);
      if !c.saveYourselfDone && !c.waitForPhase2 { MarkDone(c); }
    }

    method GiveUpOnClients()
      requires Valid()
      modifies table.Values`saveYourselfDone, this`model
      ensures Valid() && model == AllGivenUp(old(model), old(model).clients)
    {
      hide Valid, Has, OneGivenUp, AllGivenUp, Server.WellFormed, Scalars;
      Fields();
      ghost var m, ids := model, model.clients;
      GiveUpStart(m, ids);
      for i := 0 to |clients|
        invariant Valid() && model == AllGivenUp(m, ids[..i]) && model.clients == ids
      {
        ClientAt(i);
        Known(clients[i]);
        GiveUpStep(m, ids, i);
        GiveUpOn(clients[i]);
      }
      assert ids[..|ids|] == ids;
    }

    /** The i-th client of a list. */
    lemma ListedAt(cs: seq<KSMClient>, ids: seq<ClientId>, i: nat)
      requires Valid() && Listed(cs, ids) && i < |cs|
      ensures |cs| == |ids| && Has(cs[i]) && cs[i].ident == ids[i]
    {
      var c := cs[i];
      assert ids[i] in table && table[ids[i]] == c;
    }

    lemma ListedSize(cs: seq<KSMClient>, ids: seq<ClientId>)
      requires Listed(cs, ids)
      ensures |cs| == |ids|
    {
    }

    method AllReported(cs: seq<KSMClient>, ghost ids: seq<ClientId>) returns (all: bool)
      requires Valid() && Listed(cs, ids)
      ensures all <==> forall i :: 0 <= i < |ids| ==> model.Reported(ids[i])
    {
      hide Valid, Has, Listed;
      ListedSize(cs, ids);
      for i := 0 to |cs|
        invariant forall j :: 0 <= j < i ==> model.Reported(ids[j])
      {
        var c := cs[i];
        ListedAt(cs, ids, i);
        Known(c);
        if !c.saveYourselfDone && !c.waitForPhase2 {
          assert !model.Reported(ids[i]);
          return false;
        }
      }
      return true;
    }

    method StartPhase2Of(c: KSMClient) returns (waits: bool)
      requires Valid() && Has(c)
      modifies c`waitForPhase2, this`sent, this`model
      ensures Valid() && model == OneInPhase2(old(model), c.ident) && waits == old(model).Addressed(Phase2Waiters, c.ident)
    {
      hide Valid, Has, Server.WellFormed;
      Known(c);
      waits := !c.saveYourselfDone && c.waitForPhase2;
      if waits {
        StopWaiting(c);
        Send(SaveYourselfPhase2(c.ident));
      }
    }

    method StartPhase2(cs: seq<KSMClient>, ghost ids: seq<ClientId>) returns (waitForPhase2: bool)
      requires Valid() && Listed(cs, ids) && NoRepeats(ids)
      modifies table.Values`waitForPhase2, this`sent, this`model
      ensures Valid()
      ensures var second := old(model).Select(Phase2Waiters, ids);
        && waitForPhase2 == (second != [])
        && model == old(model).(flags := ClearWait(old(model).flags, second)).Send(old(model).Phase2Messages(second))
    {
      hide Valid, Has, Listed, OneInPhase2, NoRepeats, Server.Select, Server.Addressed, ClearWait, Server.Phase2Messages;
      ListedSize(cs, ids);
      ghost var m := model;
      Phase2Start(m, ids);
      waitForPhase2 := false;
      for i := 0 to |cs|
        invariant Valid() && model == AllInPhase2(m, ids[..i])
        invariant waitForPhase2 == (m.Select(Phase2Waiters, ids[..i]) != [])
      {
        ListedAt(cs, ids, i);
        Known(cs[i]);
        Phase2Step(m, ids, i);
        var waits := StartPhase2Of(cs[i]);
        waitForPhase2 := waitForPhase2 || waits;
      }
      assert ids[..|ids|] == ids;
    }

    lemma PendingListed()
      requires Valid()
      ensures Listed(if state == ClosingSubSession then clientsToSave else clients, model.Pending())
      ensures NoRepeats(model.Pending())
    {
    }

    method CompleteShutdownOrCheckpoint()
      requires Valid()
      modifies this, table.Values
      ensures Valid() && table == old(table) && old(model).WellFormed()
      ensures model == old(model).CompleteShutdownOrCheckpoint() && Completion(old(model), model)
    {
      hide Valid, Has, Listed, Server.WellFormed, NoRepeats, Server.Select, ClearWait, Server.StoreOrDiscard,
        Server.AfterSave, Server.Pending, Server.Reported, Server.Phase2Messages, Completion;
      Fields();
      CompletionIs(model);
      if state != Shutdown && state != Checkpoint && state != ClosingSubSession { return; }
      var pendingClients := if state == ClosingSubSession then clientsToSave else clients;
      PendingListed();
      var all := AllReported(pendingClients, model.Pending());
      if !all { return; }
      var waitForPhase2 := StartPhase2(pendingClients, model.Pending());
      if waitForPhase2 { return; }
      NoPhase2(old(model));
      EndRound();
    }

    method EndRound()
      requires Valid()
      modifies this`state, this`sent, this`clients, this`clientsToSave, this`clientsToKill, this`config, this`model
      ensures Valid() && old(model).WellFormed() && model == old(model).StoreOrDiscard().AfterSave()
    {
      hide Valid, Server.WellFormed, Server.StoreSession, Server.DiscardSession, Server.AfterSave;
      Fields();
      if saveSession {
        StoreSession();
      } else {
        DiscardSession();
      }
      AfterSave();
    }

    method AfterSave()
      requires Valid()
      modifies this`state, this`sent, this`clientsToSave, this`clientsToKill, this`model
      ensures Valid() && model == old(model).AfterSave()
    {
      hide Valid, Server.WellFormed, Server.StartKillingSubSession, Server.SaveCompletes;
      Fields();
      if state == Shutdown {
        Enter(WaitingForKNotify);
      } else if state == Checkpoint {
        TellSaveComplete();
        Enter(Idle);
      } else {
        StartKillingSubSession();
      }
    }

    method TellSaveComplete()
      requires Valid()
      modifies this`sent, this`model
      ensures Valid() && model == old(model).Send(old(model).SaveCompletes(old(model).clients))
    {
      hide Valid, Has, Server.WellFormed, Server.SaveCompletes;
      Fields();
      ghost var m, ids := model, model.clients;
      CompleteStart(m, ids);
      for i := 0 to |clients|
        invariant Valid() && model == AllComplete(m, ids[..i]) && model.clients == ids
      {
        ClientAt(i);
        CompleteStep(m, ids, i);
        Send(SaveComplete(clients[i].ident));
      }
      assert ids[..|ids|] == ids;
    }

    // ---- killing ----

    method TellToDie(cs: seq<KSMClient>, ghost ids: seq<ClientId>, who: Who) returns (any: bool)
      requires Valid() && Listed(cs, ids) && who != Phase2Waiters
      modifies this`sent, this`model
      ensures Valid() && any == (old(model).Select(who, ids) != [])
      ensures model == old(model).Send(old(model).DieMessages(old(model).Select(who, ids)))
    {
      hide Valid, Has, Listed, OneKilled, Server.Select, Server.DieMessages;
      ListedSize(cs, ids);
      ghost var m := model;
      KillStart(m, who, ids);
      any := false;
      for i := 0 to |cs|
        invariant Valid() && model == AllKilled(m, who, ids[..i]) && any == (m.Select(who, ids[..i]) != [])
      {
        ListedAt(cs, ids, i);
        KillStep(m, who, ids, i);
        var addressed := KillOne(cs[i], who);
        any := any || addressed;
      }
      assert ids[..|ids|] == ids;
    }

    method KillOne(c: KSMClient, who: Who) returns (addressed: bool)
      requires Valid() && Has(c) && who != Phase2Waiters
      modifies this`sent, this`model
      ensures Valid() && model == OneKilled(old(model), who, c.ident) && addressed == old(model).Addressed(who, c.ident)
    {
      hide Valid, Has;
      Known(c);
      SendNothing(model);
      addressed := who == Everyone || (who == WindowManagers && IsWM(c)) || (who == Others && !IsWM(c));
      if addressed { Send(Die(c.ident)); }
    }

    /** Whether any client of the list is not a window manager. */
    method WaitFor(cs: seq<KSMClient>, ghost ids: seq<ClientId>) returns (wait: bool)
      requires Valid() && Listed(cs, ids)
      ensures wait == (model.Select(Others, ids) != [])
    {
      hide Valid, Has, Listed, Server.Select;
      ListedSize(cs, ids);
      KillStart(model, Others, ids);
      wait := false;
      for i := 0 to |cs|
        invariant wait == (model.Select(Others, ids[..i]) != [])
      {
        ListedAt(cs, ids, i);
        Known(cs[i]);
        KillStep(model, Others, ids, i);
        if !IsWM(cs[i]) { wait := true; }
      }
      assert ids[..|ids|] == ids;
    }

    lemma ClientsListed()
      requires Valid()
      ensures Listed(clients, model.clients) && Listed(clientsToKill, model.sub.toKill)
    {
    }

    method LogoutSoundFinished()
      requires Valid()
      modifies this`state, this`sent, this`model
      ensures Valid() && model == old(model).LogoutSoundFinished()
    {
      hide Valid, Listed, Server.WellFormed, Server.Select, Server.CompleteKilling, Server.DieMessages;
      Fields();
      if state != WaitingForKNotify { return; }
      ghost var m := model;
      Enter(Killing);
      ClientsListed();
      SelectSame(m, model, Others, m.clients);
      SameDie(m, model, m.Select(Others, m.clients));
      var _ := TellToDie(clients, model.clients, Others);
      CompleteKilling();
    }

    method CompleteKilling()
      requires Valid()
      modifies this`state, this`sent, this`model
      ensures Valid() && model == old(model).CompleteKilling()
    {
      hide Valid, Listed, Server.WellFormed, Server.Select, Server.KillWM;
      Fields();
      if state == Killing {
        ClientsListed();
        var wait := WaitFor(clients, model.clients);
        if wait { return; }
        KillWM();
      }
    }

    method KillWM()
      requires Valid()
      modifies this`state, this`sent, this`model
      ensures Valid() && model == old(model).KillWM()
    {
      hide Valid, Listed, Server.WellFormed, Server.Select, Server.DieMessages, Server.CompleteKillingWM;
      Fields();
      if state != Killing { return; }
      ghost var m := model;
      Enter(KillingWM);
      ClientsListed();
      SelectSame(m, model, WindowManagers, m.clients);
      SameDie(m, model, m.Select(WindowManagers, m.clients));
      NoDie(model);
      var iswm := TellToDie(clients, model.clients, WindowManagers);
      if iswm {
        CompleteKillingWM();
      } else {
        Send(Quit);
      }
    }

    method CompleteKillingWM()
      requires Valid()
      modifies this`sent, this`model
      ensures Valid() && model == old(model).CompleteKillingWM()
    {
      hide Valid, Listed, Server.WellFormed;
      Fields();
      if state == KillingWM && clients == [] { Send(Quit); }
    }

    method KillTimeout()
      requires Valid()
      modifies this`state, this`sent, this`model
      ensures Valid() && model == old(model).KillTimeout()
    {
      hide Valid, Server.KillWM;
      KillWM();
    }

    method WmKillTimeout()
      requires Valid()
      modifies this`sent, this`model
      ensures Valid() && model == old(model).WmKillTimeout()
    {
      hide Valid;
      Send(Quit);
    }

    method StartKillingSubSession()
      requires Valid()
      modifies this`state, this`sent, this`clientsToSave, this`clientsToKill, this`model
      ensures Valid() && model == old(model).StartKillingSubSession()
    {
      hide Valid, Listed, Server.WellFormed, Server.Select, Server.DieMessages, Server.CompleteKillingSubSession;
      ghost var m := model;
      Enter(KillingSubSession);
      ClientsListed();
      SelectEveryone(model, m.sub.toKill);
      SameDie(m, model, m.sub.toKill);
      var _ := TellToDie(clientsToKill, model.sub.toKill, Everyone);
      CompleteKillingSubSession();
    }

    method CompleteKillingSubSession()
      requires Valid()
      modifies this`state, this`sent, this`clientsToSave, this`clientsToKill, this`model
      ensures Valid() && model == old(model).CompleteKillingSubSession()
    {
      hide Valid, Listed, Server.WellFormed, Server.Select, Server.SignalSubSessionClosed;
      Fields();
      if state == KillingSubSession {
        ClientsListed();
        var wait := WaitFor(clientsToKill, model.sub.toKill);
        if wait { return; }
        SignalSubSessionClosed();
      }
    }

    method SignalSubSessionClosed()
      requires Valid()
      modifies this`state, this`sent, this`clientsToSave, this`clientsToKill, this`model
      ensures Valid() && model == old(model).SignalSubSessionClosed()
    {
      hide Valid, Listed, Server.WellFormed;
      Fields();
      if state != KillingSubSession { return; }
      ClearSubSession();
      Enter(Idle);
      Send(SubSessionClosed);
    }

    // ---- storing and discarding ----

    /** Whether some client's discard command is this one. */
    method Uses(command: Command) returns (used: bool)
      requires Valid()
      ensures used <==> InUse(model, command)
    {
      hide Valid, Has;
      Fields();
      for i := 0 to |clients|
        invariant forall j :: 0 <= j < i ==> !Discards(model, model.clients[j], command)
      {
        ClientAt(i);
        Known(clients[i]);
        if clients[i].props.DiscardCommand() == command {
          assert Discards(model, model.clients[i], command);
          return true;
        }
      }
      return false;
    }

    method RunOldDiscards(g: Group)
      requires Valid()
      modifies this`sent, this`model
      ensures Valid() && model == old(model).Send(old(model).OldDiscards(g, g.count))
    {
      hide Valid, Server.OldDiscards, OneOldDiscard, InUse;
      ghost var m := model;
      OldDiscardsStart(m, g);
      for i := 0 to g.count
        invariant Valid() && model == AllOldDiscards(m, g, i)
      {
        OldDiscardsStep(m, g, i);
        RunOldDiscard(g.Read(i + 1).discardCommand);
      }
    }

    method RunOldDiscard(command: Command)
      requires Valid()
      modifies this`sent, this`model
      ensures Valid() && model == OneOldDiscard(old(model), command)
    {
      hide Valid, InUse;
      SendNothing(model);
      if command == [] { return; }
      var used := Uses(command);
      if used { return; }
      Send(RunCommand(command));
    }

    /** Puts the first client with the window manager's program in front; each client is listed once. */
    method PutWmFirst()
      requires Valid()
      modifies this`clients, this`model
      ensures Valid() && old(model).WellFormed()
      ensures model == old(model).(clients := WmFirst(old(model).clients, old(model).fixed.props, wm))
    {
      hide Valid, Has, Server.WellFormed, WmFirst, Properties.Program;
      Fields();
      ghost var m, ids := model, model.clients;
      WmFirstKnown(m);
      for i := 0 to |clients|
        invariant Valid() && model == m && |clients| == |ids|
        invariant forall j :: 0 <= j < i ==> m.fixed.props[ids[j]].Program() != wm
      {
        ClientAt(i);
        Known(clients[i]);
        if clients[i].props.Program() == wm {
          WmFirstIs(m, i);
          MoveToFront(i);
          return;
        }
      }
      WmFirstIs(m, |ids|);
    }

    method MoveToFront(k: nat)
      requires Valid() && k < |clients|
      modifies this`clients, this`model
      ensures Valid() && k < |old(model).clients|
      ensures var ids := old(model).clients; model == old(model).(clients := [ids[k]] + ids[..k] + ids[k + 1..])
    {
      hide Connected, Flagged, Interacts, Server.WellFormed;
      ghost var ids := model.clients;
      ghost var front := [ids[k]] + ids[..k] + ids[k + 1..];
      MovedToFrontNoRepeats(ids, k);
      MovedWellFormed(model, k);
      clients := [clients[k]] + clients[..k] + clients[k + 1..];
      model := model.(clients := front);
      assert Listed(clients, front) by {
        forall i | 0 <= i < |front| ensures front[i] in table && table[front[i]] == clients[i] {
          ghost var j := if i == 0 then k else if i <= k then i - 1 else i;
          assert front[i] == ids[j] && clients[i] == old(clients)[j];
        }
      }
    }

    method StoreSession()
      requires Valid()
      modifies this`clients, this`config, this`sent, this`model
      ensures Valid() && old(model).WellFormed() && model == old(model).StoreSession()
      ensures StoresSession(old(model), model)
    {
      hide Valid, Server.WellFormed, Server.OldDiscards, WmFirst, Server.OldGroup, Server.StoreSession, Entries, StoresSession, WritesAll;
      Fields();
      StoringIs(model);
      ghost var m := model;
      var g := if sessionGroup in config then config[sessionGroup] else EMPTY_GROUP;
      GroupIs(m, g);
      RunOldDiscards(g);
      Fields();
      if state != ClosingSubSession { PutWmFirst(); }
      var group := WriteEntries();
      StoredIs(m, model, group);
      Fields();
      SetConfig(config[sessionGroup := group]);
      Send(Stored);
    }

    method SetConfig(config: map<string, Group>)
      requires Valid()
      modifies this`config, this`model
      ensures Valid() && model == old(model).(saving := old(model).saving.(config := config))
    {
      hide Listed, Connected, Flagged, Interacts, Distinct, Server.WellFormed;
      SameLists(model, model.(saving := model.saving.(config := config)));
      this.config := config;
      model := model.(saving := model.saving.(config := config));
    }

    method Contains(cs: seq<KSMClient>, ghost ids: seq<ClientId>, c: KSMClient) returns (found: bool)
      requires Valid() && Listed(cs, ids) && Has(c)
      ensures found <==> c.ident in ids
    {
      hide Valid, Has, Listed;
      ListedSize(cs, ids);
      for i := 0 to |cs|
        invariant forall j :: 0 <= j < i ==> ids[j] != c.ident
      {
        ListedAt(cs, ids, i);
        SameClient(cs[i], c);
        if cs[i] == c { return true; }
      }
      return false;
    }

    lemma SaveListed()
      requires Valid()
      ensures Listed(clientsToSave, model.sub.toSave)
    {
    }

    method Keep(c: KSMClient) returns (keep: bool)
      requires Valid() && Has(c)
      ensures c.ident in model.fixed.props && keep == Kept(model, c.ident)
    {
      hide Valid, Has, Listed;
      Fields();
      Known(c);
      SaveListed();
      if c.props.RestartStyleHint() == SM_RESTART_NEVER { return false; }
      if c.props.Program() == "" && c.props.RestartCommand() == [] { return false; }
      if state == ClosingSubSession {
        var saved := Contains(clientsToSave, model.sub.toSave, c);
        if !saved { return false; }
      }
      keep := !(Lower(c.props.Program()) in excludeApps || Lower(FileName(c.props.Program())) in excludeApps);
    }

    method WriteEntries() returns (group: Group)
      requires Valid()
      ensures model.WellFormed() && group == Entries(model, model.clients)
      ensures WritesAll(model, group)
    {
      hide Valid, Has, Server.WellFormed, Entries, Kept, EntryFor, WritesAll;
      Fields();
      ghost var ids := model.clients;
      EntriesStart(model, ids);
      group := EMPTY_GROUP;
      for i := 0 to |clients|
        invariant group == Entries(model, ids[..i])
      {
        var c := clients[i];
        ClientAt(i);
        Known(c);
        EntriesStep(model, ids, i);
        var keep := Keep(c);
        if keep {
          var count := group.count + 1;
          group := Group(count, group.entries[count := EntryFor(c.props, wm)]);
        }
      }
      assert ids[..|ids|] == ids;
      EntriesWritten(model);
    }

    method DiscardSession()
      requires Valid()
      modifies this`sent, this`model
      ensures Valid() && old(model).WellFormed() && model == old(model).DiscardSession()
    {
      hide Valid, Has, Server.WellFormed, AllDiscarded, OneDiscarded, Server.DiscardCommands, Server.OldGroup;
      Fields();
      var g := if sessionGroup in config then config[sessionGroup] else EMPTY_GROUP;
      ghost var m, ids := model, model.clients;
      GroupIs(m, g);
      DiscardStart(m, g, ids);
      for i := 0 to |clients|
        invariant Valid() && model == AllDiscarded(m, g, ids[..i]) && model.clients == ids
      {
        ClientAt(i);
        DiscardStep(m, g, ids, i);
        DiscardOne(clients[i], g);
      }
      assert ids[..|ids|] == ids;
      Send(Discarded);
      AllDiscardedIs(m, g, ids);
    }

    method DiscardOne(c: KSMClient, g: Group)
      requires Valid() && Has(c)
      modifies this`sent, this`model
      ensures Valid() && model == OneDiscarded(old(model), g, c.ident)
    {
      hide Valid, Has, Group.Read, Properties.DiscardCommand;
      Known(c);
      SendNothing(model);
      var discardCommand := c.props.DiscardCommand();
      if discardCommand == [] { return; }
      var i := 1;
      while i <= g.count && g.Read(i).discardCommand != discardCommand
        invariant 1 <= i <= g.count + 1
        invariant forall n :: 1 <= n < i ==> g.Read(n).discardCommand != discardCommand
      {
        i := i + 1;
      }
      if i <= g.count { Send(RunCommand(discardCommand)); }
    }

    // ---- proving a change of flags ----

    lemma FlaggedAfter(c: KSMClient, f: Flags, flags: map<ClientId, Flags>)
      requires Has(c) && c.State() == f && Connected(model.fixed.props) && table.Keys == flags.Keys
      requires forall d {:trigger table[d]} :: d in table && table[d] != c ==> table[d].State() == flags[d]
      ensures Flagged(flags[c.ident := f])
    {
    }
  }

  lemma FlagSet(s: Server, c: ClientId, f: Flags)
    requires s.WellFormed() && c in s.flags
    ensures s.(flags := s.flags[c := f]).WellFormed()
  {
  }

  lemma TurnSet(s: Server, holder: Option<ClientId>)
    requires s.WellFormed() && (holder.Some? ==> holder.value in s.flags)
    ensures s.(interacting := holder).WellFormed()
  {
  }

  lemma SameLists(s: Server, t: Server)
    requires s.WellFormed() && t.clients == s.clients && t.flags == s.flags && t.fixed == s.fixed
    requires t.sub == s.sub && t.interacting == s.interacting
    ensures t.WellFormed()
  {
  }

  // ---- how the loops go on ----

  ghost function OneReset(s: Server, c: ClientId): Server {
    s.(flags := s.flags[c := FRESH], wmWaiting := s.wmWaiting + if s.IsWM(c) then 1 else 0)
  }

  ghost function AllReset(s: Server, ids: seq<ClientId>): Server {
    s.(flags := ResetFlags(s.flags, ids), wmWaiting := s.CountWMs(ids))
  }

  lemma ResetStart(s: Server, ids: seq<ClientId>)
    ensures AllReset(s, ids[..0]) == s.(wmWaiting := 0)
  {
  }

  lemma ResetStep(s: Server, ids: seq<ClientId>, i: nat)
    requires i < |ids|
    ensures AllReset(s, ids[..i + 1]) == OneReset(AllReset(s, ids[..i]), ids[i])
    ensures AllReset(s, ids[..i + 1]).clients == s.clients
  {
    assert ids[..i + 1][..i] == ids[..i];
  }

  ghost function OneAsked(s: Server, who: Who, c: ClientId): Server {
    s.Send(if s.Addressed(who, c) then [s.SaveMessage(c)] else [])
  }

  ghost function AllAsked(s: Server, who: Who, ids: seq<ClientId>): Server {
    s.Send(s.SaveMessages(s.Select(who, ids)))
  }

  lemma SendNothing(s: Server)
    ensures s.Send([]) == s
  {
  }

  lemma AskStart(s: Server, who: Who, ids: seq<ClientId>)
    ensures AllAsked(s, who, ids[..0]) == s
  {
  }

  lemma AskStep(s: Server, who: Who, ids: seq<ClientId>, i: nat)
    requires i < |ids|
    ensures AllAsked(s, who, ids[..i + 1]) == OneAsked(AllAsked(s, who, ids[..i]), who, ids[i])
    ensures AllAsked(s, who, ids[..i + 1]).clients == s.clients
  {
    assert ids[..i + 1][..i] == ids[..i];
    assert s.Select(who, ids[..i]) + [] == s.Select(who, ids[..i]);
  }

  // ---- giving up on clients, phase 2, the end of a checkpoint, killing ----

  ghost function OneGivenUp(s: Server, c: ClientId): Server {
    if c in s.flags && !s.flags[c].saveYourselfDone && !s.flags[c].waitForPhase2
    then s.(flags := s.flags[c := s.flags[c].(saveYourselfDone := true)]) else s
  }

  ghost function AllGivenUp(s: Server, ids: seq<ClientId>): Server { s.(flags := GiveUp(s.flags, ids)) }

  lemma GiveUpStart(s: Server, ids: seq<ClientId>)
    ensures AllGivenUp(s, ids[..0]) == s
  {
  }

  lemma GiveUpStep(s: Server, ids: seq<ClientId>, i: nat)
    requires i < |ids|
    ensures AllGivenUp(s, ids[..i + 1]) == OneGivenUp(AllGivenUp(s, ids[..i]), ids[i])
    ensures AllGivenUp(s, ids[..i + 1]).clients == s.clients
  {
    assert ids[..i + 1][..i] == ids[..i];
  }

  ghost function OneInPhase2(s: Server, c: ClientId): Server {
    if s.Addressed(Phase2Waiters, c)
    then s.(flags := s.flags[c := s.flags[c].(waitForPhase2 := false)]).Send([SaveYourselfPhase2(c)]) else s
  }

  ghost function AllInPhase2(s: Server, ids: seq<ClientId>): Server {
    var second := s.Select(Phase2Waiters, ids);
    s.(flags := ClearWait(s.flags, second)).Send(s.Phase2Messages(second))
  }

  lemma Phase2Start(s: Server, ids: seq<ClientId>)
    ensures AllInPhase2(s, ids[..0]) == s && s.Select(Phase2Waiters, ids[..0]) == []
  {
  }

  lemma Phase2Step(s: Server, ids: seq<ClientId>, i: nat)
    requires i < |ids| && NoRepeats(ids)
    ensures AllInPhase2(s, ids[..i + 1]) == OneInPhase2(AllInPhase2(s, ids[..i]), ids[i])
    ensures s.Addressed(Phase2Waiters, ids[i]) == AllInPhase2(s, ids[..i]).Addressed(Phase2Waiters, ids[i])
    ensures (s.Select(Phase2Waiters, ids[..i + 1]) != []) ==
            (s.Select(Phase2Waiters, ids[..i]) != [] || s.Addressed(Phase2Waiters, ids[i]))
  {
    assert ids[..i + 1][..i] == ids[..i];
    var before := s.Select(Phase2Waiters, ids[..i]);
    assert ids[i] !in before;
    if s.Addressed(Phase2Waiters, ids[i]) {
      assert (before + [ids[i]])[..|before|] == before;
      assert s.Phase2Messages(before + [ids[i]]) == s.Phase2Messages(before) + [SaveYourselfPhase2(ids[i])];
      assert s.sent + (s.Phase2Messages(before) + [SaveYourselfPhase2(ids[i])])
          == s.sent + s.Phase2Messages(before) + [SaveYourselfPhase2(ids[i])];
    }
  }

  lemma NoPhase2(s: Server)
    ensures s.(flags := ClearWait(s.flags, [])).Send(s.Phase2Messages([])) == s
  {
  }

  ghost function AllComplete(s: Server, ids: seq<ClientId>): Server { s.Send(s.SaveCompletes(ids)) }

  lemma CompleteStart(s: Server, ids: seq<ClientId>)
    ensures AllComplete(s, ids[..0]) == s
  {
  }

  lemma CompleteStep(s: Server, ids: seq<ClientId>, i: nat)
    requires i < |ids|
    ensures AllComplete(s, ids[..i + 1]) == AllComplete(s, ids[..i]).Send([SaveComplete(ids[i])])
    ensures AllComplete(s, ids[..i + 1]).clients == s.clients
  {
    assert s.SaveCompletes(ids[..i + 1]) == s.SaveCompletes(ids[..i]) + [SaveComplete(ids[i])];
  }

  ghost function OneKilled(s: Server, who: Who, c: ClientId): Server {
    s.Send(if s.Addressed(who, c) then [Die(c)] else [])
  }

  ghost function AllKilled(s: Server, who: Who, ids: seq<ClientId>): Server {
    s.Send(s.DieMessages(s.Select(who, ids)))
  }

  lemma KillStart(s: Server, who: Who, ids: seq<ClientId>)
    ensures AllKilled(s, who, ids[..0]) == s && s.Select(who, ids[..0]) == []
  {
  }

  lemma KillStep(s: Server, who: Who, ids: seq<ClientId>, i: nat)
    requires i < |ids| && who != Phase2Waiters
    ensures AllKilled(s, who, ids[..i + 1]) == OneKilled(AllKilled(s, who, ids[..i]), who, ids[i])
    ensures s.Addressed(who, ids[i]) == AllKilled(s, who, ids[..i]).Addressed(who, ids[i])
    ensures (s.Select(who, ids[..i + 1]) != []) == (s.Select(who, ids[..i]) != [] || s.Addressed(who, ids[i]))
  {
    assert ids[..i + 1][..i] == ids[..i];
    assert s.Select(who, ids[..i]) + [] == s.Select(who, ids[..i]);
  }

  lemma SameDie(s: Server, t: Server, ids: seq<ClientId>)
    ensures s.DieMessages(ids) == t.DieMessages(ids)
  {
  }

  lemma NoDie(s: Server)
    ensures s.Send(s.DieMessages([])) == s
  {
  }

  lemma {:induction false} SelectEveryone(s: Server, ids: seq<ClientId>)
    ensures s.Select(Everyone, ids) == ids
  {
    if ids != [] {
      var rest, c := ids[..|ids| - 1], ids[|ids| - 1];
      SelectEveryone(s, rest);
      assert s.Select(Everyone, ids) == s.Select(Everyone, rest) + [c] by { assert s.Addressed(Everyone, c); }
      assert ids == rest + [c];
    }
  }

  // ---- storing and discarding ----

  ghost predicate Discards(s: Server, c: ClientId, command: Command) {
    c in s.fixed.props && s.fixed.props[c].DiscardCommand() == command
  }

  ghost predicate InUse(s: Server, command: Command) {
    exists i :: 0 <= i < |s.clients| && Discards(s, s.clients[i], command)
  }

  ghost function OneOldDiscard(s: Server, command: Command): Server {
    s.Send(if command == [] || InUse(s, command) then [] else [RunCommand(command)])
  }

  ghost function AllOldDiscards(s: Server, g: Group, n: nat): Server { s.Send(s.OldDiscards(g, n)) }

  lemma OldDiscardsStart(s: Server, g: Group)
    ensures AllOldDiscards(s, g, 0) == s
  {
  }

  lemma OldDiscardsStep(s: Server, g: Group, n: nat)
    ensures AllOldDiscards(s, g, n + 1) == OneOldDiscard(AllOldDiscards(s, g, n), g.Read(n + 1).discardCommand)
  {
    var command := g.Read(n + 1).discardCommand;
    assert InUse(AllOldDiscards(s, g, n), command) == InUse(s, command);
    assert InUse(s, command) <==>
      exists i :: 0 <= i < |s.clients| && s.clients[i] in s.fixed.props
                  && s.fixed.props[s.clients[i]].DiscardCommand() == command by {
      if InUse(s, command) {
        var i :| 0 <= i < |s.clients| && Discards(s, s.clients[i], command);
      }
      if i :| 0 <= i < |s.clients| && s.clients[i] in s.fixed.props
              && s.fixed.props[s.clients[i]].DiscardCommand() == command {
        assert Discards(s, s.clients[i], command);
      }
    }
    assert s.OldDiscards(g, n) + [] == s.OldDiscards(g, n);
  }

  lemma WmFirstKnown(s: Server)
    requires s.WellFormed()
    ensures forall i :: 0 <= i < |s.clients| ==> s.clients[i] in s.fixed.props
  {
  }

  lemma WmFirstIs(s: Server, k: nat)
    requires s.WellFormed() && forall i :: 0 <= i < |s.clients| ==> s.clients[i] in s.fixed.props
    requires k <= |s.clients| && (k < |s.clients| ==> s.fixed.props[s.clients[k]].Program() == s.fixed.wm)
    requires forall j :: 0 <= j < k ==> s.fixed.props[s.clients[j]].Program() != s.fixed.wm
    ensures WmFirst(s.clients, s.fixed.props, s.fixed.wm) ==
      if k == |s.clients| then s.clients else [s.clients[k]] + s.clients[..k] + s.clients[k + 1..]
  {
    hide Properties.Program;
  }

  lemma MovedWellFormed(s: Server, k: nat)
    requires s.WellFormed() && k < |s.clients|
    ensures s.(clients := [s.clients[k]] + s.clients[..k] + s.clients[k + 1..]).WellFormed()
  {
    var ids := s.clients;
    assert ids == ids[..k] + [ids[k]] + ids[k + 1..];
  }

  lemma GroupIs(s: Server, g: Group)
    requires g == if s.saving.sessionGroup in s.saving.config then s.saving.config[s.saving.sessionGroup] else EMPTY_GROUP
    ensures s.OldGroup() == g
  {
  }

  /** Whether the session's entries include the client. */
  ghost predicate Kept(s: Server, c: ClientId)
    requires c in s.fixed.props
  {
    (s.phase == ClosingSubSession ==> c in s.sub.toSave) && Storable(s.fixed.props[c], s.fixed.excludeApps)
  }

  ghost function Entries(s: Server, ids: seq<ClientId>): Group
    requires forall i :: 0 <= i < |ids| ==> ids[i] in s.fixed.props
  {
    var chosen := if s.phase == ClosingSubSession then s.InBoth(ids, s.sub.toSave) else ids;
    ChosenKnown(s, ids, chosen);
    Numbered(EntriesFor(StoredIds(chosen, s.fixed.props, s.fixed.excludeApps), s.fixed.props, s.fixed.wm))
  }

  lemma ChosenKnown(s: Server, ids: seq<ClientId>, chosen: seq<ClientId>)
    requires forall i :: 0 <= i < |ids| ==> ids[i] in s.fixed.props
    requires chosen == if s.phase == ClosingSubSession then s.InBoth(ids, s.sub.toSave) else ids
    ensures forall i :: 0 <= i < |chosen| ==> chosen[i] in s.fixed.props
    ensures forall i :: 0 <= i < |StoredIds(chosen, s.fixed.props, s.fixed.excludeApps)| ==>
      StoredIds(chosen, s.fixed.props, s.fixed.excludeApps)[i] in s.fixed.props
  {
    forall i | 0 <= i < |chosen| ensures chosen[i] in s.fixed.props {
      assert chosen[i] in chosen;
    }
    var stored := StoredIds(chosen, s.fixed.props, s.fixed.excludeApps);
    forall i | 0 <= i < |stored| ensures stored[i] in s.fixed.props {
      assert stored[i] in stored;
      assert stored[i] in chosen;
    }
  }

  lemma EntriesStart(s: Server, ids: seq<ClientId>)
    requires s.WellFormed() && ids == s.clients
    ensures (forall i :: 0 <= i < |ids| ==> ids[i] in s.fixed.props) && Entries(s, ids[..0]) == EMPTY_GROUP
  {
  }

  lemma EntriesStep(s: Server, ids: seq<ClientId>, i: nat)
    requires (forall i :: 0 <= i < |ids| ==> ids[i] in s.fixed.props) && i < |ids|
    ensures var g := Entries(s, ids[..i]);
      Entries(s, ids[..i + 1]) ==
        if Kept(s, ids[i]) then Group(g.count + 1, g.entries[g.count + 1 := EntryFor(s.fixed.props[ids[i]], s.fixed.wm)]) else g
  {
    hide Numbered, EntriesFor, StoredIds, EntryFor, Storable;
    var c, o := ids[i], s.sub.toSave;
    assert ids[..i + 1][..i] == ids[..i];
    var before := if s.phase == ClosingSubSession then s.InBoth(ids[..i], o) else ids[..i];
    var after := if s.phase == ClosingSubSession then s.InBoth(ids[..i + 1], o) else ids[..i + 1];
    ChosenKnown(s, ids[..i], before);
    ChosenKnown(s, ids[..i + 1], after);
    if s.phase == ClosingSubSession && c !in o {
      assert after == before;
    } else {
      assert after == before + [c];
      OneMoreStored(before, c, s.fixed.props, s.fixed.excludeApps, s.fixed.wm);
    }
  }

  lemma OneMoreStored(ids: seq<ClientId>, c: ClientId, props: map<ClientId, Properties>, excluded: set<string>, wm: string)
    requires c in props && forall i :: 0 <= i < |ids| ==> ids[i] in props
    requires forall i :: 0 <= i < |StoredIds(ids, props, excluded)| ==> StoredIds(ids, props, excluded)[i] in props
    requires forall i :: 0 <= i < |StoredIds(ids + [c], props, excluded)| ==> StoredIds(ids + [c], props, excluded)[i] in props
    ensures var g := Numbered(EntriesFor(StoredIds(ids, props, excluded), props, wm));
      Numbered(EntriesFor(StoredIds(ids + [c], props, excluded), props, wm)) ==
        if Storable(props[c], excluded) then Group(g.count + 1, g.entries[g.count + 1 := EntryFor(props[c], wm)]) else g
  {
    hide Storable, EntryFor, Numbered, StoredIds;
    StoredSnoc(ids, c, props, excluded);
    var stored := StoredIds(ids, props, excluded);
    if Storable(props[c], excluded) {
      var es := EntriesFor(stored, props, wm);
      assert EntriesFor(stored + [c], props, wm) == es + [EntryFor(props[c], wm)];
      NumberedSnoc(es, EntryFor(props[c], wm));
    }
  }

  lemma NumberedSnoc(es: seq<Entry>, e: Entry)
    ensures Numbered(es + [e]) == Group(Numbered(es).count + 1, Numbered(es).entries[Numbered(es).count + 1 := e])
  {
    assert (es + [e])[..|es|] == es;
  }

  lemma {:induction false} InBothSame(s: Server, t: Server, ids: seq<ClientId>, others: seq<ClientId>)
    ensures s.InBoth(ids, others) == t.InBoth(ids, others)
  {
    if ids != [] { InBothSame(s, t, ids[..|ids| - 1], others); }
  }

  lemma StoredIs(s: Server, t: Server, group: Group)
    requires s.WellFormed() && t.WellFormed()
    requires t == s.(clients := if s.phase == ClosingSubSession then s.clients else WmFirst(s.clients, s.fixed.props, s.fixed.wm))
                   .Send(s.OldDiscards(s.OldGroup(), s.OldGroup().count))
    requires group == Entries(t, t.clients)
    ensures t.(saving := t.saving.(config := t.saving.config[t.saving.sessionGroup := group])).Send([Stored]) == s.StoreSession()
  {
    hide Server.OldDiscards, WmFirst, Server.InBoth, StoredIds, EntriesFor, Numbered, Server.OldGroup, Storable, EntryFor, Server.WellFormed;
    InBothSame(s, t, t.clients, t.sub.toSave);
    var discards := s.OldDiscards(s.OldGroup(), s.OldGroup().count);
    assert s.sent + discards + [Stored] == s.sent + (discards + [Stored]);
  }

  /** The group has an entry for each client, or each of the part of the session that is closed, that is not left out. */
  ghost predicate WritesAll(s: Server, group: Group) {
    exists stored ::
      && Writes(group, stored, s.fixed.props, s.fixed.wm)
      && Picks(stored, s.clients, if s.phase == ClosingSubSession then OfSubSession(s) else NotLeftOut(s.fixed.props, s.fixed.excludeApps))
  }

  lemma EntriesWritten(s: Server)
    requires s.WellFormed() && forall i :: 0 <= i < |s.clients| ==> s.clients[i] in s.fixed.props
    ensures WritesAll(s, Entries(s, s.clients))
  {
    hide Writes, Picks, Server.InBoth, StoredIds, EntriesFor, Numbered, LeftOut, OfSubSession, NotLeftOut;
    var chosen := if s.phase == ClosingSubSession then s.InBoth(s.clients, s.sub.toSave) else s.clients;
    ChosenKnown(s, s.clients, chosen);
    var stored := StoredIds(chosen, s.fixed.props, s.fixed.excludeApps);
    NumberedWrites(stored, s.fixed.props, s.fixed.wm);
    assert Writes(Entries(s, s.clients), stored, s.fixed.props, s.fixed.wm);
    if s.phase == ClosingSubSession { SubSessionPicks(s); } else { StoredPicks(s.clients, s.fixed.props, s.fixed.excludeApps); }
  }

  ghost function OneDiscarded(s: Server, g: Group, c: ClientId): Server {
    s.Send(if Matches(s, g, c) then s.DiscardOf(c) else [])
  }

  ghost predicate Matches(s: Server, g: Group, c: ClientId) {
    c in s.fixed.props && s.fixed.props[c].DiscardCommand() != []
    && exists n :: 1 <= n <= g.count && g.Read(n).discardCommand == s.fixed.props[c].DiscardCommand()
  }

  ghost function AllDiscarded(s: Server, g: Group, ids: seq<ClientId>): Server { s.Send(s.DiscardCommands(g, ids)) }

  lemma DiscardStart(s: Server, g: Group, ids: seq<ClientId>)
    ensures AllDiscarded(s, g, ids[..0]) == s
  {
  }

  lemma DiscardStep(s: Server, g: Group, ids: seq<ClientId>, i: nat)
    requires i < |ids|
    ensures AllDiscarded(s, g, ids[..i + 1]) == OneDiscarded(AllDiscarded(s, g, ids[..i]), g, ids[i])
    ensures AllDiscarded(s, g, ids[..i + 1]).clients == s.clients
  {
    assert ids[..i + 1][..i] == ids[..i];
    assert s.DiscardCommands(g, ids[..i]) + [] == s.DiscardCommands(g, ids[..i]);
  }

  lemma AllDiscardedIs(s: Server, g: Group, ids: seq<ClientId>)
    requires s.WellFormed() && g == s.OldGroup() && ids == s.clients
    ensures AllDiscarded(s, g, ids).Send([Discarded]) == s.DiscardSession()
  {
  }

  // ---- beginning a round ----

  ghost function Begins(s: Server, p: Phase, guarded: bool): Server {
    s.(phase := p, protection := guarded || s.protection,
       flags := ResetFlags(s.flags, s.clients), wmWaiting := s.CountWMs(s.clients)).AskFirst()
  }

  lemma {:induction false} CountSame(s: Server, t: Server, ids: seq<ClientId>)
    requires s.fixed == t.fixed
    ensures s.CountWMs(ids) == t.CountWMs(ids)
  {
    if ids != [] { CountSame(s, t, ids[..|ids| - 1]); }
  }

  lemma RoundBegun(s: Server, u: Server, saving: Saving)
    requires s.WellFormed() && u.WellFormed() && u == s.(pendingShutdown := u.pendingShutdown, saving := saving)
    ensures Begins(u, Shutdown, true).WellFormed() && Begins(u, Checkpoint, false).WellFormed()
    ensures u.CountWMs(u.clients) == s.CountWMs(s.clients)
  {
    CountSame(s, u, s.clients);
  }

  ghost function OneAdded(s: Server, close: set<string>, only: set<string>, c: ClientId): Server {
    if c !in s.fixed.props || s.fixed.props[c].clientId !in close + only then s
    else s.(flags := s.flags[c := FRESH],
            sub := SubSession(s.sub.toSave + [c], if s.fixed.props[c].clientId in close then s.sub.toKill + [c] else s.sub.toKill))
          .Send([s.SaveMessage(c)])
  }

  ghost function AllAdded(s: Server, close: set<string>, only: set<string>, ids: seq<ClientId>): Server {
    s.AddToSubSession(s.Named(ids, close + only), s.Named(ids, close))
  }

  lemma AddStart(s: Server, close: set<string>, only: set<string>, ids: seq<ClientId>)
    ensures AllAdded(s, close, only, ids[..0]) == s
  {
    assert s.sub.toSave + [] == s.sub.toSave && s.sub.toKill + [] == s.sub.toKill;
  }

  lemma AddStep(s: Server, close: set<string>, only: set<string>, ids: seq<ClientId>, i: nat)
    requires i < |ids| && NoRepeats(ids) && s.sub == NO_SUB
    ensures AllAdded(s, close, only, ids[..i + 1]) == OneAdded(AllAdded(s, close, only, ids[..i]), close, only, ids[i])
    ensures AllAdded(s, close, only, ids[..i + 1]).clients == s.clients
    ensures NoRepeats(AllAdded(s, close, only, ids[..i + 1]).sub.toSave)
  {
    hide NoRepeats, Server.AddToSubSession, Server.SaveMessages, Server.SaveMessage, Server.Named;
    var c := ids[i];
    PrefixNoRepeats(ids, i + 1);
    NamedNoRepeats(s, ids[..i + 1], close + only);
    var saved, killed := s.Named(ids[..i], close + only), s.Named(ids[..i], close);
    NamedStep(s, ids, i, close + only);
    NamedStep(s, ids, i, close);
    AddedLists(s, s.Named(ids[..i + 1], close + only), s.Named(ids[..i + 1], close));
    AddedLists(s, saved, killed);
    if c in s.fixed.props && s.fixed.props[c].clientId in close + only {
      AddedOnce(s, saved, killed, c, s.fixed.props[c].clientId in close);
      SameMessage(s, s.AddToSubSession(saved, killed), c);
    }
  }

  lemma NamedStep(s: Server, ids: seq<ClientId>, i: nat, names: set<string>)
    requires i < |ids|
    ensures s.Named(ids[..i + 1], names) ==
      if ids[i] in s.fixed.props && s.fixed.props[ids[i]].clientId in names then s.Named(ids[..i], names) + [ids[i]]
      else s.Named(ids[..i], names)
  {
    assert ids[..i + 1][..i] == ids[..i];
  }

  lemma AddedLists(s: Server, saved: seq<ClientId>, killed: seq<ClientId>)
    requires s.sub == NO_SUB
    ensures var t := s.AddToSubSession(saved, killed);
      t.sub.toSave == saved && t.clients == s.clients && t.fixed == s.fixed && t.saving == s.saving
  {
    hide Server.SaveMessages;
    assert [] + saved == saved;
  }

  lemma PrefixNoRepeats(ids: seq<ClientId>, k: nat)
    requires NoRepeats(ids) && k <= |ids|
    ensures NoRepeats(ids[..k])
  {
  }

  lemma AddedOnce(s: Server, saved: seq<ClientId>, killed: seq<ClientId>, c: ClientId, closed: bool)
    ensures s.AddToSubSession(saved + [c], if closed then killed + [c] else killed) ==
      var t := s.AddToSubSession(saved, killed);
      t.(flags := t.flags[c := FRESH],
         sub := SubSession(t.sub.toSave + [c], if closed then t.sub.toKill + [c] else t.sub.toKill)).Send([s.SaveMessage(c)])
  {
    assert (saved + [c])[..|saved|] == saved;
    assert s.SaveMessages(saved + [c]) == s.SaveMessages(saved) + [s.SaveMessage(c)];
    assert s.sub.toSave + (saved + [c]) == s.sub.toSave + saved + [c];
    assert s.sub.toKill + (killed + [c]) == s.sub.toKill + killed + [c];
    assert s.sent + (s.SaveMessages(saved) + [s.SaveMessage(c)]) == s.sent + s.SaveMessages(saved) + [s.SaveMessage(c)];
  }

  lemma AllAddedIs(s: Server, u: Server, close: set<string>, only: set<string>)
    requires u.fixed == s.fixed && u.clients == s.clients
    ensures AllAdded(u, close, only, u.clients) == u.AddToSubSession(s.Named(s.clients, close + only), s.Named(s.clients, close))
  {
    NamedSame(s, u, s.clients, close + only);
    NamedSame(s, u, s.clients, close);
  }

  lemma SameMessage(s: Server, t: Server, c: ClientId)
    requires s.fixed == t.fixed && s.saving == t.saving
    ensures s.SaveMessage(c) == t.SaveMessage(c)
  {
  }

  lemma OthersSame(s: Server, t: Server)
    requires s.fixed == t.fixed && s.clients == t.clients && s.saving == t.saving
    ensures s.Select(Others, s.clients) == t.Select(Others, t.clients)
    ensures s.SaveMessages(s.Select(Others, s.clients)) == t.SaveMessages(t.Select(Others, t.clients))
  {
    SelectSame(s, t, Others, s.clients);
  }

  lemma Phase2Remembered(s: Server, c: ClientId)
    requires s.WellFormed() && Completes(s, s.CompleteShutdownOrCheckpoint()) && c in s.flags
    ensures c in s.CompleteShutdownOrCheckpoint().flags
    ensures s.CompleteShutdownOrCheckpoint().flags[c].wasPhase2 == s.flags[c].wasPhase2
  {
    hide Server.CompleteShutdownOrCheckpoint;
  }

  // ---- clients coming and going ----

  lemma ListedGrows(table: map<ClientId, KSMClient>, cs: seq<KSMClient>, ids: seq<ClientId>, c: ClientId, client: KSMClient)
    requires ListedIn(table, cs, ids) && c !in table
    ensures ListedIn(table[c := client], cs, ids) && ListedIn(table[c := client], cs + [client], ids + [c])
  {
    forall i | 0 <= i < |cs| ensures ids[i] in table && ids[i] != c && table[ids[i]] == cs[i] {
      var d := cs[i];
    }
  }

  lemma ConnectedGrows(table: map<ClientId, KSMClient>, props: map<ClientId, Properties>, flags: map<ClientId, Flags>,
                       c: ClientId, client: KSMClient, p: Properties)
    requires ConnectedIn(table, props) && FlaggedIn(table, flags) && c !in table && c !in props
    requires client.ident == c && client.props == p && client.State() == FRESH
    ensures ConnectedIn(table[c := client], props[c := p]) && FlaggedIn(table[c := client], flags[c := FRESH])
  {
  }

  lemma ListedShrinks(table: map<ClientId, KSMClient>, cs: seq<KSMClient>, ids: seq<ClientId>, c: ClientId)
    requires ListedIn(table, cs, ids) && c !in ids
    ensures ListedIn(table - {c}, cs, ids)
  {
    forall i | 0 <= i < |cs| ensures ids[i] in table - {c} && (table - {c})[ids[i]] == cs[i] {
      var d := cs[i];
      assert ids[i] in ids;
    }
  }

  lemma ConnectedShrinks(table: map<ClientId, KSMClient>, props: map<ClientId, Properties>, flags: map<ClientId, Flags>,
                         c: ClientId)
    requires ConnectedIn(table, props) && FlaggedIn(table, flags)
    ensures ConnectedIn(table - {c}, props) && FlaggedIn(table - {c}, flags - {c})
  {
  }

  lemma JoinedWellFormed(s: Server, c: ClientId, p: Properties)
    requires s.WellFormed() && c !in s.flags && Distinct(s.clients, s.sub.toSave)
    ensures s.NewClient(c, p).WellFormed() && Distinct(s.NewClient(c, p).clients, s.sub.toSave)
  {
  }

  ghost function Taken(s: Server, c: ClientId): Server {
    s.(clients := Removed(s.clients, c), flags := s.flags - {c},
       sub := SubSession(Removed(s.sub.toSave, c), Removed(s.sub.toKill, c)),
       interacting := if s.interacting == Some(c) then None else s.interacting)
  }

  lemma TakenIs(s: Server, c: ClientId)
    ensures var t := Taken(s, c);
      && t.clients == Removed(s.clients, c) && t.sub == SubSession(Removed(s.sub.toSave, c), Removed(s.sub.toKill, c))
      && c !in t.clients && c !in t.sub.toSave && c !in t.sub.toKill
      && t == s.(clients := t.clients, sub := t.sub, flags := s.flags - {c},
                 interacting := if s.interacting == Some(c) then None else s.interacting)
  {
  }

  lemma DropIs(s: Server, c: ClientId)
    ensures s.Drop(c) == if s.interacting == Some(c) then Taken(s, c).HandlePendingInteractions() else Taken(s, c)
  {
    hide Server.HandlePendingInteractions;
  }

  lemma TakenKeeps(s: Server, c: ClientId)
    requires s.WellFormed() && Distinct(s.clients, s.sub.toSave)
    ensures Taken(s, c).WellFormed() && Distinct(Taken(s, c).clients, Taken(s, c).sub.toSave)
  {
    RemovedNoRepeats(s.clients, c);
    RemovedNoRepeats(s.sub.toSave, c);
  }

  lemma OnlyInRound(s: Server)
    requires s.WellFormed()
    ensures !s.InRound() ==> s.CompleteShutdownOrCheckpoint() == s
  {
  }

  lemma OnlyKillingWM(s: Server)
    ensures s.phase != KillingWM ==> s.CompleteKillingWM() == s
  {
  }

  lemma FirstIs(s: Server, ids: seq<ClientId>, k: nat)
    requires k <= |ids| && (forall i :: 0 <= i < |ids| ==> ids[i] in s.flags)
    requires forall j :: 0 <= j < k ==> !s.flags[ids[j]].pendingInteraction
    requires k < |ids| ==> s.flags[ids[k]].pendingInteraction
    ensures s.FirstPending(ids) == k
  {
  }

  ghost function OneCancelled(s: Server, c: ClientId): Server
    requires c in s.flags
  {
    s.Send([ShutdownCancelled(c)]).Send(if s.flags[c].saveYourselfDone then s.DiscardOf(c) else [])
  }

  ghost function AllCancelled(s: Server, ids: seq<ClientId>): Server
    requires s.flags.Keys >= Elements(ids)
  {
    s.Send(s.CancelMessages(ids))
  }

  lemma AllKnown(s: Server)
    requires s.WellFormed()
    ensures s.flags.Keys >= Elements(s.clients)
  {
  }

  lemma CancelStart(s: Server, ids: seq<ClientId>)
    requires s.flags.Keys >= Elements(ids)
    ensures s.flags.Keys >= Elements(ids[..0]) && AllCancelled(s, ids[..0]) == s
  {
  }

  lemma CancelStep(s: Server, ids: seq<ClientId>, i: nat)
    requires i < |ids| && s.flags.Keys >= Elements(ids)
    ensures s.flags.Keys >= Elements(ids[..i]) && s.flags.Keys >= Elements(ids[..i + 1])
    ensures ids[i] in AllCancelled(s, ids[..i]).flags
    ensures AllCancelled(s, ids[..i + 1]) == OneCancelled(AllCancelled(s, ids[..i]), ids[i])
    ensures AllCancelled(s, ids[..i + 1]).clients == s.clients
  {
    assert ids[..i + 1][..i] == ids[..i];
    assert ids[i] in Elements(ids);
  }

  lemma {:induction false} CancelSameFor(s: Server, t: Server, ids: seq<ClientId>)
    requires s.flags == t.flags && s.fixed == t.fixed && forall c :: c in ids ==> c in s.flags
    ensures s.CancelMessages(ids) == t.CancelMessages(ids)
  {
    if ids != [] { CancelSameFor(s, t, ids[..|ids| - 1]); }
  }

  lemma CancelSame(s: Server, t: Server)
    requires s.WellFormed() && t.flags == s.flags && t.fixed == s.fixed && t.clients == s.clients
    ensures forall c :: c in s.clients ==> c in s.flags
    ensures s.CancelMessages(s.clients) == t.CancelMessages(t.clients)
  {
    CancelSameFor(s, t, s.clients);
  }
}
