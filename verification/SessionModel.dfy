/**
 The saving half of the session manager as a value: one function per event handler. SessionServer.dfy
 proves the imperative handlers against these functions; SessionRounds.dfy proves what runs of them keep.
 */
module SessionModel {
  import opened SessionStore

  datatype Option<+T> = None | Some(value: T)

  datatype Flags = Flags(saveYourselfDone: bool, pendingInteraction: bool, waitForPhase2: bool, wasPhase2: bool)

  const FRESH := Flags(false, false, false, false)

  /** Starting stands for all the startup states; they come before Shutdown. */
  datatype Phase =
    | Idle | Starting | Shutdown | Checkpoint | Killing | KillingWM | WaitingForKNotify
    | ClosingSubSession | KillingSubSession

  datatype SaveType = SaveGlobal | SaveLocal | SaveBoth

  datatype Message =
    | SaveYourself(to: ClientId, saveType: SaveType, shutdown: bool, interactAny: bool)
    | SaveYourselfPhase2(to: ClientId)
    | Interact(to: ClientId)
    | ShutdownCancelled(to: ClientId)
    | SaveComplete(to: ClientId)
    | Die(to: ClientId)
    | RunCommand(command: Command)
    | Stored
    | Discarded
    | SubSessionClosed
    | SubSessionCloseCanceled
    | Quit

  const PREVIOUS_LOGOUT := "Session: saved at previous logout"
  const BY_USER := "Session: saved by user"

  predicate Prefixed(s: string, prefix: string) {
    |prefix| <= |s| && s[..|prefix|] == prefix
  }

  /** Whom a loop over the clients addresses. */
  datatype Who = Everyone | WindowManagers | Others | Phase2Waiters

  /** What the server knows about its clients and its configuration. */
  datatype Setup = Setup(props: map<ClientId, Properties>, wm: string, excludeApps: set<string>)

  /** What is to be saved, and where. */
  datatype Saving = Saving(saveType: SaveType, saveSession: bool, sessionGroup: string, config: map<string, Group>)

  datatype SubSession = SubSession(toSave: seq<ClientId>, toKill: seq<ClientId>)

  const NO_SUB := SubSession([], [])

  datatype Server = Server(
    phase: Phase,
    clients: seq<ClientId>,
    flags: map<ClientId, Flags>,
    wmWaiting: nat,
    interacting: Option<ClientId>,
    protection: bool,
    pendingShutdown: bool,
    fixed: Setup,
    saving: Saving,
    sub: SubSession,
    sent: seq<Message>)
  {
    ghost predicate WellFormed() {
      && (forall c :: c in clients <==> c in flags)
      && (forall c :: c in flags ==> c in fixed.props)
      && (forall c :: c in sub.toSave ==> c in flags)
      && (forall c :: c in sub.toKill ==> c in flags)
      && (interacting.Some? ==> interacting.value in flags)
    }

    predicate IsWM(c: ClientId) {
      c in fixed.props && fixed.props[c].Program() == fixed.wm
    }

    predicate InRound() { phase == Shutdown || phase == Checkpoint || phase == ClosingSubSession }

    function Send(ms: seq<Message>): Server { this.(sent := sent + ms) }

    // ---- loops over clients ----

    predicate Addressed(who: Who, c: ClientId) {
      match who
      case Everyone => true
      case WindowManagers => IsWM(c)
      case Others => !IsWM(c)
      case Phase2Waiters => c in flags && !flags[c].saveYourselfDone && flags[c].waitForPhase2
    }

    /** The ids of a list that are addressed, in order. */
    function Select(who: Who, ids: seq<ClientId>): (r: seq<ClientId>)
      ensures forall c :: c in r <==> c in ids && Addressed(who, c)
    {
      if ids == [] then [] else
        var c := ids[|ids| - 1];
        Select(who, ids[..|ids| - 1]) + (if Addressed(who, c) then [c] else [])
    }

    /** A round's SaveYourself: clients may interact unless only a local checkpoint is made. */
    function SaveMessage(c: ClientId): Message {
      if saving.saveType == SaveLocal then SaveYourself(c, saving.saveType, false, false) else SaveYourself(c, saving.saveType, true, true)
    }

    function SaveMessages(ids: seq<ClientId>): (r: seq<Message>)
      ensures |r| == |ids| && forall i :: 0 <= i < |ids| ==> r[i] == SaveMessage(ids[i])
    {
      seq(|ids|, i requires 0 <= i < |ids| => SaveMessage(ids[i]))
    }

    function CountWMs(ids: seq<ClientId>): (n: nat)
      ensures n == |Select(WindowManagers, ids)|
    {
      if ids == [] then 0 else CountWMs(ids[..|ids| - 1]) + (if IsWM(ids[|ids| - 1]) then 1 else 0)
    }

    function DiscardOf(c: ClientId): seq<Message> {
      if c in fixed.props && fixed.props[c].DiscardCommand() != [] then [RunCommand(fixed.props[c].DiscardCommand())] else []
    }

    // ---- starting a save round ----

    /** With a window manager connected only it is asked at first, otherwise everybody is. */
    function AskFirst(): Server {
      Send(SaveMessages(Select(if wmWaiting > 0 then WindowManagers else Everyone, clients)))
    }

    /** A request during startup is put off; one during another shutdown is ignored. */
    function ShutdownEvent(confirmed: bool, save: bool): Server
      requires WellFormed()
    {
      var s := this.(pendingShutdown := false);
      if phase != Idle then
        if phase == Starting then s.(pendingShutdown := true) else s
      else if !confirmed then s
      else
        s.(phase := Shutdown, protection := true,
           saving := Saving(if save then SaveBoth else SaveGlobal, save,
                            if save then PREVIOUS_LOGOUT else saving.sessionGroup, saving.config),
           flags := ResetFlags(flags, clients), wmWaiting := CountWMs(clients))
         .AskFirst().CompleteIfNoClients()
    }

    function SaveCurrentSession(): Server
      requires WellFormed()
    {
      if phase != Idle then this
      else
        this.(phase := Checkpoint,
              saving := Saving(SaveLocal, true, if CurrentSession() == "" || saving.sessionGroup == PREVIOUS_LOGOUT
                                                then BY_USER else saving.sessionGroup, saving.config),
              flags := ResetFlags(flags, clients), wmWaiting := CountWMs(clients))
            .AskFirst().CompleteIfNoClients()
    }

    function CurrentSession(): string {
      if Prefixed(saving.sessionGroup, "Session: ") then saving.sessionGroup[9..] else ""
    }

    function CompleteIfNoClients(): Server
      requires WellFormed()
    {
      if clients == [] then CompleteShutdownOrCheckpoint() else this
    }

    /** Closes part of the session: some clients are saved and killed, some only saved. */
    function SaveSubSession(name: string, saveAndClose: set<string>, saveOnly: set<string>): Server
      requires WellFormed()
    {
      if phase != Idle then this
      else
        var s := this.(phase := ClosingSubSession, protection := true,
                       saving := Saving(SaveBoth, true, "SubSession: " + name, saving.config));
        s.AddToSubSession(Named(clients, saveAndClose + saveOnly), Named(clients, saveAndClose))
         .CompleteShutdownOrCheckpoint()
    }

    function AddToSubSession(saved: seq<ClientId>, killed: seq<ClientId>): Server {
      this.(flags := ResetFlags(flags, saved), sub := SubSession(sub.toSave + saved, sub.toKill + killed))
          .Send(SaveMessages(saved))
    }

    /** The clients of a list that registered under one of these names, in order. */
    function Named(ids: seq<ClientId>, names: set<string>): (r: seq<ClientId>)
      ensures forall c :: c in r <==> c in ids && c in fixed.props && fixed.props[c].clientId in names
    {
      if ids == [] then [] else
        var c := ids[|ids| - 1];
        Named(ids[..|ids| - 1], names) + (if c in fixed.props && fixed.props[c].clientId in names then [c] else [])
    }

    // ---- reports from clients ----

    function SaveYourselfDone(c: ClientId): Server
      requires WellFormed() && c in flags
    {
      if phase == Idle then Send(DiscardOf(c))
      else
        var s := this.(flags := flags[c := flags[c].(saveYourselfDone := true)]);
        s.CompleteShutdownOrCheckpoint().(protection := true)
         .WmReported(c, !flags[c].wasPhase2)
    }

    function Phase2Request(c: ClientId): Server
      requires WellFormed() && c in flags
    {
      var s := this.(flags := flags[c := flags[c].(waitForPhase2 := true, wasPhase2 := true)]);
      s.CompleteShutdownOrCheckpoint().WmReported(c, true)
    }

    /** When the last window manager has finished its phase 1, the other clients are asked to save. */
    function WmReported(c: ClientId, firstReport: bool): Server {
      if IsWM(c) && firstReport && wmWaiting > 0
      then this.(wmWaiting := wmWaiting - 1).Send(TellOthers(c, firstReport))
      else this
    }

    function TellOthers(c: ClientId, firstReport: bool): seq<Message> {
      if IsWM(c) && firstReport && wmWaiting == 1 then SaveMessages(Select(Others, clients)) else []
    }

    // ---- interaction ----

    function InteractRequest(c: ClientId): Server
      requires WellFormed() && c in flags
    {
      if phase == Shutdown || phase == ClosingSubSession then
        this.(flags := flags[c := flags[c].(pendingInteraction := true)]).HandlePendingInteractions()
      else Send([Interact(c)]).HandlePendingInteractions()
    }

    function InteractDone(c: ClientId, cancel: bool): Server
      requires WellFormed() && c in flags
    {
      if interacting != Some(c) then this
      else if cancel then this.(interacting := None).CancelShutdown()
      else this.(interacting := None).HandlePendingInteractions()
    }

    function FirstPending(ids: seq<ClientId>): (k: nat)
      ensures k <= |ids|
      ensures k < |ids| ==> ids[k] in flags && flags[ids[k]].pendingInteraction
      ensures forall j :: 0 <= j < k && ids[j] in flags ==> !flags[ids[j]].pendingInteraction
    {
      if ids == [] || (ids[0] in flags && flags[ids[0]].pendingInteraction) then 0 else 1 + FirstPending(ids[1..])
    }

    function HandlePendingInteractions(): Server {
      if interacting.Some? then this
      else
        var k := FirstPending(clients);
        if k < |clients| then
          var c := clients[k];
          this.(interacting := Some(c), flags := flags[c := flags[c].(pendingInteraction := false)],
                protection := false).Send([Interact(c)])
        else this.(protection := true)
    }

    function CancelMessages(ids: seq<ClientId>): seq<Message>
      requires forall c :: c in ids ==> c in flags
    {
      if ids == [] then [] else
        var c := ids[|ids| - 1];
        CancelMessages(ids[..|ids| - 1]) + [ShutdownCancelled(c)]
        + (if flags[c].saveYourselfDone then DiscardOf(c) else [])
    }

    function CancelShutdown(): Server
      requires WellFormed()
    {
      var s := this.(interacting := None, phase := Idle);
      if phase == ClosingSubSession then s.(sub := NO_SUB).Send([SubSessionCloseCanceled])
      else s.Send(CancelMessages(clients))
    }

    // ---- completing a round ----

    /** The protection timer is single shot; clients that keep silent are taken to be done. */
    function ProtectionTimeout(): Server
      requires WellFormed()
    {
      var s := this.(protection := false);
      if !InRound() || interacting.Some? then s
      else
        s.(flags := GiveUp(flags, clients)).CompleteShutdownOrCheckpoint().(protection := true)
    }

    function Pending(): seq<ClientId> {
      if phase == ClosingSubSession then sub.toSave else clients
    }

    predicate Reported(c: ClientId) {
      c in flags && (flags[c].saveYourselfDone || flags[c].waitForPhase2)
    }

    function CompleteShutdownOrCheckpoint(): Server
      requires WellFormed()
    {
      if !InRound() then this
      else if exists i :: 0 <= i < |Pending()| && !Reported(Pending()[i]) then this
      else
        var second := Select(Phase2Waiters, Pending());
        if second != [] then
          this.(flags := ClearWait(flags, second)).Send(Phase2Messages(second))
        else StoreOrDiscard().AfterSave()
    }

    function StoreOrDiscard(): Server
      requires WellFormed()
    {
      if saving.saveSession then StoreSession() else DiscardSession()
    }

    function Phase2Messages(ids: seq<ClientId>): (r: seq<Message>)
      ensures |r| == |ids| && forall i :: 0 <= i < |ids| ==> r[i] == SaveYourselfPhase2(ids[i])
    {
      seq(|ids|, i requires 0 <= i < |ids| => SaveYourselfPhase2(ids[i]))
    }

    function AfterSave(): Server {
      if phase == Shutdown then this.(phase := WaitingForKNotify)
      else if phase == Checkpoint then this.(phase := Idle).Send(SaveCompletes(clients))
      else StartKillingSubSession()
    }

    function SaveCompletes(ids: seq<ClientId>): (r: seq<Message>)
      ensures |r| == |ids| && forall i :: 0 <= i < |ids| ==> r[i] == SaveComplete(ids[i])
    {
      seq(|ids|, i requires 0 <= i < |ids| => SaveComplete(ids[i]))
    }

    function OldGroup(): Group {
      if saving.sessionGroup in saving.config then saving.config[saving.sessionGroup] else EMPTY_GROUP
    }

    /** Commands of the old session that no present client uses are run to throw its data away. */
    function OldDiscards(g: Group, n: nat): seq<Message> {
      if n == 0 then [] else
        var command := g.Read(n).discardCommand;
        OldDiscards(g, n - 1) +
        (if command == [] || (exists i :: 0 <= i < |clients| && clients[i] in fixed.props && fixed.props[clients[i]].DiscardCommand() == command)
         then [] else [RunCommand(command)])
    }

    function StoreSession(): Server
      requires WellFormed()
    {
      var discards := OldDiscards(OldGroup(), OldGroup().count);
      var ordered := if phase == ClosingSubSession then clients else WmFirst(clients, fixed.props, fixed.wm);
      var chosen := if phase == ClosingSubSession then InBoth(ordered, sub.toSave) else ordered;
      var group := Numbered(EntriesFor(StoredIds(chosen, fixed.props, fixed.excludeApps), fixed.props, fixed.wm));
      this.(clients := ordered, saving := saving.(config := saving.config[saving.sessionGroup := group])).Send(discards + [Stored])
    }

    function InBoth(ids: seq<ClientId>, others: seq<ClientId>): (r: seq<ClientId>)
      ensures forall c :: c in r <==> c in ids && c in others
    {
      if ids == [] then [] else
        var c := ids[|ids| - 1];
        InBoth(ids[..|ids| - 1], others) + (if c in others then [c] else [])
    }

    function DiscardSession(): Server {
      Send(DiscardCommands(OldGroup(), clients) + [Discarded])
    }

    /** Runs the discard commands of those clients whose command the old session also has. */
    function DiscardCommands(g: Group, ids: seq<ClientId>): seq<Message> {
      if ids == [] then [] else
        var c := ids[|ids| - 1];
        DiscardCommands(g, ids[..|ids| - 1]) +
        (if c in fixed.props && fixed.props[c].DiscardCommand() != [] &&
            exists n :: 1 <= n <= g.count && g.Read(n).discardCommand == fixed.props[c].DiscardCommand()
         then DiscardOf(c) else [])
    }

    // ---- killing ----

    function DieMessages(ids: seq<ClientId>): (r: seq<Message>)
      ensures |r| == |ids| && forall i :: 0 <= i < |ids| ==> r[i] == Die(ids[i])
    {
      seq(|ids|, i requires 0 <= i < |ids| => Die(ids[i]))
    }

    function LogoutSoundFinished(): Server {
      if phase != WaitingForKNotify then this
      else this.(phase := Killing).Send(DieMessages(Select(Others, clients))).CompleteKilling()
    }

    /** The window manager is killed last. */
    function CompleteKilling(): Server {
      if phase == Killing && Select(Others, clients) == [] then KillWM() else this
    }

    function KillWM(): Server {
      if phase != Killing then this
      else
        var s := this.(phase := KillingWM);
        var wms := Select(WindowManagers, clients);
        if wms == [] then s.Send([Quit]) else s.Send(DieMessages(wms)).CompleteKillingWM()
    }

    function CompleteKillingWM(): Server {
      if phase == KillingWM && clients == [] then Send([Quit]) else this
    }

    function KillTimeout(): Server { KillWM() }

    function WmKillTimeout(): Server { Send([Quit]) }

    function StartKillingSubSession(): Server {
      this.(phase := KillingSubSession).Send(DieMessages(sub.toKill)).CompleteKillingSubSession()
    }

    function CompleteKillingSubSession(): Server {
      if phase == KillingSubSession && Select(Others, sub.toKill) == [] then SignalSubSessionClosed() else this
    }

    function SignalSubSessionClosed(): Server {
      if phase != KillingSubSession then this
      else this.(sub := NO_SUB, phase := Idle).Send([SubSessionClosed])
    }

    // ---- clients coming and going ----

    function NewClient(c: ClientId, p: Properties): Server {
      this.(clients := clients + [c], fixed := fixed.(props := fixed.props[c := p]), flags := flags[c := FRESH])
    }

    function DeleteClient(c: ClientId): Server
      requires WellFormed()
    {
      if c !in clients then this
      else
        DroppedWellFormed(this, c);
        Drop(c).CompleteShutdownOrCheckpoint().ContinueKilling()
    }

    function Drop(c: ClientId): Server {
      var s := this.(clients := Removed(clients, c), flags := flags - {c},
                     sub := SubSession(Removed(sub.toSave, c), Removed(sub.toKill, c)),
                     interacting := if interacting == Some(c) then None else interacting);
      if interacting == Some(c) then s.HandlePendingInteractions() else s
    }

    function ContinueKilling(): Server {
      var s := if phase == Killing then CompleteKilling()
               else if phase == KillingSubSession then CompleteKillingSubSession() else this;
      s.CompleteKillingWM()
    }
  }

  /** Every occurrence of c is taken out of the list. */
  function Removed(ids: seq<ClientId>, c: ClientId): (r: seq<ClientId>)
    ensures forall d :: d in r <==> d in ids && d != c
  {
    if ids == [] then [] else
      var last := ids[|ids| - 1];
      Removed(ids[..|ids| - 1], c) + (if last != c then [last] else [])
  }

  function ResetFlags(flags: map<ClientId, Flags>, ids: seq<ClientId>): (r: map<ClientId, Flags>)
    ensures forall c :: c in r <==> c in flags || c in ids
    ensures forall c :: c in r ==> r[c] == if c in ids then FRESH else flags[c]
  {
    if ids == [] then flags else ResetFlags(flags, ids[..|ids| - 1])[ids[|ids| - 1] := FRESH]
  }

  /** Clients that have neither reported nor asked for phase 2 are marked as done. */
  function GiveUp(flags: map<ClientId, Flags>, ids: seq<ClientId>): (r: map<ClientId, Flags>)
    ensures r.Keys == flags.Keys
    ensures forall c :: c in r ==>
      r[c] == if c in ids && !flags[c].waitForPhase2 then flags[c].(saveYourselfDone := true) else flags[c]
  {
    if ids == [] then flags else
      var r, c := GiveUp(flags, ids[..|ids| - 1]), ids[|ids| - 1];
      if c in r && !r[c].saveYourselfDone && !r[c].waitForPhase2 then r[c := r[c].(saveYourselfDone := true)] else r
  }

  function ClearWait(flags: map<ClientId, Flags>, ids: seq<ClientId>): (r: map<ClientId, Flags>)
    ensures r.Keys == flags.Keys
    ensures forall c :: c in r ==> r[c] == if c in ids then flags[c].(waitForPhase2 := false) else flags[c]
  {
    if ids == [] then flags else
      var r, c := ClearWait(flags, ids[..|ids| - 1]), ids[|ids| - 1];
      if c in r then r[c := r[c].(waitForPhase2 := false)] else r
  }

  lemma DroppedWellFormed(s: Server, c: ClientId)
    requires s.WellFormed()
    ensures s.Drop(c).WellFormed()
  {
  }
}
