/**
 The server's objects in a run: whatever sequence of events the environment causes, the objects go through the states
 of SessionRuns.dfy and send the messages of its steps, so that what holds in every run holds of them.
 */
module SessionPerform {
  import opened SessionStore
  import opened SessionModel
  import opened SessionRounds
  import opened SessionSafety
  import opened SessionRuns
  import opened SessionServer
  import opened SessionTrace

  /** The objects stand for the server of the run; the run remembers the last event's messages only. */
  ghost predicate Follows(m: Server, r: Run) {
    m.(sent := []) == r.s.(sent := [])
  }

  /** All messages of a run, in order. */
  ghost function Trace(r: Run, es: seq<Event>): seq<Message>
    requires AllowedAll(r, es)
    decreases |es|
  {
    if es == [] then [] else Step(r, es[0]).s.sent + Trace(Step(r, es[0]), es[1..])
  }

  /** The object of a connected client. */
  method ClientOf(server: KSMServer, c: ClientId) returns (client: KSMClient)
    requires server.Valid() && c in server.model.flags
    ensures server.Has(client) && client.ident == c
  {
    hide KSMServer.Valid, KSMServer.Has;
    server.Fields();
    Connected(server.model, c);
    var i := 0;
    while server.clients[i].ident != c
      invariant i < |server.clients| == |server.model.clients| && c in server.model.clients[i..]
      decreases |server.clients| - i
    {
      server.ClientAt(i);
      assert server.model.clients[i..] == [server.model.clients[i]] + server.model.clients[i + 1..];
      i := i + 1;
    }
    client := server.clients[i];
    server.ClientAt(i);
  }

  lemma Connected(s: Server, c: ClientId)
    requires s.WellFormed() && c in s.flags
    ensures c in s.clients
  {
  }

  /** One event, delivered to the objects. */
  method Deliver(server: KSMServer, nextId: ClientId, e: Event)
    requires server.Valid() && Knows(server.model, e)
    requires e.Join? ==> nextId !in server.model.fixed.props
    requires e.CloseSubSession? && server.state == Idle ==> server.model.sub == NO_SUB
    modifies server, server.table.Values
    ensures server.Valid() && old(server.model).WellFormed()
    ensures server.model == Handle(old(server.model), nextId, e)
    ensures forall c :: c in server.table.Values ==> c in old(server.table.Values) || fresh(c)
  {
    hide KSMServer.Valid, KSMServer.Has, Server.WellFormed, Server.SaveYourselfDone, Server.Phase2Request,
      Server.InteractRequest, Server.InteractDone, Server.DeleteClient, Server.ShutdownEvent, Server.SaveCurrentSession,
      Server.SaveSubSession, Server.ProtectionTimeout, Server.LogoutSoundFinished, Server.KillTimeout,
      Server.WmKillTimeout, Server.SignalSubSessionClosed, Server.NewClient;
    server.Fields();
    match e
    case Join(p) => var _ := server.NewClient(nextId, p);
    case Leave(c) => var client := ClientOf(server, c); server.DeleteClient(client);
    case Logout(confirmed, save) => server.RequestShutdown(confirmed, save);
    case SaveSession => server.SaveCurrentSession();
    case CloseSubSession(name, close, only) => server.SaveSubSession(name, close, only);
    case Done(c) =>
      var client := ClientOf(server, c);
      var success: bool := *;
      server.SaveYourselfDone(client, success);
    case AskPhase2(c) => var client := ClientOf(server, c); server.Phase2Request(client);
    case AskInteract(c) => var client := ClientOf(server, c); server.InteractRequest(client);
    case EndInteract(c, cancel) => var client := ClientOf(server, c); server.InteractDone(client, cancel);
    case ProtectionTimer => server.ProtectionTimeout();
    case SoundFinished => server.LogoutSoundFinished();
    case KillTimer => server.KillTimeout();
    case WmKillTimer => server.WmKillTimeout();
    case SubSessionTimer => server.SignalSubSessionClosed();
    case StartupBegins => if server.state == Idle { server.Enter(Starting); }
    case StartupEnds => if server.state == Starting { server.Enter(Idle); }
  }

  /** One event of a run: the objects take the run's step and send what it sends. */
  method Perform(server: KSMServer, nextId: ClientId, e: Event, ghost r: Run) returns (next: ClientId)
    requires server.Valid() && Follows(server.model, r) && nextId == r.nextId
    requires Inv(r) && r.s.WellFormed() && Allowed(r, e)
    modifies server, server.table.Values
    ensures Knows(r.s, e) && server.Valid() && Follows(server.model, Step(r, e)) && next == Step(r, e).nextId
    ensures server.sent == old(server.sent) + Step(r, e).s.sent
    ensures forall c :: c in server.table.Values ==> c in old(server.table.Values) || fresh(c)
  {
    hide KSMServer.Valid, Handle, Step, Inv, Allowed;
    ghost var before := server.model.sent;
    AllowedKnows(r, e);
    server.Fields();
    Expected(server.model, r, e);
    Deliver(server, nextId, e);
    HandleAfter(before, r.s.(sent := []), r.nextId, e);
    FollowsStep(old(server.model), r, e);
    server.Fields();
    next := if e.Join? then nextId + 1 else nextId;
    NextOf(r, e);
  }

  lemma Expected(m: Server, r: Run, e: Event)
    requires Inv(r) && Follows(m, r) && Knows(r.s, e)
    ensures Knows(m, e) && r.nextId !in m.fixed.props && (m.phase == Idle ==> m.sub == NO_SUB)
  {
  }

  lemma FollowsStep(m: Server, r: Run, e: Event)
    requires r.s.WellFormed() && Knows(r.s, e) && Follows(m, r)
    ensures m == After(m.sent, r.s.(sent := []))
    ensures Handle(r.s.(sent := []), r.nextId, e) == Step(r, e).s
  {
    hide Handle;
    assert m.sent + [] == m.sent;
  }

  lemma NextOf(r: Run, e: Event)
    requires r.s.WellFormed() && Knows(r.s, e)
    ensures Step(r, e).nextId == if e.Join? then r.nextId + 1 else r.nextId
  {
    hide Handle;
  }

  /** Every run: the objects end in the state of the run, in which the invariant holds, and have sent its messages. */
  method PerformAll(server: KSMServer, nextId: ClientId, es: seq<Event>, ghost r: Run)
    requires server.Valid() && Follows(server.model, r) && nextId == r.nextId
    requires Inv(r) && Awaits(r.s) && AllowedAll(r, es)
    modifies server, server.table.Values
    ensures server.Valid() && Follows(server.model, Execute(r, es))
    ensures Inv(Execute(r, es)) && Awaits(Execute(r, es).s)
    ensures server.sent == old(server.sent) + Trace(r, es)
    ensures forall c :: c in server.table.Values ==> c in old(server.table.Values) || fresh(c)
    decreases |es|
  {
    hide KSMServer.Valid, Step, Inv, Allowed, Awaits, Follows;
    if es != [] {
      AllowedKnows(r, es[0]);
      StepKeepsInv(r, es[0]);
      StepAwaits(r, es[0]);
      var next := Perform(server, nextId, es[0], r);
      PerformAll(server, next, es[1..], Step(r, es[0]));
    }
  }

  /** From the start of the program: a new server, and whatever happens to it. */
  method RunServer(wm: string, excludeApps: set<string>, sessionGroup: string, config: map<string, Group>, es: seq<Event>)
    returns (server: KSMServer)
    requires AllowedAll(Initial(wm, excludeApps, Saving(SaveBoth, false, sessionGroup, config)), es)
    ensures var r := Execute(Initial(wm, excludeApps, Saving(SaveBoth, false, sessionGroup, config)), es);
      fresh(server) && server.Valid() && Follows(server.model, r) && Inv(r) && Awaits(r.s)
    ensures server.sent == Trace(Initial(wm, excludeApps, Saving(SaveBoth, false, sessionGroup, config)), es)
  {
    hide KSMServer.Valid, Step, Inv, Allowed, Awaits;
    InitialInv(wm, excludeApps, Saving(SaveBoth, false, sessionGroup, config));
    server := new KSMServer(wm, excludeApps, sessionGroup, config);
    server.Fields();
    PerformAll(server, 0, es, Initial(wm, excludeApps, Saving(SaveBoth, false, sessionGroup, config)));
  }
}
