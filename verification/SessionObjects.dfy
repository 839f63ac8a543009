/** A client object and a server object joined by their channels, driven through whole runs.

    What the theorems say about the joint system is said here about the objects: whatever `AnyRun` lets happen, their
    fields are what the system's run makes of them, so every promise of a run holds of them, and each method promises
    what can be relied on after one step. */
module SessionObjects {
  import opened Common
  import opened Protocol
  import opened Session
  import opened SessionService
  import opened SessionStreams
  import C = ServiceClient
  import S = ServiceServer

  // ---------------------------------------------------------------------------------------------------------------
  // What holds after single steps

  /** A listener is only ever given a prefix of what was published. */
  ghost predicate PrefixGiven(sys: System) {
    forall k | k in sys.client.listeners ::
      var l := sys.client.listeners[k];
      && l.delivered + l.scheduled + l.queued <= sys.Published(k)
      && (!l.ready ==> l.delivered == [] && l.scheduled == [])
  }

  /** A request that the client waits for is on its way exactly once while the server is there, and no other is. */
  predicate OnItsWayOnce(sys: System, id: nat) {
    sys.client.connected ==>
      && (id !in sys.client.pending ==> Tokens(sys, id) == 0)
      && (id in sys.client.pending ==> Tokens(sys, id) <= 1 && (!sys.server.stage.Closed? ==> Tokens(sys, id) == 1))
  }

  ghost predicate AwaitedOnce(sys: System) {
    forall id :: OnItsWayOnce(sys, id)
  }

  ghost predicate Promises(sys: System) {
    && PrefixGiven(sys) && AwaitedOnce(sys)
    && sys.client.fault.None?
    && (!sys.client.connected ==> sys.client.pending == map[])
  }

  lemma InvPromises(sys: System)
    requires Inv(sys)
    ensures Promises(sys)
  {
    InvPrefix(sys);
    InvAwaits(sys);
    hide PrefixGiven, AwaitedOnce;
    assert Quiet(sys);
  }

  lemma InvPrefix(sys: System)
    requires Inv(sys)
    ensures PrefixGiven(sys)
  {
    forall k | k in sys.client.listeners
      ensures sys.client.listeners[k].delivered + sys.client.listeners[k].scheduled + sys.client.listeners[k].queued
           <= sys.Published(k)
      ensures !sys.client.listeners[k].ready ==>
                sys.client.listeners[k].delivered == [] && sys.client.listeners[k].scheduled == []
    {
      assert Right(k, SliceOf(sys, k));
      assert SliceOf(sys, k).listener == Some(sys.client.listeners[k]);
    }
  }

  lemma InvAwaits(sys: System)
    requires Inv(sys)
    ensures AwaitedOnce(sys)
  {
    hide Right, SliceOf, Matched, Owned, Typed, Framed, Tokens;
    forall id
      ensures OnItsWayOnce(sys, id)
    {
      assert Correlated(sys, id);
    }
  }

  /** What is delivered next is the next thing that was published. */
  lemma DeliversTheNext(sys: System, k: nat)
    requires Inv(sys) && k in sys.client.listeners && sys.client.listeners[k].scheduled != []
    ensures var l := sys.client.listeners[k];
            |l.delivered| < |sys.Published(k)| && l.scheduled[0] == sys.Published(k)[|l.delivered|]
  {
    InvPromises(sys);
    hide Inv, AwaitedOnce;
    var l := sys.client.listeners[k];
    assert (l.delivered + l.scheduled + l.queued)[|l.delivered|] == l.scheduled[0];
  }

  lemma ResponsesAreAwaited(sys: System)
    requires Inv(sys) && sys.client.connected && sys.s2c != [] && sys.s2c[0].Response?
    ensures sys.s2c[0].id in sys.client.pending
  {
    assert Correlated(sys, sys.s2c[0].id);
    ResponseIsAwaited(sys);
  }

  lemma AnswersOnce(sys: System, id: nat, success: bool)
    requires Inv(sys) && S.InProgress(sys.server, id, S.Executing)
    ensures var next := Step(sys, ServiceAnswers(id, success));
            next.client.connected ==>
              && id in next.client.pending && ResponsesFor(id, next.s2c) == 1
              && RequestsFor(id, next.Queue()) == 0 && !S.InProgress(next.server, id, S.Executing)
  {
    var next := Step(sys, ServiceAnswers(id, success));
    if next.client.connected {
      assert Correlated(sys, id);
      InvStep(sys, ServiceAnswers(id, success));
      assert Correlated(next, id);
      AnswerGoesOut(sys, id, success);
    }
  }

  lemma AnswerGoesOut(sys: System, id: nat, success: bool)
    requires S.InProgress(sys.server, id, S.Executing) && sys.client.connected
    ensures var next := Step(sys, ServiceAnswers(id, success));
            && ResponsesFor(id, next.s2c) == ResponsesFor(id, sys.s2c) + 1
            && !S.InProgress(next.server, id, S.Executing)
  {
    var step := S.Complete(sys.server, id, success);
    CompletingMoves(sys.server, id, success, id);
    ResponsesForAppend(id, sys.s2c, step.sent);
    CompletedIsOver(sys.server, id, success);
  }

  lemma CompletedIsOver(s: S.State, id: nat, success: bool)
    requires S.InProgress(s, id, S.Executing)
    ensures !S.InProgress(S.Complete(s, id, success).state, id, S.Executing)
  {
  }

  lemma ReadsAwaited(sys: System)
    requires Inv(sys) && sys.client.connected && sys.s2c != []
    ensures var m, next := sys.s2c[0], C.Receive(sys.client, sys.s2c[0]);
            m.Response? ==> m.id in sys.client.pending && m.id !in next.pending
  {
    var m := sys.s2c[0];
    if m.Response? {
      ResponsesAreAwaited(sys);
      ReceiveTakes(sys.client, m);
    }
  }

  lemma StartKeepsWhatIsThere(sys: System, k: nat)
    requires Inv(sys) && k in sys.client.listeners && sys.client.listeners[k].hydrated
    ensures Got(C.Start(sys.client, k).listeners[k]) == Got(sys.client.listeners[k])
  {
    var l := sys.client.listeners[k];
    assert Right(k, SliceOf(sys, k));
    assert SliceOf(sys, k).listener == Some(l);
    hide Inv, Right, SliceOf;
    if !l.disposed && !l.ready {
      assert l.delivered + (l.scheduled + l.queued) + [] == l.delivered + l.scheduled + l.queued;
    }
  }

  lemma TakesUp(sys: System, a: Action)
    requires Inv(sys) && Fresh(sys) && Enabled(sys, a) && Taken(sys, a).Some?
    ensures var m := Taken(sys, a).value;
            Answered(sys, m, Step(sys, a)) && (m.Request? ==> Served(sys, m, Step(sys, a)))
  {
    hide Inv, Fresh, Step, Served, Answered;
    TakingUp(sys, a);
    if Taken(sys, a).value.Request? {
      TakenIsServed(sys, a);
    }
  }

  class Link {
    const client: C.Client
    var server: S.ServerConnection
    var c2s: seq<ClientMessage>
    var s2c: seq<ServerMessage>
    ghost var published: map<nat, seq<int>>

    ghost function Contents(): System
      reads this, client, server
    {
      System(client.Contents(), server.Contents(), c2s, s2c, published)
    }

    ghost predicate Valid()
      reads this, client, server
    {
      Inv(Contents()) && Fresh(Contents())
    }

    constructor ()
      ensures Valid() && Contents() == Start && fresh(client) && fresh(server)
    {
      client := new C.Client();
      server := new S.ServerConnection();
      c2s, s2c, published := [], [], map[];
      new;
      InvRun([]);
      FreshRun([]);
    }

    // -------------------------------------------------------------------------------------------------------------
    // The client's steps

    /** A new connection, with a new record at the server. Nothing is awaited on it yet. */
    method Connect()
      requires Valid() && !client.connected
      modifies this, client
      ensures Valid() && Contents() == Step(old(Contents()), Action.Connect) && fresh(server)
      ensures client.connected && client.pendingRequests == map[]
    {
      BothStep(Contents(), Action.Connect);
      assert Contents().client.pending == map[];
      hide Inv, Fresh;
      client.Connect();
      server := new S.ServerConnection();
      var sent := server.DispatchMessage(Hello);
      c2s, s2c := [], [];
    }

    /** The client sends a request, under a new id: it is on its way exactly once. */
    method SendRequest(wrongServer: bool, call: Call)
      requires Valid() && !call.Subscribe?
      modifies this`c2s, client
      ensures Valid() && Contents() == Step(old(Contents()), Action.Request(wrongServer, call))
      ensures client.connected ==>
                && client.requestSequence == old(client.requestSequence) + 1
                && c2s == old(c2s) + [ClientMessage.Request(client.requestSequence, wrongServer, call)]
      ensures client.connected && !server.stage.Closed? ==>
                client.requestSequence in client.pendingRequests && Tokens(Contents(), client.requestSequence) == 1
    {
      BothStep(Contents(), Action.Request(wrongServer, call));
      InvPromises(Step(Contents(), Action.Request(wrongServer, call)));
      hide Inv, Fresh, Tokens, PrefixGiven;
      var sent := client.Request(wrongServer, call);
      c2s := c2s + sent;
      assert OnItsWayOnce(Contents(), client.requestSequence);
    }

    /** The client subscribes: the request is on its way exactly once, and nothing has been given to the listener. */
    method SendSubscribe(wrongServer: bool)
      requires Valid()
      modifies this`c2s, client
      ensures Valid() && Contents() == Step(old(Contents()), Action.Subscribe(wrongServer))
      ensures client.connected ==>
                var k := client.serviceSubscriptionSequence;
                && k in client.serviceListeners && client.serviceListeners[k].registered
                && Got(client.serviceListeners[k]) == []
                && c2s == old(c2s) + [ClientMessage.Request(client.requestSequence, wrongServer, Call.Subscribe(k))]
      ensures client.connected && !server.stage.Closed? ==>
                client.requestSequence in client.pendingRequests && Tokens(Contents(), client.requestSequence) == 1
    {
      BothStep(Contents(), Action.Subscribe(wrongServer));
      InvPromises(Step(Contents(), Action.Subscribe(wrongServer)));
      hide Inv, Fresh, Tokens, PrefixGiven;
      var sent := client.Subscribe(wrongServer);
      c2s := c2s + sent;
      assert OnItsWayOnce(Contents(), client.requestSequence);
    }

    /** An abort gives up no entry: the response is still awaited. */
    method AbortRequest(id: nat)
      requires Valid()
      modifies this`c2s, client
      ensures Valid() && Contents() == Step(old(Contents()), Abort(id))
      ensures client.pendingRequests.Keys == old(client.pendingRequests).Keys
      ensures id in client.pendingRequests ==> client.pendingRequests[id].aborted
      ensures client.connected && id in old(client.pendingRequests) && !old(client.pendingRequests)[id].aborted ==>
                c2s == old(c2s) + [Cancel(id)]
    {
      BothStep(Contents(), Abort(id));
      hide Inv, Fresh;
      var sent := client.AbortRequest(id);
      c2s := c2s + sent;
    }

    method UnregisterListener(k: nat)
      requires Valid() && k in client.serviceListeners
      modifies this`c2s, this`s2c, client
      ensures Valid() && Contents() == Step(old(Contents()), Unregister(k))
      ensures k in client.serviceListeners && !client.serviceListeners[k].registered
    {
      BothStep(Contents(), Unregister(k));
      hide Inv, Fresh;
      client.UnregisterListener(k);
      DropIfDisconnected();
    }

    /** A subscription that is disposed of receives nothing more; what it has been given stays. */
    method DisposeSubscription(k: nat, targetIsCurrent: bool)
      requires Valid() && k in client.serviceListeners
      modifies this`c2s, client
      ensures Valid() && Contents() == Step(old(Contents()), Dispose(k, targetIsCurrent))
      ensures k in client.serviceListeners
      ensures client.serviceListeners[k].disposed && !client.serviceListeners[k].registered
      ensures client.serviceListeners[k].delivered == old(client.serviceListeners)[k].delivered
      ensures c2s == if client.connected && targetIsCurrent && !old(client.serviceListeners)[k].disposed
                     then old(c2s) + [ClientMessage.Request(client.requestSequence, false, Unsubscribe(k))]
                     else old(c2s)
    {
      assert Right(k, SliceOf(Contents(), k));
      BothStep(Contents(), Dispose(k, targetIsCurrent));
      hide Inv, Fresh;
      var sent := client.DisposeSubscription(k, targetIsCurrent);
      c2s := c2s + sent;
    }

    method ClearSubscription(k: nat)
      requires Valid() && k in client.serviceListeners && client.serviceListeners[k].disposed
      modifies this`c2s, this`s2c, client
      ensures Valid() && Contents() == Step(old(Contents()), Clear(k))
    {
      BothStep(Contents(), Clear(k));
      hide Inv, Fresh;
      client.ClearSubscription(k);
      DropIfDisconnected();
    }

    /** The start gives nothing up and changes no order: what has been decoded stays what it is, and what was queued is
        scheduled. */
    method StartDelivery(k: nat)
      requires Valid() && k in client.serviceListeners && client.serviceListeners[k].hydrated
      modifies this`c2s, this`s2c, client
      ensures Valid() && Contents() == Step(old(Contents()), Action.StartDelivery(k))
      ensures k in client.serviceListeners && Got(client.serviceListeners[k]) == Got(old(client.serviceListeners)[k])
      ensures Started(old(client.serviceListeners)[k], client.serviceListeners[k])
    {
      BothStep(Contents(), Action.StartDelivery(k));
      StartKeepsWhatIsThere(Contents(), k);
      hide Inv, Fresh;
      client.StartDelivery(k);
      DropIfDisconnected();
    }

    /** What reaches a listener is the next thing that its service has published. */
    method DeliverNext(k: nat)
      requires Valid() && k in client.serviceListeners && client.serviceListeners[k].scheduled != []
      modifies this`c2s, this`s2c, client
      ensures Valid() && Contents() == Step(old(Contents()), Deliver(k))
      ensures k in client.serviceListeners
      ensures var before := old(client.serviceListeners)[k].delivered;
              && |before| < |Contents().Published(k)|
              && client.serviceListeners[k].delivered == before + [Contents().Published(k)[|before|]]
    {
      BothStep(Contents(), Deliver(k));
      DeliversTheNext(Contents(), k);
      hide Inv, Fresh;
      client.DeliverNext(k);
      DropIfDisconnected();
    }

    /** The client reads a message. It never finds a reason to fail the connection, and a response it reads is one that
        it has been waiting for. */
    method ClientReads()
      requires Valid() && client.connected && s2c != []
      modifies this`c2s, this`s2c, client
      ensures Valid() && Contents() == Step(old(Contents()), ClientReceives)
      ensures client.fault.None?
      ensures var m := old(s2c[0]);
              m.Response? ==> m.id in old(client.pendingRequests) && m.id !in client.pendingRequests
    {
      BothStep(Contents(), ClientReceives);
      InvPromises(Step(Contents(), ClientReceives));
      ReadsAwaited(Contents());
      hide Inv, Fresh, PrefixGiven, AwaitedOnce;
      var m := s2c[0];
      s2c := s2c[1..];
      client.HandleMessage(m);
      DropIfDisconnected();
    }

    /** The connection goes: no entry and no registered listener survives it. */
    method DisconnectClient()
      requires Valid()
      modifies this`c2s, this`s2c, client
      ensures Valid() && Contents() == Step(old(Contents()), ClientDisconnects)
      ensures client.pendingRequests == map[] && c2s == [] && s2c == []
      ensures forall k | k in client.serviceListeners :: !client.serviceListeners[k].registered
    {
      BothStep(Contents(), ClientDisconnects);
      hide Inv, Fresh;
      client.Disconnect();
      DropIfDisconnected();
    }

    method DropIfDisconnected()
      modifies this`c2s, this`s2c
      ensures c2s == (if client.connected then old(c2s) else []) && s2c == (if client.connected then old(s2c) else [])
    {
      if !client.connected {
        c2s, s2c := [], [];
      }
    }

    // -------------------------------------------------------------------------------------------------------------
    // The server's steps

    method Send(sent: seq<ServerMessage>)
      modifies this`s2c
      ensures s2c == if client.connected then old(s2c) + sent else old(s2c)
    {
      if client.connected {
        s2c := s2c + sent;
      }
    }

    /** The server reads a message. Once it is ready, a request is answered at once exactly if something is wrong with
        it, and is with its service otherwise. */
    method ServerReads()
      requires Valid() && Enabled(Contents(), ServerReceives)
      modifies this`c2s, this`s2c, server
      ensures Valid() && Contents() == Step(old(Contents()), ServerReceives)
      ensures client.fault.None? && (!old(c2s)[0].Hello? ==> server.stage == old(server.stage))
      ensures old(server.stage).Handshaking? && !old(c2s)[0].Hello? ==>
                server.deferred == old(server.deferred) + [old(c2s)[0]]
      ensures var sys := old(Contents()); var m := Taken(sys, ServerReceives);
              && (m.Some? ==> Answered(sys, m.value, Contents()))
              && (m.Some? && m.value.Request? ==> Served(sys, m.value, Contents()))
    {
      if Taken(Contents(), ServerReceives).Some? {
        TakesUp(Contents(), ServerReceives);
      }
      BothStep(Contents(), ServerReceives);
      InvPromises(Step(Contents(), ServerReceives));
      hide Inv, Fresh, PrefixGiven, AwaitedOnce, Answered, Served;
      var m := c2s[0];
      c2s := c2s[1..];
      var sent := server.DispatchMessage(m);
      Send(sent);
    }

    method EndHandshake()
      requires Valid()
      modifies server
      ensures Valid() && Contents() == Step(old(Contents()), HandshakeEnds)
      ensures server.stage == (if old(server.stage).Handshaking? then S.Ready else old(server.stage))
      ensures server.deferred == old(server.deferred)
    {
      BothStep(Contents(), HandshakeEnds);
      hide Inv, Fresh;
      server.EnterReady();
    }

    method TakeDeferred()
      requires Valid() && Enabled(Contents(), ServerTakesDeferred)
      modifies this`s2c, server
      ensures Valid() && Contents() == Step(old(Contents()), ServerTakesDeferred)
      ensures server.stage.Ready? ==> server.deferred == old(server.deferred)[1..]
      ensures var sys := old(Contents()); var m := Taken(sys, ServerTakesDeferred);
              && (m.Some? ==> Answered(sys, m.value, Contents()))
              && (m.Some? && m.value.Request? ==> Served(sys, m.value, Contents()))
    {
      if Taken(Contents(), ServerTakesDeferred).Some? {
        TakesUp(Contents(), ServerTakesDeferred);
      }
      BothStep(Contents(), ServerTakesDeferred);
      hide Inv, Fresh, Answered, Served;
      var sent := server.TakeDeferred();
      Send(sent);
    }

    /** A service answers: the request that it had is in its one response, and nowhere else. */
    method AnswerRequest(id: nat, success: bool)
      requires Valid() && S.InProgress(server.Contents(), id, S.Executing)
      modifies this`s2c, server
      ensures Valid() && Contents() == Step(old(Contents()), ServiceAnswers(id, success))
      ensures client.connected ==>
                && id in client.pendingRequests && ResponsesFor(id, s2c) == 1
                && RequestsFor(id, Contents().Queue()) == 0 && !S.InProgress(server.Contents(), id, S.Executing)
      ensures client.connected ==>
                && |s2c| == |old(s2c)| + 1 && s2c[..|old(s2c)|] == old(s2c)
                && s2c[|old(s2c)|].Response? && s2c[|old(s2c)|].id == id
                && Replies(old(server.active)[id], success, s2c[|old(s2c)|].reply)
      ensures Lives(old(server.active)[id].call, success, old(server.encoders), server.encoders)
    {
      CompletingReplies(server.Contents(), id, success);
      BothStep(Contents(), ServiceAnswers(id, success));
      AnswersOnce(Contents(), id, success);
      hide Inv, Fresh, RequestsFor, ResponsesFor;
      var sent := server.Respond(id, success);
      Send(sent);
    }

    method FinishRequest(id: nat)
      requires Valid() && S.InProgress(server.Contents(), id, S.Done)
      modifies server
      ensures Valid() && Contents() == Step(old(Contents()), RequestFinishes(id))
      ensures id !in server.active
    {
      BothStep(Contents(), RequestFinishes(id));
      hide Inv, Fresh;
      server.FinishRequest(id);
    }

    method DrainPending(id: nat)
      requires Valid() && S.CanDrain(server.Contents(), id)
      modifies this`s2c, server
      ensures Valid() && Contents() == Step(old(Contents()), PendingDrains(id))
    {
      BothStep(Contents(), PendingDrains(id));
      hide Inv, Fresh;
      var sent := server.DrainPending(id);
      Send(sent);
    }

    /** A service publishes: its stream grows by what it publishes, and by nothing else. */
    method PublishUpdate(k: nat, value: int)
      requires Valid() && k in server.publishers
      modifies this`s2c, this`published, server
      ensures Valid() && Contents() == Step(old(Contents()), ServicePublishes(k, value))
      ensures Contents().Published(k) == old(Contents()).Published(k) + [value]
    {
      BothStep(Contents(), ServicePublishes(k, value));
      hide Inv, Fresh;
      published := published[k := Contents().Published(k) + [value]];
      var sent := server.PublishUpdate(k, value);
      Send(sent);
    }

    method DisconnectServer()
      requires Valid()
      modifies server
      ensures Valid() && Contents() == Step(old(Contents()), ServerDisconnects)
      ensures server.stage.Closed? && server.active == map[] && server.encoders == map[]
    {
      BothStep(Contents(), ServerDisconnects);
      hide Inv, Fresh;
      server.Disconnect();
    }

    // -------------------------------------------------------------------------------------------------------------
    // Whole runs

    /** Let an action happen if it can. */
    method Perform(a: Action)
      requires Valid()
      modifies this, client, server
      ensures Valid() && (server == old(server) || fresh(server))
      ensures var sys := old(Contents()); Contents() == if Enabled(sys, a) then Step(sys, a) else sys
    {
      if ByTheServer(a) {
        PerformOfServer(a);
      } else {
        PerformOfClient(a);
      }
    }

    method PerformOfClient(a: Action)
      requires Valid() && !ByTheServer(a)
      modifies this, client
      ensures Valid() && (server == old(server) || fresh(server))
      ensures var sys := old(Contents()); Contents() == if Enabled(sys, a) then Step(sys, a) else sys
    {
      hide Inv, Fresh, Step;
      match a
      case Connect => if !client.connected { Connect(); }
      case Request(wrongServer, call) => if !call.Subscribe? { SendRequest(wrongServer, call); }
      case Subscribe(wrongServer) => SendSubscribe(wrongServer);
      case Abort(id) => AbortRequest(id);
      case Unregister(k) => if k in client.serviceListeners { UnregisterListener(k); }
      case Dispose(k, targetIsCurrent) => if k in client.serviceListeners { DisposeSubscription(k, targetIsCurrent); }
      case Clear(k) => if k in client.serviceListeners && client.serviceListeners[k].disposed { ClearSubscription(k); }
      case StartDelivery(k) =>
        if k in client.serviceListeners && client.serviceListeners[k].hydrated { StartDelivery(k); }
      case Deliver(k) =>
        if k in client.serviceListeners && client.serviceListeners[k].scheduled != [] { DeliverNext(k); }
      case ClientReceives => if client.connected && s2c != [] { ClientReads(); }
      case ClientDisconnects => DisconnectClient();
    }

    method PerformOfServer(a: Action)
      requires Valid() && ByTheServer(a)
      modifies this, server
      ensures Valid() && server == old(server)
      ensures var sys := old(Contents()); Contents() == if Enabled(sys, a) then Step(sys, a) else sys
    {
      hide Inv, Fresh, Step;
      match a
      case ServerReceives => if c2s != [] && (server.stage.Ready? ==> server.deferred == []) { ServerReads(); }
      case HandshakeEnds => EndHandshake();
      case ServerTakesDeferred => if server.stage.Ready? && server.deferred != [] { TakeDeferred(); }
      case ServiceAnswers(id, success) =>
        if S.InProgress(server.Contents(), id, S.Executing) { AnswerRequest(id, success); }
      case RequestFinishes(id) => if S.InProgress(server.Contents(), id, S.Done) { FinishRequest(id); }
      case PendingDrains(id) => if S.CanDrain(server.Contents(), id) { DrainPending(id); }
      case ServicePublishes(k, value) => if k in server.publishers { PublishUpdate(k, value); }
      case ServerDisconnects => DisconnectServer();
    }
  }

  /** A client and a server driven through a whole run: the client's listeners have been given a prefix of what was
      published, every request that it waits for is on its way exactly once while the server is there and no other is,
      no entry survives a disconnection, and the client has found no fault. */
  method AnyRun(actions: seq<Action>) returns (link: Link)
    ensures fresh(link) && link.Valid() && link.Contents() == Run(actions)
    ensures forall k | k in link.client.serviceListeners ::
              Got(link.client.serviceListeners[k]) <= link.Contents().Published(k)
    ensures forall id :: OnItsWayOnce(link.Contents(), id)
    ensures link.client.fault.None? && (!link.client.connected ==> link.client.pendingRequests == map[])
  {
    link := new Link();
    for k := 0 to |actions|
      invariant fresh(link) && fresh(link.client) && fresh(link.server)
      invariant link.Valid() && link.Contents() == Run(actions[..k])
    {
      assert actions[..k + 1][..k] == actions[..k];
      link.Perform(actions[k]);
    }
    assert actions[..|actions|] == actions;
    InvPromises(link.Contents());
  }
}
