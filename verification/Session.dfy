/** Client and server joined by a FIFO channel each way, under every interleaving of their steps with each other, with
    the services behind the server and with the code that uses the client.

    The link is up as long as the client is connected. What one side sends after the other has gone is lost with the
    channels, and a new connection starts with empty channels and a new record at the server. */
module Session {
  import opened Common
  import opened Protocol
  import C = ServiceClient
  import S = ServiceServer

  /** `published` is what the services have published so far, by subscription. */
  datatype System = System(
    client: C.State,
    server: S.State,
    c2s: seq<ClientMessage>,
    s2c: seq<ServerMessage>,
    published: map<nat, seq<int>>)
  {
    function Published(k: nat): seq<int> {
      if k in published then published[k] else []
    }

    /** Requests sent and not yet taken up, in order. */
    function Queue(): seq<ClientMessage> {
      server.deferred + c2s
    }
  }

  const Start := System(C.Initial, S.Initial, [], [], map[])

  datatype Action =
    | Connect
    | Request(wrongServer: bool, call: Call)
    | Subscribe(toWrongServer: bool)
    | Abort(abortId: nat)
    | Unregister(unregister: nat)
    | Dispose(dispose: nat, targetIsCurrent: bool)
    | Clear(clear: nat)
    | StartDelivery(start: nat)
    | Deliver(deliver: nat)
    | ClientReceives
    | ClientDisconnects
    | ServerReceives
    | HandshakeEnds
    | ServerTakesDeferred
    | ServiceAnswers(answered: nat, success: bool)
    | RequestFinishes(finished: nat)
    | PendingDrains(drained: nat)
    | ServicePublishes(to: nat, value: int)
    | ServerDisconnects

  function ByClient(sys: System, step: C.Step): System {
    sys.(client := step.state, c2s := sys.c2s + step.sent)
  }

  /** A client that is no longer connected takes the channels with it. */
  function AfterClient(sys: System, client: C.State): System {
    if client.connected then sys.(client := client)
    else sys.(client := client, c2s := [], s2c := [])
  }

  function ByServer(sys: System, step: S.Step): System {
    sys.(server := step.state, s2c := if sys.client.connected then sys.s2c + step.sent else sys.s2c)
  }

  /** Whether a step can be taken. A caller does not make a subscribe call by hand; deferred messages are handled before
      newer ones are read. */
  predicate Enabled(sys: System, a: Action) {
    match a
    case Connect => !sys.client.connected
    case Request(_, call) => !call.Subscribe?
    case Unregister(k) => k in sys.client.listeners
    case Dispose(k, _) => k in sys.client.listeners
    case Clear(k) => k in sys.client.listeners && sys.client.listeners[k].disposed
    case StartDelivery(k) => k in sys.client.listeners && sys.client.listeners[k].hydrated
    case Deliver(k) => k in sys.client.listeners && sys.client.listeners[k].scheduled != []
    case ClientReceives => sys.client.connected && sys.s2c != []
    case ServerReceives => sys.c2s != [] && (sys.server.stage.Ready? ==> sys.server.deferred == [])
    case ServerTakesDeferred => sys.server.stage.Ready? && sys.server.deferred != []
    case ServiceAnswers(id, _) => S.InProgress(sys.server, id, S.Executing)
    case RequestFinishes(id) => S.InProgress(sys.server, id, S.Done)
    case PendingDrains(id) => S.CanDrain(sys.server, id)
    case ServicePublishes(k, _) => k in sys.server.publishers
    case _ => true
  }

  function Step(sys: System, a: Action): System
    requires Enabled(sys, a)
  {
    match a
    case Connect =>
      System(sys.client.(connected := true), S.Initial.(stage := S.Handshaking), [], [], sys.published)
    case Request(wrongServer, call) => ByClient(sys, C.Ask(sys.client, wrongServer, call))
    case Subscribe(wrongServer) => ByClient(sys, C.SubscribeService(sys.client, wrongServer))
    case Abort(id) => ByClient(sys, C.Abort(sys.client, id))
    case Unregister(k) => AfterClient(sys, C.Unregister(sys.client, k))
    case Dispose(k, targetIsCurrent) => ByClient(sys, C.Dispose(sys.client, k, targetIsCurrent))
    case Clear(k) => AfterClient(sys, C.Clear(sys.client, k))
    case StartDelivery(k) => AfterClient(sys, C.Start(sys.client, k))
    case Deliver(k) => AfterClient(sys, C.Deliver(sys.client, k))
    case ClientReceives => AfterClient(sys.(s2c := sys.s2c[1..]), C.Receive(sys.client, sys.s2c[0]))
    case ClientDisconnects => AfterClient(sys, C.Disconnected(sys.client))
    case ServerReceives => ByServer(sys.(c2s := sys.c2s[1..]), S.Dispatch(sys.server, sys.c2s[0]))
    case HandshakeEnds => sys.(server := S.FinishHandshake(sys.server))
    case ServerTakesDeferred => ByServer(sys, S.HandleDeferred(sys.server))
    case ServiceAnswers(id, success) => ByServer(sys, S.Complete(sys.server, id, success))
    case RequestFinishes(id) => sys.(server := S.Finish(sys.server, id))
    case PendingDrains(id) => ByServer(sys, S.DrainOne(sys.server, id))
    case ServicePublishes(k, value) =>
      ByServer(sys.(published := sys.published[k := sys.Published(k) + [value]]), S.Publish(sys.server, k, value))
    case ServerDisconnects => sys.(server := S.Disconnected(sys.server))
  }

  /** A run: actions that cannot be taken are passed over. */
  function Run(actions: seq<Action>): System {
    if actions == [] then Start
    else
      var before, last := Run(actions[..|actions| - 1]), actions[|actions| - 1];
      if Enabled(before, last) then Step(before, last) else before
  }

  // ---------------------------------------------------------------------------------------------------------------
  // Requests and responses

  function RequestsFor(id: nat, messages: seq<ClientMessage>): nat {
    if messages == [] then 0
    else
      var last := messages[|messages| - 1];
      RequestsFor(id, messages[..|messages| - 1]) + if last.Request? && last.id == id then 1 else 0
  }

  function ResponsesFor(id: nat, messages: seq<ServerMessage>): nat {
    if messages == [] then 0
    else
      var last := messages[|messages| - 1];
      ResponsesFor(id, messages[..|messages| - 1]) + if last.Response? && last.id == id then 1 else 0
  }

  lemma {:induction false} RequestsForAppend(id: nat, a: seq<ClientMessage>, b: seq<ClientMessage>)
    ensures RequestsFor(id, a + b) == RequestsFor(id, a) + RequestsFor(id, b)
    decreases |b|
  {
    if b == [] {
      assert a + b == a;
    } else {
      assert (a + b)[..|a + b| - 1] == a + b[..|b| - 1];
      RequestsForAppend(id, a, b[..|b| - 1]);
    }
  }

  lemma {:induction false} ResponsesForAppend(id: nat, a: seq<ServerMessage>, b: seq<ServerMessage>)
    ensures ResponsesFor(id, a + b) == ResponsesFor(id, a) + ResponsesFor(id, b)
    decreases |b|
  {
    if b == [] {
      assert a + b == a;
    } else {
      assert (a + b)[..|a + b| - 1] == a + b[..|b| - 1];
      ResponsesForAppend(id, a, b[..|b| - 1]);
    }
  }

  lemma {:induction false} RequestIsCounted(id: nat, messages: seq<ClientMessage>, i: nat)
    requires i < |messages| && messages[i].Request? && messages[i].id == id
    ensures RequestsFor(id, messages) > 0
    decreases |messages|
  {
    if i < |messages| - 1 {
      RequestIsCounted(id, messages[..|messages| - 1], i);
    }
  }

  lemma {:induction false} ResponseIsCounted(id: nat, messages: seq<ServerMessage>, i: nat)
    requires i < |messages| && messages[i].Response? && messages[i].id == id
    ensures ResponsesFor(id, messages) > 0
    decreases |messages|
  {
    if i < |messages| - 1 {
      ResponseIsCounted(id, messages[..|messages| - 1], i);
    }
  }

  function Executions(server: S.State, id: nat): nat {
    if S.InProgress(server, id, S.Executing) then 1 else 0
  }

  /** Where a request is on its way: in a channel or deferred, with a service, or in its response. */
  function Tokens(sys: System, id: nat): nat {
    RequestsFor(id, sys.Queue()) + Executions(sys.server, id) + ResponsesFor(id, sys.s2c)
  }

  /** A request is on its way exactly once as long as the client waits for it and the server is there, never
      otherwise. */
  predicate Accounted(sys: System, id: nat) {
    && (id in sys.client.pending ==> id <= sys.client.requests)
    && (sys.client.connected ==> Tokens(sys, id) <= if id in sys.client.pending then 1 else 0)
    && (sys.client.connected && !sys.server.stage.Closed? && id in sys.client.pending ==> Tokens(sys, id) == 1)
  }

  function SubscriptionOf(call: Call): Option<nat> {
    if call.Subscribe? then Some(call.subscription) else None
  }

  function StreamOf(reply: Reply): Option<nat>
    requires reply.Success?
  {
    if reply.snapshot.Some? then Some(reply.snapshot.value.subscription) else None
  }

  predicate AsksFor(id: nat, subscription: Option<nat>, m: ClientMessage) {
    m.Request? && m.id == id ==> SubscriptionOf(m.call) == subscription
  }

  predicate Answers(id: nat, subscription: Option<nat>, m: ServerMessage) {
    m.Response? && m.id == id && m.reply.Success? ==> StreamOf(m.reply) == subscription
  }

  /** At every stage a request has the kind of call the client remembers. */
  ghost predicate Matched(sys: System, id: nat) {
    id in sys.client.pending ==>
      var subscription := sys.client.pending[id].subscription;
      && (forall m | m in sys.Queue() :: AsksFor(id, subscription, m))
      && (S.InProgress(sys.server, id, S.Executing) ==>
            SubscriptionOf(sys.server.active[id].call) == subscription)
      && (forall m | m in sys.s2c :: Answers(id, subscription, m))
  }

  /** Without a connection nothing is awaited and nothing is under way. */
  ghost predicate Quiet(sys: System) {
    !sys.client.connected ==> sys.client.pending == map[] && sys.c2s == [] && sys.s2c == []
  }

  lemma NothingOnItsWay(sys: System, id: nat)
    requires Tokens(sys, id) == 0
    ensures forall m | m in sys.Queue() && m.Request? :: m.id != id
    ensures forall m | m in sys.s2c && m.Response? :: m.id != id
  {
    forall i | 0 <= i < |sys.Queue()| && sys.Queue()[i].Request?
      ensures sys.Queue()[i].id != id
    {
      if sys.Queue()[i].id == id {
        RequestIsCounted(id, sys.Queue(), i);
      }
    }
    forall i | 0 <= i < |sys.s2c| && sys.s2c[i].Response?
      ensures sys.s2c[i].id != id
    {
      if sys.s2c[i].id == id {
        ResponseIsCounted(id, sys.s2c, i);
      }
    }
  }

  lemma {:induction false} NoRequests(id: nat, messages: seq<ClientMessage>)
    requires forall m | m in messages :: m.Cancel?
    ensures RequestsFor(id, messages) == 0
    decreases |messages|
  {
    if messages != [] {
      assert messages[|messages| - 1] in messages;
      NoRequests(id, messages[..|messages| - 1]);
    }
  }

  /** Taking up a message moves its request on, to a service or into a response. */
  lemma HandlingMoves(s: S.State, m: ClientMessage, id: nat)
    requires !m.Hello?
    ensures var step := S.Handle(s, m);
            Executions(step.state, id) + ResponsesFor(id, step.sent) == Executions(s, id) + RequestsFor(id, [m])
  {
    assert [m][..0] == [];
    var sent := S.Handle(s, m).sent;
    if sent != [] {
      assert sent[..0] == [];
    }
  }

  lemma CompletingMoves(s: S.State, answered: nat, success: bool, id: nat)
    requires S.InProgress(s, answered, S.Executing)
    ensures var step := S.Complete(s, answered, success);
            Executions(step.state, id) + ResponsesFor(id, step.sent) == Executions(s, id)
  {
    var sent := S.Complete(s, answered, success).sent;
    assert sent[..0] == [];
  }

  /** What the server makes of a request is of the kind that was asked for. */
  lemma HandlingMatches(s: S.State, m: ClientMessage, id: nat, subscription: Option<nat>)
    requires AsksFor(id, subscription, m)
    requires S.InProgress(s, id, S.Executing) ==> SubscriptionOf(s.active[id].call) == subscription
    ensures var step := S.Handle(s, m);
            && (S.InProgress(step.state, id, S.Executing) ==>
                  SubscriptionOf(step.state.active[id].call) == subscription)
            && forall sent | sent in step.sent :: Answers(id, subscription, sent)
  {
  }

  lemma CompletingMatches(s: S.State, answered: nat, success: bool, id: nat, subscription: Option<nat>)
    requires S.InProgress(s, answered, S.Executing)
    requires S.InProgress(s, id, S.Executing) ==> SubscriptionOf(s.active[id].call) == subscription
    ensures var step := S.Complete(s, answered, success);
            && (S.InProgress(step.state, id, S.Executing) ==>
                  SubscriptionOf(step.state.active[id].call) == subscription)
            && forall sent | sent in step.sent :: Answers(id, subscription, sent)
  {
  }

  ghost predicate Correlated(sys: System, id: nat) {
    Accounted(sys, id) && Matched(sys, id)
  }

  /** Sending a request gives it the one place it is at. */
  lemma AskingKeeps(sys: System, client: C.State, wrongServer: bool, call: Call, id: nat)
    requires Correlated(sys, id)
    requires client.connected == sys.client.connected && client.pending == sys.client.pending
    requires client.requests == sys.client.requests
    ensures Correlated(ByClient(sys, C.Ask(client, wrongServer, call)), id)
  {
    if client.connected {
      var step := C.Ask(client, wrongServer, call);
      var after := ByClient(sys, step);
      assert after.Queue() == sys.Queue() + step.sent;
      AskingAccounts(sys, client, wrongServer, call, id);
      if id in after.client.pending {
        if id == client.requests + 1 {
          NothingOnItsWay(sys, id);
        }
        forall m | m in after.Queue()
          ensures AsksFor(id, after.client.pending[id].subscription, m)
        {
          assert m in sys.Queue() || m == step.sent[0];
        }
      }
    }
  }

  lemma AskingAccounts(sys: System, client: C.State, wrongServer: bool, call: Call, id: nat)
    requires Accounted(sys, id) && client.connected && sys.client.connected
    requires client.pending == sys.client.pending && client.requests == sys.client.requests
    ensures Accounted(ByClient(sys, C.Ask(client, wrongServer, call)), id)
  {
    var step := C.Ask(client, wrongServer, call);
    var after := ByClient(sys, step);
    assert after.Queue() == sys.Queue() + step.sent;
    RequestsForAppend(id, sys.Queue(), step.sent);
    assert step.sent[..0] == [];
  }

  lemma CancellingKeeps(sys: System, cancelled: nat, id: nat)
    requires Correlated(sys, id)
    ensures Correlated(ByClient(sys, C.Abort(sys.client, cancelled)), id)
  {
    var step := C.Abort(sys.client, cancelled);
    var after := ByClient(sys, step);
    assert after.Queue() == sys.Queue() + step.sent;
    RequestsForAppend(id, sys.Queue(), step.sent);
    NoRequests(id, step.sent);
  }

  lemma ReceiveTakes(c: C.State, m: ServerMessage)
    requires c.connected
    ensures var after := C.Receive(c, m);
            if after.connected
            then && after.requests == c.requests
                 && after.pending == (if m.Response? then c.pending - {m.id} else c.pending)
            else after.pending == map[]
  {
  }

  lemma ReceivingKeeps(sys: System, id: nat)
    requires Correlated(sys, id) && Enabled(sys, ClientReceives)
    ensures Correlated(Step(sys, ClientReceives), id)
  {
    hide C.Receive;
    var m, rest := sys.s2c[0], sys.s2c[1..];
    ReceiveTakes(sys.client, m);
    assert sys.s2c == [m] + rest;
    ResponsesForAppend(id, [m], rest);
    assert [m][..0] == [];
  }

  /** The server reads or takes up the message at the head of the queue. */
  lemma HandlingKeeps(sys: System, rest: System, m: ClientMessage, id: nat)
    requires Correlated(sys, id)
    requires sys.Queue() == [m] + rest.Queue()
    requires rest.client == sys.client && rest.s2c == sys.s2c && rest.server.active == sys.server.active
    requires rest.server.stage == sys.server.stage
    ensures Correlated(ByServer(rest, S.Handle(rest.server, m)), id)
  {
    HandlingAccounts(sys, rest, m, id);
    HandlingStaysMatched(sys, rest, m, id);
    hide Accounted, Matched;
  }

  lemma HandlingAccounts(sys: System, rest: System, m: ClientMessage, id: nat)
    requires Accounted(sys, id) && sys.Queue() == [m] + rest.Queue()
    requires rest.client == sys.client && rest.s2c == sys.s2c && rest.server.active == sys.server.active
    requires rest.server.stage == sys.server.stage
    ensures Accounted(ByServer(rest, S.Handle(rest.server, m)), id)
  {
    hide S.Handle, S.Accept;
    RequestsForAppend(id, [m], rest.Queue());
    var step := S.Handle(rest.server, m);
    ResponsesForAppend(id, rest.s2c, step.sent);
    HandlingFrame(rest.server, m);
    if m.Hello? {
      ClosingKeeps(rest, id);
      assert ByServer(rest, step).s2c == rest.s2c;
    } else {
      HandlingMoves(rest.server, m, id);
    }
  }

  lemma HandlingStaysMatched(sys: System, rest: System, m: ClientMessage, id: nat)
    requires Matched(sys, id) && sys.Queue() == [m] + rest.Queue()
    requires rest.client == sys.client && rest.s2c == sys.s2c && rest.server.active == sys.server.active
    ensures Matched(ByServer(rest, S.Handle(rest.server, m)), id)
  {
    hide S.Handle, S.Accept;
    HandlingFrame(rest.server, m);
    if m.Hello? {
      ClosingKeeps(rest, id);
    }
    if id in sys.client.pending {
      assert m in sys.Queue();
      HandlingMatches(rest.server, m, id, sys.client.pending[id].subscription);
      QueueOnlyShrinks(sys, rest, m);
    }
  }

  /** Whatever the server gives up leaves less on its way. */
  lemma ClosingKeeps(sys: System, id: nat)
    ensures RequestsFor(id, sys.c2s) <= RequestsFor(id, sys.Queue())
    ensures forall m | m in sys.c2s :: m in sys.Queue()
    ensures sys.(server := S.Disconnected(sys.server)).Queue() == sys.c2s
  {
    RequestsForAppend(id, sys.server.deferred, sys.c2s);
  }

  lemma QueueOnlyShrinks(sys: System, rest: System, m: ClientMessage)
    requires sys.Queue() == [m] + rest.Queue()
    ensures forall other | other in rest.Queue() :: other in sys.Queue()
  {
  }

  lemma HandlingFrame(s: S.State, m: ClientMessage)
    ensures var step := S.Handle(s, m);
            if m.Hello? then step.state.stage.Closed? && step.sent == [] && step.state.deferred == []
                             && step.state.active == map[]
            else step.state.stage == s.stage && step.state.deferred == s.deferred
  {
  }

  lemma DroppingKeeps(sys: System, after: System, id: nat)
    requires Correlated(sys, id) && sys.c2s != []
    requires after.client == sys.client && after.s2c == sys.s2c && after.c2s == sys.c2s[1..]
    requires after.server.stage.Closed? && after.server.deferred == [] && after.server.active == map[]
    ensures Correlated(after, id)
  {
    assert sys.c2s == [sys.c2s[0]] + sys.c2s[1..];
    RequestsForAppend(id, [sys.c2s[0]], sys.c2s[1..]);
    ClosingKeeps(sys, id);
    assert after.Queue() == sys.c2s[1..];
  }

  lemma ServerReceivingKeeps(sys: System, id: nat)
    requires Correlated(sys, id) && Enabled(sys, ServerReceives)
    requires sys.server.stage.Closed? ==> sys.server.deferred == [] && sys.server.active == map[]
    requires !sys.server.stage.AwaitingHello?
    ensures Correlated(Step(sys, ServerReceives), id)
  {
    hide S.Handle, Correlated;
    var m, after := sys.c2s[0], Step(sys, ServerReceives);
    var rest := sys.(c2s := sys.c2s[1..]);
    match sys.server.stage
    case Handshaking =>
      if m.Hello? {
        DroppingKeeps(sys, after, id);
      } else {
        assert after.Queue() == sys.Queue();
        SameQueueKeeps(sys, after, id);
      }
    case Ready =>
      assert sys.Queue() == [m] + rest.Queue();
      HandlingKeeps(sys, rest, m, id);
    case Closed =>
      DroppingKeeps(sys, after, id);
  }

  /** The same accounts, for steps that leave requests and responses alone. */
  lemma SameQueueKeeps(sys: System, after: System, id: nat)
    requires Correlated(sys, id)
    requires after.client.connected == sys.client.connected && after.client.requests == sys.client.requests
    requires after.client.pending == sys.client.pending
    requires after.Queue() == sys.Queue() && after.s2c == sys.s2c
    requires S.InProgress(after.server, id, S.Executing) <==> S.InProgress(sys.server, id, S.Executing)
    requires S.InProgress(after.server, id, S.Executing) ==> after.server.active[id].call == sys.server.active[id].call
    requires after.server.stage.Closed? <==> sys.server.stage.Closed?
    ensures Correlated(after, id)
  {
  }

  lemma AnsweringKeeps(sys: System, answered: nat, success: bool, id: nat)
    requires Correlated(sys, id) && Enabled(sys, ServiceAnswers(answered, success))
    ensures Correlated(Step(sys, ServiceAnswers(answered, success)), id)
  {
    hide S.Complete;
    var step := S.Complete(sys.server, answered, success);
    CompletingFrame(sys.server, answered, success);
    ResponsesForAppend(id, sys.s2c, step.sent);
    CompletingMoves(sys.server, answered, success, id);
    if id in sys.client.pending {
      CompletingMatches(sys.server, answered, success, id, sys.client.pending[id].subscription);
    }
  }

  lemma CompletingFrame(s: S.State, answered: nat, success: bool)
    requires S.InProgress(s, answered, S.Executing)
    ensures var step := S.Complete(s, answered, success);
            step.state.stage == s.stage && step.state.deferred == s.deferred
  {
  }

  /** Updates are neither requests nor responses. */
  lemma UpdatingKeeps(sys: System, after: System, sent: seq<ServerMessage>, id: nat)
    requires Correlated(sys, id)
    requires forall m | m in sent :: m.Update?
    requires after.client == sys.client && after.c2s == sys.c2s && after.server.deferred == sys.server.deferred
    requires after.s2c == if sys.client.connected then sys.s2c + sent else sys.s2c
    requires S.InProgress(after.server, id, S.Executing) <==> S.InProgress(sys.server, id, S.Executing)
    requires S.InProgress(after.server, id, S.Executing) ==> after.server.active[id].call == sys.server.active[id].call
    requires after.server.stage == sys.server.stage
    ensures Correlated(after, id)
  {
    ResponsesForAppend(id, sys.s2c, sent);
    NoResponses(id, sent);
  }

  lemma {:induction false} NoResponses(id: nat, messages: seq<ServerMessage>)
    requires forall m | m in messages :: m.Update?
    ensures ResponsesFor(id, messages) == 0
    decreases |messages|
  {
    if messages != [] {
      assert messages[|messages| - 1] in messages;
      NoResponses(id, messages[..|messages| - 1]);
    }
  }

  lemma DrainingFrame(s: S.State, drained: nat)
    requires S.CanDrain(s, drained)
    ensures var step := S.DrainOne(s, drained);
            && (forall m | m in step.sent :: m.Update?)
            && step.state.deferred == s.deferred && step.state.stage == s.stage
            && (step.state.active == s.active || step.state.active == s.active - {drained})
  {
  }

  lemma PublishingFrame(s: S.State, k: nat, value: int)
    requires k in s.publishers
    ensures var step := S.Publish(s, k, value);
            && (forall m | m in step.sent :: m.Update?)
            && step.state.deferred == s.deferred && step.state.stage == s.stage && step.state.active == s.active
  {
  }

  /** What every step keeps that is not about one request or one subscription. */
  ghost predicate Framed(sys: System) {
    && Quiet(sys)
    && (sys.server.stage.Closed? ==> sys.server.deferred == [] && sys.server.active == map[])
    && (sys.server.stage.AwaitingHello? ==> sys == Start.(client := sys.client) && !sys.client.connected)
  }

  lemma ConnectingKeeps(sys: System, id: nat)
    requires Framed(sys) && Correlated(sys, id) && !sys.client.connected
    ensures Correlated(Step(sys, Action.Connect), id)
  {
    assert Step(sys, Action.Connect).Queue() == [];
  }

  lemma DisconnectingKeeps(sys: System, id: nat)
    requires Correlated(sys, id)
    ensures Correlated(Step(sys, ClientDisconnects), id)
  {
  }

  lemma ClientStepsKeep(sys: System, a: Action, id: nat)
    requires Framed(sys) && Correlated(sys, id) && Enabled(sys, a)
    requires a.Connect? || a.Request? || a.Subscribe? || a.Abort? || a.Unregister? || a.Dispose? || a.Clear?
             || a.StartDelivery? || a.Deliver? || a.ClientDisconnects?
    ensures Correlated(Step(sys, a), id)
  {
    hide Correlated;
    match a
    case Request(wrongServer, call) => AskingKeeps(sys, sys.client, wrongServer, call, id);
    case Subscribe(wrongServer) =>
      var k := sys.client.subscriptions + 1;
      var listeners := sys.client.listeners[k := C.NewListener(sys.client.requests + 1)];
      AskingKeeps(sys, sys.client.(subscriptions := k, listeners := listeners), wrongServer, Call.Subscribe(k), id);
      if !sys.client.connected {
        SameQueueKeeps(sys, Step(sys, a), id);
      }
    case Dispose(k, targetIsCurrent) =>
      var l := sys.client.listeners[k].(registered := false, disposed := true);
      AskingKeeps(sys, C.WithListener(sys.client, k, l), false, Unsubscribe(k), id);
      if !targetIsCurrent || sys.client.listeners[k].disposed {
        SameQueueKeeps(sys, Step(sys, a), id);
      }
    case Abort(cancelled) => CancellingKeeps(sys, cancelled, id);
    case Connect => ConnectingKeeps(sys, id);
    case ClientDisconnects => DisconnectingKeeps(sys, id);
    case Unregister(_) => SameQueueKeeps(sys, Step(sys, a), id);
    case Clear(_) => SameQueueKeeps(sys, Step(sys, a), id);
    case StartDelivery(_) => SameQueueKeeps(sys, Step(sys, a), id);
    case Deliver(_) => SameQueueKeeps(sys, Step(sys, a), id);
  }

  lemma CorrelationStep(sys: System, a: Action, id: nat)
    requires Framed(sys) && Correlated(sys, id) && Enabled(sys, a)
    ensures Correlated(Step(sys, a), id)
  {
    hide Correlated, S.Complete, S.DrainOne, S.Publish, S.Handle;
    match a
    case ClientReceives => ReceivingKeeps(sys, id);
    case ServerReceives => ServerReceivingKeeps(sys, id);
    case HandshakeEnds => SameQueueKeeps(sys, Step(sys, a), id);
    case ServerTakesDeferred =>
      var rest := sys.(server := sys.server.(deferred := sys.server.deferred[1..]));
      assert sys.Queue() == [sys.server.deferred[0]] + rest.Queue();
      HandlingKeeps(sys, rest, sys.server.deferred[0], id);
    case ServiceAnswers(answered, success) => AnsweringKeeps(sys, answered, success, id);
    case RequestFinishes(_) => SameQueueKeeps(sys, Step(sys, a), id);
    case PendingDrains(drained) =>
      DrainingFrame(sys.server, drained);
      UpdatingKeeps(sys, Step(sys, a), S.DrainOne(sys.server, drained).sent, id);
    case ServicePublishes(k, value) =>
      PublishingFrame(sys.server, k, value);
      UpdatingKeeps(sys, Step(sys, a), S.Publish(sys.server, k, value).sent, id);
    case ServerDisconnects => ServerClosingKeeps(sys, id);
    case _ => ClientStepsKeep(sys, a, id);
  }

  lemma ServerClosingKeeps(sys: System, id: nat)
    requires Correlated(sys, id)
    ensures Correlated(sys.(server := S.Disconnected(sys.server)), id)
  {
    ClosingKeeps(sys, id);
  }
}
