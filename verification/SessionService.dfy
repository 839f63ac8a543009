/** Which requests are served and which are refused, over every run: the server refuses what names another server or is
    malformed, and nothing else that a client sends.

    That needs more than the code which takes a request up: it looks at the requests that are active and at the
    subscriptions that are live, and no run makes a client's new request meet either. */
module SessionService {
  import opened Common
  import opened Protocol
  import opened Session
  import opened SessionStreams
  import C = ServiceClient
  import S = ServiceServer

  // ---------------------------------------------------------------------------------------------------------------
  // One message taken up

  /** What is wrong with a request when it is taken up: its id is active, its call is malformed, it names another server
      or its subscription is live. */
  predicate Refusable(s: S.State, m: ClientMessage)
    requires m.Request?
  {
    || m.id in s.active || m.call.Malformed? || m.wrongServer
    || (m.call.Subscribe? && m.call.subscription in s.encoders)
  }

  /** A request is answered at once exactly if something is wrong with it, and nothing else comes of it then;
      otherwise it is with its service, not aborted, and a subscribe request has its publisher, with nothing to send.
      A cancellation is noted with the request it names, if that is still active. */
  ghost predicate TakenUp(s: S.State, m: ClientMessage, after: S.State, sent: seq<ServerMessage>) {
    && after.stage == s.stage && after.encoders == s.encoders
    && match m
       case Hello => true
       case Request(id, wrongServer, call) =>
         if Refusable(s, m) then
           && (sent == [Response(id, Failure(InvalidRequest))] || sent == [Response(id, Failure(WrongServer))])
           && (sent[0].reply.code.WrongServer? <==> wrongServer && id !in s.active && !call.Malformed?)
           && after.publishers == s.publishers
           && (forall other | other != id :: other in after.active <==> other in s.active)
           && (S.InProgress(after, id, S.Executing) <==> S.InProgress(s, id, S.Executing))
         else
           && sent == []
           && after.active == s.active[id := S.Active(call, false, S.Executing)]
           && (call.Subscribe? ==> after.publishers == s.publishers[call.subscription := S.Publisher(id, [], false)])
       case Cancel(id) =>
         && sent == [] && after.publishers == s.publishers && after.active.Keys == s.active.Keys
         && (id in s.active ==> after.active[id] == s.active[id].(aborted := true))
         && (forall other | other in s.active && other != id :: after.active[other] == s.active[other])
  }

  lemma HandlingTakesUp(s: S.State, m: ClientMessage)
    requires !m.Hello?
    ensures TakenUp(s, m, S.Handle(s, m).state, S.Handle(s, m).sent)
  {
    match m
    case Request(id, wrongServer, call) =>
      var step := S.Accept(s, id, wrongServer, call);
      if Refusable(s, m) {
        assert step.sent[0].reply.Failure?;
      }
    case Cancel(id) =>
  }

  /** The message that a step of the server takes up, if it takes one up: in the ready stage, the oldest there is. */
  function Taken(sys: System, a: Action): Option<ClientMessage> {
    match a
    case ServerReceives =>
      if sys.server.stage.Ready? && sys.server.deferred == [] && sys.c2s != [] && !sys.c2s[0].Hello?
      then Some(sys.c2s[0]) else None
    case ServerTakesDeferred =>
      if sys.server.stage.Ready? && sys.server.deferred != [] && !sys.server.deferred[0].Hello?
      then Some(sys.server.deferred[0]) else None
    case _ => None
  }

  /** What such a step makes of the system. */
  ghost predicate Answered(sys: System, m: ClientMessage, after: System) {
    exists sent ::
      && TakenUp(sys.server, m, after.server, sent)
      && after.s2c == if sys.client.connected then sys.s2c + sent else sys.s2c
  }

  lemma TakingUp(sys: System, a: Action)
    requires Enabled(sys, a) && Taken(sys, a).Some?
    ensures Answered(sys, Taken(sys, a).value, Step(sys, a))
  {
    var m := Taken(sys, a).value;
    match a {
      case ServerReceives =>
        HandlingTakesUp(sys.server, m);
        assert TakenUp(sys.server, m, Step(sys, a).server, S.Handle(sys.server, m).sent);
      case ServerTakesDeferred =>
        var rest := sys.server.(deferred := sys.server.deferred[1..]);
        HandlingTakesUp(rest, m);
        assert TakenUp(sys.server, m, Step(sys, a).server, S.Handle(rest, m).sent);
      case _ =>
    }
  }

  // ---------------------------------------------------------------------------------------------------------------
  // No request meets itself

  /** At how many places a request still to be taken up, or active at the server, is. */
  function Places(sys: System, id: nat): nat {
    RequestsFor(id, sys.Queue()) + if id in sys.server.active then 1 else 0
  }

  predicate FreshId(sys: System, id: nat) {
    Places(sys, id) <= 1 && (Places(sys, id) > 0 ==> id <= sys.client.requests)
  }

  /** A request that is still to be taken up is not active, and there is one of it. */
  ghost predicate Fresh(sys: System) {
    forall id :: FreshId(sys, id)
  }

  lemma FewerPlaces(sys: System, after: System, id: nat)
    requires FreshId(sys, id) && sys.client.requests <= after.client.requests && Places(after, id) <= Places(sys, id)
    ensures FreshId(after, id)
  {
  }

  lemma AskingFresh(sys: System, client: C.State, wrongServer: bool, call: Call, id: nat)
    requires FreshId(sys, id) && client.requests == sys.client.requests
    ensures FreshId(ByClient(sys, C.Ask(client, wrongServer, call)), id)
  {
    var step := C.Ask(client, wrongServer, call);
    var after := ByClient(sys, step);
    assert after.Queue() == sys.Queue() + step.sent;
    RequestsForAppend(id, sys.Queue(), step.sent);
    if client.connected {
      assert step.sent[..0] == [];
    }
  }

  /** The head of the queue is taken up. */
  lemma TakingFresh(sys: System, rest: System, m: ClientMessage, id: nat)
    requires FreshId(sys, id) && sys.Queue() == [m] + rest.Queue() && rest.server.active == sys.server.active
    requires rest.client == sys.client
    ensures FreshId(ByServer(rest, S.Handle(rest.server, m)), id)
  {
    var after := ByServer(rest, S.Handle(rest.server, m));
    RequestsForAppend(id, [m], rest.Queue());
    assert [m][..0] == [];
    match m
    case Hello =>
      RequestsForAppend(id, rest.server.deferred, rest.c2s);
      assert after.Queue() == rest.c2s;
    case Request(_, _, _) => assert after.Queue() == rest.Queue();
    case Cancel(_) => assert after.Queue() == rest.Queue();
  }

  /** The server drops what it reads, with all it holds or alone. */
  lemma DroppingFresh(sys: System, after: System, id: nat)
    requires FreshId(sys, id) && sys.c2s != []
    requires after.client == sys.client && after.c2s == sys.c2s[1..]
    requires after.server.deferred == [] || after.server.deferred == sys.server.deferred
    requires after.server.active == map[] || after.server.active == sys.server.active
    ensures FreshId(after, id)
  {
    assert sys.c2s == [sys.c2s[0]] + after.c2s;
    RequestsForAppend(id, [sys.c2s[0]], after.c2s);
    RequestsForAppend(id, sys.server.deferred, sys.c2s);
    RequestsForAppend(id, after.server.deferred, after.c2s);
  }

  lemma ReceivingFresh(sys: System, id: nat)
    requires FreshId(sys, id) && Enabled(sys, ServerReceives)
    ensures FreshId(Step(sys, ServerReceives), id)
  {
    hide S.Handle, FreshId;
    var m, after := sys.c2s[0], Step(sys, ServerReceives);
    match sys.server.stage
    case AwaitingHello => DroppingFresh(sys, after, id);
    case Handshaking =>
      if m.Hello? {
        DroppingFresh(sys, after, id);
      } else {
        assert after.Queue() == sys.Queue();
        FewerPlaces(sys, after, id);
      }
    case Ready =>
      assert sys.Queue() == [m] + sys.(c2s := sys.c2s[1..]).Queue();
      TakingFresh(sys, sys.(c2s := sys.c2s[1..]), m, id);
    case Closed => DroppingFresh(sys, after, id);
  }

  lemma ServerFresh(sys: System, a: Action, id: nat)
    requires FreshId(sys, id) && Enabled(sys, a) && ByTheServer(a)
    ensures FreshId(Step(sys, a), id)
  {
    hide S.Handle, S.Complete, S.DrainOne, S.Publish, FreshId;
    match a
    case ServerReceives => ReceivingFresh(sys, id);
    case ServerTakesDeferred =>
      var rest := sys.(server := sys.server.(deferred := sys.server.deferred[1..]));
      assert sys.Queue() == [sys.server.deferred[0]] + rest.Queue();
      TakingFresh(sys, rest, sys.server.deferred[0], id);
    case ServiceAnswers(answered, success) =>
      CompletingKeys(sys.server, answered, success);
      FewerPlaces(sys, Step(sys, a), id);
    case PendingDrains(drained) =>
      DrainingFrame(sys.server, drained);
      FewerPlaces(sys, Step(sys, a), id);
    case ServicePublishes(k, value) =>
      PublishingFrame(sys.server, k, value);
      FewerPlaces(sys, Step(sys, a), id);
    case ServerDisconnects =>
      ClosingKeeps(sys, id);
      FewerPlaces(sys, Step(sys, a), id);
    case HandshakeEnds => FewerPlaces(sys, Step(sys, a), id);
    case RequestFinishes(_) => FewerPlaces(sys, Step(sys, a), id);
  }

  lemma CompletingKeys(s: S.State, id: nat, success: bool)
    requires S.InProgress(s, id, S.Executing)
    ensures var after := S.Complete(s, id, success).state;
            after.active.Keys == s.active.Keys && after.deferred == s.deferred
  {
  }

  lemma ClientFresh(sys: System, a: Action, id: nat)
    requires FreshId(sys, id) && Enabled(sys, a) && !ByTheServer(a)
    ensures FreshId(Step(sys, a), id)
  {
    hide C.Receive, FreshId;
    RequestsForAppend(id, sys.server.deferred, sys.c2s);
    match a
    case Connect =>
      assert Step(sys, a).Queue() == [];
      FewerPlaces(sys, Step(sys, a), id);
    case Request(wrongServer, call) => AskingFresh(sys, sys.client, wrongServer, call, id);
    case Subscribe(wrongServer) =>
      var k := sys.client.subscriptions + 1;
      var listeners := sys.client.listeners[k := C.NewListener(sys.client.requests + 1)];
      AskingFresh(sys, sys.client.(subscriptions := k, listeners := listeners), wrongServer, Call.Subscribe(k), id);
      if !sys.client.connected {
        assert Step(sys, a).Queue() == sys.Queue();
        FewerPlaces(sys, Step(sys, a), id);
      }
    case Dispose(k, targetIsCurrent) =>
      var l := sys.client.listeners[k].(registered := false, disposed := true);
      AskingFresh(sys, C.WithListener(sys.client, k, l), false, Unsubscribe(k), id);
      if !targetIsCurrent || sys.client.listeners[k].disposed {
        assert Step(sys, a).Queue() == sys.Queue();
        FewerPlaces(sys, Step(sys, a), id);
      }
    case Abort(cancelled) => CancellingFresh(sys, cancelled, id);
    case ClientReceives =>
      ReceivingRequests(sys.client, sys.s2c[0]);
      AfterClientFresh(sys, sys.(s2c := sys.s2c[1..]), C.Receive(sys.client, sys.s2c[0]), id);
    case ClientDisconnects => AfterClientFresh(sys, sys, C.Disconnected(sys.client), id);
    case Unregister(k) => AfterClientFresh(sys, sys, C.Unregister(sys.client, k), id);
    case Clear(k) => AfterClientFresh(sys, sys, C.Clear(sys.client, k), id);
    case StartDelivery(k) => AfterClientFresh(sys, sys, C.Start(sys.client, k), id);
    case Deliver(k) => AfterClientFresh(sys, sys, C.Deliver(sys.client, k), id);
  }

  lemma CancellingFresh(sys: System, cancelled: nat, id: nat)
    requires FreshId(sys, id)
    ensures FreshId(ByClient(sys, C.Abort(sys.client, cancelled)), id)
  {
    var step := C.Abort(sys.client, cancelled);
    assert ByClient(sys, step).Queue() == sys.Queue() + step.sent;
    RequestsForAppend(id, sys.Queue(), step.sent);
    NoRequests(id, step.sent);
  }

  /** The client gives up what it has sent, if anything. */
  lemma AfterClientFresh(sys: System, now: System, client: C.State, id: nat)
    requires FreshId(sys, id) && now.server == sys.server && now.c2s == sys.c2s
    requires client.requests == sys.client.requests
    ensures FreshId(AfterClient(now, client), id)
  {
    RequestsForAppend(id, sys.server.deferred, sys.c2s);
    assert sys.server.deferred + [] == sys.server.deferred;
  }

  lemma ReceivingRequests(c: C.State, m: ServerMessage)
    ensures C.Receive(c, m).requests == c.requests
  {
  }

  lemma FreshStep(sys: System, a: Action)
    requires Fresh(sys) && Enabled(sys, a)
    ensures Fresh(Step(sys, a))
  {
    hide Step, FreshId;
    forall id
      ensures FreshId(Step(sys, a), id)
    {
      assert FreshId(sys, id);
      if ByTheServer(a) {
        ServerFresh(sys, a, id);
      } else {
        ClientFresh(sys, a, id);
      }
    }
  }

  lemma {:induction false} FreshRun(actions: seq<Action>)
    ensures Fresh(Run(actions))
    decreases |actions|
  {
    hide Step;
    if actions != [] {
      var before, last := Run(actions[..|actions| - 1]), actions[|actions| - 1];
      FreshRun(actions[..|actions| - 1]);
      if Enabled(before, last) {
        FreshStep(before, last);
      }
    }
  }

  // ---------------------------------------------------------------------------------------------------------------
  // The theorem

  lemma {:induction false} AskIsThere(k: nat, messages: seq<ClientMessage>)
    requires messages != [] && messages[0].Request? && messages[0].call == Call.Subscribe(k)
    ensures Asks(k, messages) > 0
    decreases |messages|
  {
    if |messages| > 1 {
      AskIsThere(k, messages[..|messages| - 1]);
    }
  }

  /** A request that is still to be taken up meets no active request and no live subscription. */
  lemma NothingIsMet(sys: System, m: ClientMessage)
    requires Inv(sys) && Fresh(sys) && sys.Queue() != [] && sys.Queue()[0] == m && m.Request?
    ensures Refusable(sys.server, m) <==> m.wrongServer || m.call.Malformed?
  {
    assert FreshId(sys, m.id);
    RequestIsCounted(m.id, sys.Queue(), 0);
    if m.call.Subscribe? {
      var k := m.call.subscription;
      AskIsThere(k, sys.Queue());
      assert Right(k, SliceOf(sys, k));
    }
  }

  /** What becomes of a client's request: it is refused, with the reason, if it names another server or is malformed,
      and is with its service otherwise, a subscribe request with its publisher. */
  predicate Served(sys: System, m: ClientMessage, after: System)
    requires m.Request?
  {
    if m.wrongServer || m.call.Malformed? then
      && !S.InProgress(after.server, m.id, S.Executing)
      && after.server.publishers == sys.server.publishers
      && (sys.client.connected ==>
            after.s2c
            == sys.s2c + [Response(m.id, Failure(if m.call.Malformed? then InvalidRequest else WrongServer))])
    else
      && S.InProgress(after.server, m.id, S.Executing)
      && after.server.active[m.id] == S.Active(m.call, false, S.Executing)
      && after.s2c == sys.s2c
      && (m.call.Subscribe? ==>
            && m.call.subscription in after.server.publishers
            && after.server.publishers[m.call.subscription] == S.Publisher(m.id, [], false))
  }

  lemma AnsweredIsServed(sys: System, m: ClientMessage, after: System)
    requires m.Request? && Answered(sys, m, after) && m.id !in sys.server.active
    requires Refusable(sys.server, m) <==> m.wrongServer || m.call.Malformed?
    ensures Served(sys, m, after)
  {
    assert sys.s2c + [] == sys.s2c;
  }

  lemma TakenIsServed(sys: System, a: Action)
    requires Inv(sys) && Fresh(sys) && Enabled(sys, a) && Taken(sys, a).Some? && Taken(sys, a).value.Request?
    ensures Served(sys, Taken(sys, a).value, Step(sys, a))
  {
    var m := Taken(sys, a).value;
    assert FreshId(sys, m.id);
    hide Inv, Fresh;
    RequestIsCounted(m.id, sys.Queue(), 0);
    NothingIsMet(sys, m);
    TakingUp(sys, a);
    hide Step, Answered;
    AnsweredIsServed(sys, m, Step(sys, a));
  }

  /** Over every run: a request that a step takes up is refused if and only if it names another server or is malformed,
      and its refusal says which; any other is then with its service, a subscribe request with its publisher. */
  lemma {:induction false} RequestsAreServed(actions: seq<Action>, a: Action)
    requires Enabled(Run(actions), a) && Taken(Run(actions), a).Some? && Taken(Run(actions), a).value.Request?
    ensures Run(actions + [a]) == Step(Run(actions), a)
    ensures Served(Run(actions), Taken(Run(actions), a).value, Run(actions + [a]))
  {
    assert (actions + [a])[..|actions|] == actions;
    InvRun(actions);
    FreshRun(actions);
    hide Inv, Fresh, Step, Served, Taken;
    TakenIsServed(Run(actions), a);
  }

  lemma BothStep(sys: System, a: Action)
    requires Inv(sys) && Fresh(sys) && Enabled(sys, a)
    ensures Inv(Step(sys, a)) && Fresh(Step(sys, a))
  {
    hide Inv, Fresh, Step;
    InvStep(sys, a);
    FreshStep(sys, a);
  }

  /** What a service's answer becomes: a failed request says whether it had been cancelled, and a subscription's success
      carries the snapshot. */
  predicate Replies(request: S.Active, success: bool, reply: Reply) {
    if !success then reply == Failure(if request.aborted then Cancelled else ErrorCode.Failed)
    else reply == Success(if request.call.Subscribe? then Some(Item(request.call.subscription, 0, Snapshot)) else None)
  }

  lemma CompletingReplies(s: S.State, id: nat, success: bool)
    requires S.InProgress(s, id, S.Executing)
    ensures var sent := S.Complete(s, id, success).sent;
            |sent| == 1 && sent[0].Response? && sent[0].id == id && Replies(s.active[id], success, sent[0].reply)
    ensures Lives(s.active[id].call, success, s.encoders, S.Complete(s, id, success).state.encoders)
  {
  }

  /** The live subscriptions after an answer: one more if it is to a subscribe request, one fewer if to an unsubscribe
      request. */
  predicate Lives(call: Call, success: bool, before: map<nat, nat>, after: map<nat, nat>) {
    if success && call.Subscribe? then after == before[call.subscription := 1]
    else if success && call.Unsubscribe? then after == before - {call.subscription}
    else after == before
  }

  /** A start that is the first, of a subscription that is not disposed of, hands what is queued to the listener; any
      other changes nothing. */
  predicate Started(l: C.Listener, after: C.Listener) {
    if l.disposed || l.ready then after == l
    else after.ready && after.queued == [] && after.scheduled == l.scheduled + l.queued
         && after.delivered == l.delivered && after.disposed == l.disposed && after.registered == l.registered
  }
}
