/** The server's side of one connection: the stages of the connection, its active requests and its subscriptions.

    A stretch of code between two suspensions is one step, and returns the messages it sends. The steps are given first
    as functions of the connection's state; the class does the same to its fields. */
module ServiceServer {
  import opened Common
  import opened Protocol

  datatype Stage = AwaitingHello | Handshaking | Ready | Closed

  /** A request is with a service, then its response is out; a subscription has more to send after that. */
  datatype Progress = Executing | Draining | Done

  datatype Active = Active(call: Call, aborted: bool, progress: Progress)

  /** What the `publish` closure of a subscribe request holds: the updates to send after the response, and whether they
      have all been sent. */
  datatype Publisher = Publisher(request: nat, pending: seq<int>, ready: bool)

  datatype State = State(
    stage: Stage,
    deferred: seq<ClientMessage>,
    active: map<nat, Active>,
    encoders: map<nat, nat>,
    publishers: map<nat, Publisher>)

  datatype Step = Step(state: State, sent: seq<ServerMessage>)

  const Initial := State(AwaitingHello, [], map[], map[], map[])

  function Disconnected(s: State): State {
    s.(stage := Closed, deferred := [], active := map[], encoders := map[])
  }

  /** A request as it is taken up: refused on the spot, or handed to a service. */
  function Accept(s: State, id: nat, wrongServer: bool, call: Call): Step {
    if id in s.active || call.Malformed? then
      Step(s, [Response(id, Failure(InvalidRequest))])
    else if wrongServer || (call.Subscribe? && call.subscription in s.encoders) then
      Step(s.(active := s.active[id := Active(call, false, Done)]),
           [Response(id, Failure(if wrongServer then WrongServer else InvalidRequest))])
    else
      Step(s.(active := s.active[id := Active(call, false, Executing)],
              publishers := if call.Subscribe? then s.publishers[call.subscription := Publisher(id, [], false)]
                            else s.publishers), [])
  }

  function Handle(s: State, m: ClientMessage): Step {
    match m
    case Hello => Step(Disconnected(s), [])
    case Request(id, wrongServer, call) => Accept(s, id, wrongServer, call)
    case Cancel(id) =>
      Step(if id in s.active then s.(active := s.active[id := s.active[id].(aborted := true)]) else s, [])
  }

  /** `dispatchMessage`. */
  function Dispatch(s: State, m: ClientMessage): Step {
    match s.stage
    case AwaitingHello => Step(if m.Hello? then s.(stage := Handshaking) else Disconnected(s), [])
    case Handshaking => if m.Hello? then Step(Disconnected(s), []) else Step(s.(deferred := s.deferred + [m]), [])
    case Ready => Handle(s, m)
    case Closed => Step(s, [])
  }

  /** The handshake is over; what came in during it is handled next, one message at a time. */
  function FinishHandshake(s: State): State {
    if s.stage.Handshaking? then s.(stage := Ready) else s
  }

  function HandleDeferred(s: State): Step
    requires s.stage.Ready? && s.deferred != []
  {
    Handle(s.(deferred := s.deferred[1..]), s.deferred[0])
  }

  predicate InProgress(s: State, id: nat, progress: Progress) {
    id in s.active && s.active[id].progress == progress
  }

  function Advance(s: State, id: nat, progress: Progress): State
    requires id in s.active
  {
    s.(active := s.active[id := s.active[id].(progress := progress)])
  }

  /** The service has answered: the response goes out, and a subscription gets its encoder with it. */
  function Complete(s: State, id: nat, success: bool): Step
    requires InProgress(s, id, Executing)
  {
    if !success then
      Step(Advance(s, id, Done), [Response(id, Failure(if s.active[id].aborted then Cancelled else Failed))])
    else
      match s.active[id].call
      case Subscribe(k) =>
        Step(Advance(s, id, Draining).(encoders := s.encoders[k := 1]),
             [Response(id, Success(Some(Item(k, 0, Snapshot))))])
      case Unsubscribe(k) =>
        Step(Advance(s, id, Done).(encoders := s.encoders - {k}), [Response(id, Success(None))])
      case _ => Step(Advance(s, id, Done), [Response(id, Success(None))])
  }

  /** `sendServiceUpdate`: nothing is sent without an encoder. */
  function SendUpdate(s: State, k: nat, value: int): Step {
    if k in s.encoders then
      Step(s.(encoders := s.encoders[k := s.encoders[k] + 1]), [Update(Item(k, s.encoders[k], Change(value)))])
    else
      Step(s, [])
  }

  /** The service publishes an update of a subscription. */
  function Publish(s: State, k: nat, value: int): Step
    requires k in s.publishers
  {
    if s.publishers[k].ready then SendUpdate(s, k, value)
    else Step(s.(publishers := s.publishers[k := s.publishers[k].(pending := s.publishers[k].pending + [value])]), [])
  }

  /** A request is over once its response is out and, for a subscription, nothing is left to send. */
  function Finish(s: State, id: nat): State
    requires InProgress(s, id, Done)
  {
    s.(active := s.active - {id})
  }

  predicate CanDrain(s: State, id: nat) {
    && InProgress(s, id, Draining) && s.active[id].call.Subscribe?
    && s.active[id].call.subscription in s.publishers
  }

  /** After the response, the updates that came in before it was out are sent one by one; when there are none left,
      later ones are sent as they come. */
  function DrainOne(s: State, id: nat): Step
    requires CanDrain(s, id)
  {
    var k := s.active[id].call.subscription;
    var publisher := s.publishers[k];
    if publisher.pending == [] then
      Step(s.(active := s.active - {id}, publishers := s.publishers[k := publisher.(ready := true)]), [])
    else
      SendUpdate(s.(publishers := s.publishers[k := publisher.(pending := publisher.pending[1..])]),
                 k, publisher.pending[0])
  }

  class ServerConnection {
    var stage: Stage
    var deferred: seq<ClientMessage>
    var active: map<nat, Active>
    var encoders: map<nat, nat>
    var publishers: map<nat, Publisher>

    constructor ()
      ensures Contents() == Initial
    {
      stage, deferred, active, encoders, publishers := AwaitingHello, [], map[], map[], map[];
    }

    function Contents(): State
      reads this
    {
      State(stage, deferred, active, encoders, publishers)
    }

    method Disconnect()
      modifies this
      ensures Contents() == Disconnected(old(Contents()))
    {
      stage := Closed;
      deferred := [];
      active := map[];
      encoders := map[];
    }

    method DispatchMessage(m: ClientMessage) returns (sent: seq<ServerMessage>)
      modifies this
      ensures Step(Contents(), sent) == Dispatch(old(Contents()), m)
    {
      sent := [];
      match stage
      case AwaitingHello =>
        if m.Hello? {
          stage := Handshaking;
        } else {
          Disconnect();
        }
      case Handshaking =>
        if m.Hello? {
          Disconnect();
        } else {
          deferred := deferred + [m];
        }
      case Ready =>
        sent := HandleMessage(m);
      case Closed =>
    }

    method HandleMessage(m: ClientMessage) returns (sent: seq<ServerMessage>)
      modifies this
      ensures Step(Contents(), sent) == Handle(old(Contents()), m)
    {
      sent := [];
      match m
      case Hello =>
        Disconnect();
      case Request(id, wrongServer, call) =>
        sent := HandleRequest(id, wrongServer, call);
      case Cancel(id) =>
        if id in active {
          active := active[id := active[id].(aborted := true)];
        }
    }

    /** `handleRequest` up to its first suspension. */
    method HandleRequest(id: nat, wrongServer: bool, call: Call) returns (sent: seq<ServerMessage>)
      modifies this
      ensures Step(Contents(), sent) == Accept(old(Contents()), id, wrongServer, call)
    {
      if id in active || call.Malformed? {
        return [Response(id, Failure(InvalidRequest))];
      }
      active := active[id := Active(call, false, Executing)];
      if wrongServer || (call.Subscribe? && call.subscription in encoders) {
        active := active[id := Active(call, false, Done)];
        return [Response(id, Failure(if wrongServer then WrongServer else InvalidRequest))];
      }
      if call.Subscribe? {
        publishers := publishers[call.subscription := Publisher(id, [], false)];
      }
      sent := [];
    }

    /** Go on once the handshake is over. */
    method EnterReady()
      modifies this`stage
      ensures Contents() == FinishHandshake(old(Contents()))
    {
      if stage.Handshaking? {
        stage := Ready;
      }
    }

    method TakeDeferred() returns (sent: seq<ServerMessage>)
      requires stage.Ready? && deferred != []
      modifies this
      ensures Step(Contents(), sent) == HandleDeferred(old(Contents()))
    {
      var m := deferred[0];
      deferred := deferred[1..];
      sent := HandleMessage(m);
    }

    /** `handleRequest` when its service call has settled. */
    method Respond(id: nat, success: bool) returns (sent: seq<ServerMessage>)
      requires InProgress(Contents(), id, Executing)
      modifies this`active, this`encoders
      ensures Step(Contents(), sent) == Complete(old(Contents()), id, success)
    {
      var request := active[id];
      if !success {
        active := active[id := request.(progress := Done)];
        return [Response(id, Failure(if request.aborted then Cancelled else Failed))];
      }
      match request.call
      case Subscribe(k) =>
        encoders := encoders[k := 1];
        active := active[id := request.(progress := Draining)];
        return [Response(id, Success(Some(Item(k, 0, Snapshot))))];
      case Unsubscribe(k) =>
        encoders := encoders - {k};
        active := active[id := request.(progress := Done)];
        return [Response(id, Success(None))];
      case _ =>
        active := active[id := request.(progress := Done)];
        return [Response(id, Success(None))];
    }

    method SendServiceUpdate(k: nat, value: int) returns (sent: seq<ServerMessage>)
      modifies this`encoders
      ensures Step(Contents(), sent) == SendUpdate(old(Contents()), k, value)
    {
      if k !in encoders {
        return [];
      }
      sent := [Update(Item(k, encoders[k], Change(value)))];
      encoders := encoders[k := encoders[k] + 1];
    }

    /** The `publish` closure of a subscription. */
    method PublishUpdate(k: nat, value: int) returns (sent: seq<ServerMessage>)
      requires k in publishers
      modifies this`encoders, this`publishers
      ensures Step(Contents(), sent) == Publish(old(Contents()), k, value)
    {
      if !publishers[k].ready {
        publishers := publishers[k := publishers[k].(pending := publishers[k].pending + [value])];
        return [];
      }
      sent := SendServiceUpdate(k, value);
    }

    /** One round of the loop that sends what came in before the response was out. */
    method DrainPending(id: nat) returns (sent: seq<ServerMessage>)
      requires CanDrain(Contents(), id)
      modifies this`active, this`encoders, this`publishers
      ensures Step(Contents(), sent) == DrainOne(old(Contents()), id)
    {
      var k := active[id].call.subscription;
      var publisher := publishers[k];
      if publisher.pending == [] {
        publishers := publishers[k := publisher.(ready := true)];
        active := active - {id};
        return [];
      }
      publishers := publishers[k := publisher.(pending := publisher.pending[1..])];
      sent := SendServiceUpdate(k, publisher.pending[0]);
    }

    method FinishRequest(id: nat)
      requires InProgress(Contents(), id, Done)
      modifies this`active
      ensures Contents() == Finish(old(Contents()), id)
    {
      active := active - {id};
    }
  }
}
