/** The client's side of a connection: its pending requests and its service subscriptions.

    A stretch of code between two suspensions is one step. The steps are given first as functions of the client's state;
    the class does the same to its fields. */
module ServiceClient {
  import opened Common
  import opened Protocol

  /** Why the client fails its own connection. */
  datatype Fault = UnmatchedResponse(id: nat) | BadStream(subscription: nat)

  /** A request that awaits its response; a subscription decodes the snapshot in it. */
  datatype Pending = Pending(subscription: Option<nat>, aborted: bool)

  /** One subscription, made by one request. `decoded` is where its decoder stands: how many items of the stream it has
      decoded. Decoded updates are queued until the start, then scheduled for the listener, then delivered, each in
      order. */
  datatype Listener = Listener(
    request: nat,
    registered: bool,
    hydrated: bool,
    ready: bool,
    disposed: bool,
    decoded: nat,
    queuedWireUpdates: seq<Item>,
    queued: seq<int>,
    scheduled: seq<int>,
    delivered: seq<int>)

  function NewListener(request: nat): Listener {
    Listener(request, true, false, false, false, 0, [], [], [], [])
  }

  datatype State = State(
    connected: bool,
    requests: nat,
    subscriptions: nat,
    pending: map<nat, Pending>,
    listeners: map<nat, Listener>,
    fault: Option<Fault>)

  datatype Step = Step(state: State, sent: seq<ClientMessage>)

  const Initial := State(false, 0, 0, map[], map[], None)

  /** `#request`, for a call that may belong to a subscription. */
  function Ask(c: State, wrongServer: bool, call: Call): Step {
    if !c.connected then Step(c, [])
    else
      var id := c.requests + 1;
      var subscription := if call.Subscribe? then Some(call.subscription) else None;
      Step(c.(requests := id, pending := c.pending[id := Pending(subscription, false)]),
           [Request(id, wrongServer, call)])
  }

  /** `subscribeService` up to its request. A listener whose request cannot be made is removed again. */
  function SubscribeService(c: State, wrongServer: bool): Step {
    var k := c.subscriptions + 1;
    var counted := c.(subscriptions := k);
    if !c.connected then Step(counted, [])
    else Ask(counted.(listeners := c.listeners[k := NewListener(c.requests + 1)]), wrongServer, Subscribe(k))
  }

  /** An abort settles the caller's promise; the entry stays until the response comes. */
  function Abort(c: State, id: nat): Step {
    if id !in c.pending || c.pending[id].aborted then Step(c, [])
    else
      Step(c.(pending := c.pending[id := c.pending[id].(aborted := true)]), if c.connected then [Cancel(id)] else [])
  }

  function WithListener(c: State, k: nat, l: Listener): State {
    c.(listeners := c.listeners[k := l])
  }

  /** Remove a listener from those that receive updates, as a failed subscribe does. */
  function Unregister(c: State, k: nat): State
    requires k in c.listeners
  {
    WithListener(c, k, c.listeners[k].(registered := false))
  }

  /** `dispose` of a subscription up to its suspension. */
  function Dispose(c: State, k: nat, targetIsCurrent: bool): Step
    requires k in c.listeners
  {
    if c.listeners[k].disposed then Step(c, [])
    else
      var removed := WithListener(c, k, c.listeners[k].(registered := false, disposed := true));
      if targetIsCurrent then Ask(removed, false, Unsubscribe(k)) else Step(removed, [])
  }

  /** The end of `dispose`. */
  function Clear(c: State, k: nat): State
    requires k in c.listeners && c.listeners[k].disposed
  {
    WithListener(c, k, c.listeners[k].(queuedWireUpdates := [], queued := []))
  }

  function Start(c: State, k: nat): State
    requires k in c.listeners && c.listeners[k].hydrated
  {
    var l := c.listeners[k];
    if l.disposed || l.ready then c
    else WithListener(c, k, l.(ready := true, queued := [], scheduled := l.scheduled + l.queued))
  }

  /** The next scheduled update reaches the listener. */
  function Deliver(c: State, k: nat): State
    requires k in c.listeners && c.listeners[k].scheduled != []
  {
    var l := c.listeners[k];
    WithListener(c, k, l.(scheduled := l.scheduled[1..], delivered := l.delivered + [l.scheduled[0]]))
  }

  /** Every entry goes when the connection does. */
  function Disconnected(c: State): State {
    c.(connected := false,
       pending := map[],
       listeners := map k | k in c.listeners :: c.listeners[k].(registered := false))
  }

  function Fail(c: State, fault: Fault): State {
    Disconnected(c.(fault := Some(fault)))
  }

  /** Decode an update into the queue. */
  function Decode(l: Listener, item: Item): Option<Listener> {
    if item.position == l.decoded && item.payload.Change? then
      Some(l.(decoded := l.decoded + 1, queued := l.queued + [item.payload.value]))
    else
      None
  }

  function DecodeAll(l: Listener, items: seq<Item>): Option<Listener>
    decreases items
  {
    if items == [] then Some(l)
    else
      match Decode(l, items[0])
      case None => None
      case Some(after) => DecodeAll(after, items[1..])
  }

  /** The response to a subscribe request: the snapshot, then the updates that came before it. */
  function Hydrate(k: nat, l: Listener, snapshot: Option<Item>): Option<Listener> {
    if snapshot.None? || snapshot.value != Item(k, l.decoded, Snapshot) then None
    else DecodeAll(l.(hydrated := true, decoded := l.decoded + 1, queuedWireUpdates := []), l.queuedWireUpdates)
  }

  function ReceiveResponse(c: State, id: nat, reply: Reply): State {
    if id !in c.pending then Fail(c, UnmatchedResponse(id))
    else
      var taken := c.(pending := c.pending - {id});
      match c.pending[id].subscription
      case None => taken
      case Some(k) =>
        if reply.Failure? || k !in c.listeners then taken
        else
          match Hydrate(k, c.listeners[k], reply.snapshot)
          case None => Fail(taken, BadStream(k))
          case Some(l) => WithListener(taken, k, l)
  }

  function ReceiveUpdate(c: State, item: Item): State {
    var k := item.subscription;
    if k !in c.listeners || !c.listeners[k].registered then c
    else
      var l := c.listeners[k];
      if !l.hydrated then WithListener(c, k, l.(queuedWireUpdates := l.queuedWireUpdates + [item]))
      else
        match Decode(l, item)
        case None => Fail(c, BadStream(k))
        case Some(after) =>
          WithListener(c, k, if l.ready then after.(queued := l.queued, scheduled := l.scheduled + [item.payload.value])
                       else after)
  }

  /** `#handleMessage`. */
  function Receive(c: State, m: ServerMessage): State {
    match m
    case Response(id, reply) => ReceiveResponse(c, id, reply)
    case Update(item) => ReceiveUpdate(c, item)
  }

  class Client {
    var connected: bool
    var requestSequence: nat
    var serviceSubscriptionSequence: nat
    var pendingRequests: map<nat, Pending>
    var serviceListeners: map<nat, Listener>
    var fault: Option<Fault>

    constructor ()
      ensures Contents() == Initial
    {
      connected, requestSequence, serviceSubscriptionSequence := false, 0, 0;
      pendingRequests, serviceListeners, fault := map[], map[], None;
    }

    function Contents(): State
      reads this
    {
      State(connected, requestSequence, serviceSubscriptionSequence, pendingRequests, serviceListeners, fault)
    }

    /** The handshake is over. */
    method Connect()
      modifies this`connected
      ensures Contents() == old(Contents()).(connected := true)
    {
      connected := true;
    }

    method Request(wrongServer: bool, call: Call) returns (sent: seq<ClientMessage>)
      modifies this`requestSequence, this`pendingRequests
      ensures Step(Contents(), sent) == Ask(old(Contents()), wrongServer, call)
    {
      if !connected {
        return [];
      }
      requestSequence := requestSequence + 1;
      var subscription := if call.Subscribe? then Some(call.subscription) else None;
      pendingRequests := pendingRequests[requestSequence := Pending(subscription, false)];
      sent := [Protocol.Request(requestSequence, wrongServer, call)];
    }

    method Subscribe(wrongServer: bool) returns (sent: seq<ClientMessage>)
      modifies this`requestSequence, this`serviceSubscriptionSequence, this`pendingRequests, this`serviceListeners
      ensures Step(Contents(), sent) == SubscribeService(old(Contents()), wrongServer)
    {
      serviceSubscriptionSequence := serviceSubscriptionSequence + 1;
      if !connected {
        return [];
      }
      serviceListeners := serviceListeners[serviceSubscriptionSequence := NewListener(requestSequence + 1)];
      sent := Request(wrongServer, Protocol.Subscribe(serviceSubscriptionSequence));
    }

    method AbortRequest(id: nat) returns (sent: seq<ClientMessage>)
      modifies this`pendingRequests
      ensures Step(Contents(), sent) == Abort(old(Contents()), id)
    {
      sent := [];
      if id in pendingRequests && !pendingRequests[id].aborted {
        pendingRequests := pendingRequests[id := pendingRequests[id].(aborted := true)];
        if connected {
          sent := [Cancel(id)];
        }
      }
    }

    /** A subscribe request has failed: its listener receives nothing. */
    method UnregisterListener(k: nat)
      requires k in serviceListeners
      modifies this`serviceListeners
      ensures Contents() == Unregister(old(Contents()), k)
    {
      serviceListeners := serviceListeners[k := serviceListeners[k].(registered := false)];
    }

    method StartDelivery(k: nat)
      requires k in serviceListeners && serviceListeners[k].hydrated
      modifies this`serviceListeners
      ensures Contents() == Start(old(Contents()), k)
    {
      var active := serviceListeners[k];
      if active.disposed || active.ready {
        return;
      }
      serviceListeners := serviceListeners[k := active.(ready := true, queued := [],
                                                        scheduled := active.scheduled + active.queued)];
    }

    /** The next of the microtasks that call the listener. */
    method DeliverNext(k: nat)
      requires k in serviceListeners && serviceListeners[k].scheduled != []
      modifies this`serviceListeners
      ensures Contents() == Deliver(old(Contents()), k)
    {
      var active := serviceListeners[k];
      serviceListeners := serviceListeners[k := active.(scheduled := active.scheduled[1..],
                                                        delivered := active.delivered + [active.scheduled[0]])];
    }

    /** The end of `dispose`. */
    method ClearSubscription(k: nat)
      requires k in serviceListeners && serviceListeners[k].disposed
      modifies this`serviceListeners
      ensures Contents() == Clear(old(Contents()), k)
    {
      serviceListeners := serviceListeners[k := serviceListeners[k].(queuedWireUpdates := [], queued := [])];
    }

    method DisposeSubscription(k: nat, targetIsCurrent: bool) returns (sent: seq<ClientMessage>)
      requires k in serviceListeners
      modifies this`requestSequence, this`pendingRequests, this`serviceListeners
      ensures Step(Contents(), sent) == Dispose(old(Contents()), k, targetIsCurrent)
    {
      if serviceListeners[k].disposed {
        return [];
      }
      serviceListeners := serviceListeners[k := serviceListeners[k].(registered := false, disposed := true)];
      sent := [];
      if targetIsCurrent {
        sent := Request(false, Unsubscribe(k));
      }
    }

    method Disconnect()
      modifies this`connected, this`pendingRequests, this`serviceListeners
      ensures Contents() == Disconnected(old(Contents()))
      ensures pendingRequests == map[] && forall k | k in serviceListeners :: !serviceListeners[k].registered
    {
      connected := false;
      pendingRequests := map[];
      serviceListeners := map k | k in serviceListeners :: serviceListeners[k].(registered := false);
    }

    method FailConnection(why: Fault)
      modifies this`connected, this`pendingRequests, this`serviceListeners, this`fault
      ensures Contents() == Fail(old(Contents()), why)
    {
      fault := Some(why);
      Disconnect();
    }

    method HandleMessage(m: ServerMessage)
      modifies this
      ensures Contents() == Receive(old(Contents()), m)
    {
      match m
      case Response(id, reply) => HandleResponse(id, reply);
      case Update(item) => HandleUpdate(item);
    }

    method HandleUpdate(item: Item)
      modifies this
      ensures Contents() == ReceiveUpdate(old(Contents()), item)
    {
      var k := item.subscription;
      if k !in serviceListeners || !serviceListeners[k].registered {
        return;
      }
      var active := serviceListeners[k];
      if !active.hydrated {
        serviceListeners := serviceListeners[k := active.(queuedWireUpdates := active.queuedWireUpdates + [item])];
        return;
      }
      var decoded := Decode(active, item);
      if decoded.None? {
        FailConnection(BadStream(k));
      } else if active.ready {
        serviceListeners := serviceListeners[k := decoded.value.(queued := active.queued,
                                                                 scheduled := active.scheduled + [item.payload.value])];
      } else {
        serviceListeners := serviceListeners[k := decoded.value];
      }
    }

    method HandleResponse(id: nat, reply: Reply)
      modifies this
      ensures Contents() == ReceiveResponse(old(Contents()), id, reply)
    {
      if id !in pendingRequests {
        FailConnection(UnmatchedResponse(id));
        return;
      }
      var request := pendingRequests[id];
      pendingRequests := pendingRequests - {id};
      if request.subscription.None? || reply.Failure? || request.subscription.value !in serviceListeners {
        return;
      }
      HydrateListener(request.subscription.value, reply.snapshot);
    }

    /** The transform of a subscribe request: decode the snapshot, then every update that arrived before it. */
    method HydrateListener(k: nat, snapshot: Option<Item>)
      requires k in serviceListeners
      modifies this
      ensures Contents() == match Hydrate(k, old(serviceListeners)[k], snapshot)
                            case None => Fail(old(Contents()), BadStream(k))
                            case Some(l) => WithListener(old(Contents()), k, l)
    {
      var active := serviceListeners[k];
      if snapshot.None? || snapshot.value != Item(k, active.decoded, Snapshot) {
        FailConnection(BadStream(k));
        return;
      }
      var queue := active.queuedWireUpdates;
      var listener := active.(hydrated := true, decoded := active.decoded + 1, queuedWireUpdates := []);
      ghost var start := listener;
      for i := 0 to |queue|
        invariant DecodeAll(start, queue) == DecodeAll(listener, queue[i..])
      {
        var decoded := Decode(listener, queue[i]);
        assert queue[i..][1..] == queue[i + 1..];
        if decoded.None? {
          FailConnection(BadStream(k));
          return;
        }
        listener := decoded.value;
      }
      serviceListeners := serviceListeners[k := listener];
    }
  }
}
