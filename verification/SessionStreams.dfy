/** What reaches the listener of a subscription: a prefix of what its service published, whatever the interleaving.

    Everything that concerns one subscription is looked at through a slice of the joint system. Each step of the system
    is a small step of every slice, and each small step keeps what is true of a slice. */
module SessionStreams {
  import opened Common
  import opened Protocol
  import opened Session
  import C = ServiceClient
  import S = ServiceServer

  /** The stream of a subscription: the snapshot at position 0, then what was published, in order. */
  function ItemAt(k: nat, published: seq<int>, position: nat): Item
    requires position <= |published|
  {
    Item(k, position, if position == 0 then Snapshot else Change(published[position - 1]))
  }

  function Items(k: nat, published: seq<int>, from: nat, to: nat): (items: seq<Item>)
    requires from <= to <= |published| + 1
    ensures |items| == to - from
  {
    seq(to - from, i requires 0 <= i < to - from => ItemAt(k, published, from + i))
  }

  lemma ItemsOneMore(k: nat, published: seq<int>, from: nat, to: nat)
    requires from <= to <= |published|
    ensures Items(k, published, from, to + 1) == Items(k, published, from, to) + [ItemAt(k, published, to)]
  {
  }

  lemma ItemsOneLess(k: nat, published: seq<int>, from: nat, to: nat)
    requires from < to <= |published| + 1
    ensures Items(k, published, from, to)[0] == ItemAt(k, published, from)
    ensures Items(k, published, from, to)[1..] == Items(k, published, from + 1, to)
  {
    assert Items(k, published, from, to)[0] == ItemAt(k, published, from + 0);
    forall i | 0 <= i < to - from - 1
      ensures Items(k, published, from, to)[1..][i] == Items(k, published, from + 1, to)[i]
    {
      assert Items(k, published, from, to)[i + 1] == ItemAt(k, published, from + (i + 1));
    }
  }

  lemma ItemsOfLonger(k: nat, published: seq<int>, value: int, from: nat, to: nat)
    requires from <= to <= |published| + 1
    ensures Items(k, published + [value], from, to) == Items(k, published, from, to)
  {
    forall i | 0 <= i < to - from
      ensures Items(k, published + [value], from, to)[i] == Items(k, published, from, to)[i]
    {
      assert ItemAt(k, published + [value], from + i) == ItemAt(k, published, from + i);
    }
  }

  datatype Slice = Slice(
    connected: bool,
    listener: Option<C.Listener>,
    asked: nat,
    executing: bool,
    publisher: Option<S.Publisher>,
    encoder: Option<nat>,
    wire: seq<Item>,
    published: seq<int>)

  /** The updates a listener has decoded. */
  function Got(l: C.Listener): seq<int> {
    l.delivered + l.scheduled + l.queued
  }

  /** Whether the client still decodes the stream. */
  predicate Follows(s: Slice) {
    s.connected && s.listener.Some? && (s.listener.value.registered || !s.listener.value.hydrated)
  }

  /** What the listener has is a prefix of what was published, all of it as long as it follows; nothing is delivered
      before the start; no update ever waits undecoded. */
  predicate ListenerRight(l: C.Listener, connected: bool, published: seq<int>) {
    && (l.hydrated <==> l.decoded > 0)
    && l.queuedWireUpdates == []
    && (l.registered ==> connected && !l.disposed)
    && Got(l) <= published
    && (!l.hydrated ==> Got(l) == [])
    && (l.registered && l.hydrated ==> l.decoded == |Got(l)| + 1)
    && (!l.ready ==> l.scheduled == [] && l.delivered == [])
    && (l.ready ==> l.hydrated && (l.registered ==> l.queued == []))
  }

  /** What is on the wire continues what the client has decoded. */
  ghost predicate WireRight(k: nat, s: Slice) {
    Follows(s) ==>
      var from := s.listener.value.decoded;
      && from + |s.wire| <= |s.published| + 1
      && s.wire == Items(k, s.published, from, from + |s.wire|)
  }

  /** The encoder continues what is on the wire, and what the server holds back continues the encoder. */
  predicate EncoderRight(s: Slice) {
    s.encoder.Some? ==>
      && !s.executing && s.publisher.Some?
      && 1 <= s.encoder.value <= |s.published| + 1
      && s.publisher.value.pending == s.published[s.encoder.value - 1..]
      && (s.publisher.value.ready ==> s.publisher.value.pending == [])
      && (Follows(s) ==> s.encoder.value == s.listener.value.decoded + |s.wire|)
  }

  predicate NothingSent(s: Slice) {
    s.encoder.None? && s.wire == [] && s.listener.Some? && !s.listener.value.hydrated
  }

  ghost predicate Right(k: nat, s: Slice) {
    && (s.listener.None? ==>
          s.asked == 0 && !s.executing && s.publisher.None? && s.encoder.None? && s.wire == [] && s.published == [])
    && (s.listener.Some? ==> ListenerRight(s.listener.value, s.connected, s.published))
    && WireRight(k, s)
    && EncoderRight(s)
    && (s.executing ==>
          NothingSent(s) && s.publisher.Some? && !s.publisher.value.ready && s.publisher.value.pending == s.published)
    && s.asked <= 1
    && (s.asked == 1 ==> NothingSent(s) && s.publisher.None? && s.published == [])
    && (!s.connected ==> s.wire == [])
  }

  // ---------------------------------------------------------------------------------------------------------------
  // Steps of a slice

  function Sent(s: Slice, item: Item): Slice {
    s.(wire := if s.connected then s.wire + [item] else s.wire)
  }

  /** The response to the subscribe request goes out with the snapshot. */
  lemma SnapshotKeeps(k: nat, s: Slice)
    requires Right(k, s) && s.executing
    ensures Right(k, Sent(s, Item(k, 0, Snapshot)).(executing := false, encoder := Some(1)))
  {
    ItemsOneMore(k, s.published, 0, 0);
  }

  /** A published update is sent at once. */
  lemma DirectUpdateKeeps(k: nat, s: Slice, value: int)
    requires Right(k, s) && s.encoder.Some? && s.publisher.Some? && s.publisher.value.ready
    ensures Right(k, Sent(s, Item(k, s.encoder.value, Change(value))).(
                       published := s.published + [value], encoder := Some(s.encoder.value + 1)))
  {
    if Follows(s) {
      var from, to := s.listener.value.decoded, s.encoder.value;
      ItemsOfLonger(k, s.published, value, from, to);
      ItemsOneMore(k, s.published + [value], from, to);
    }
    assert (s.published + [value])[s.encoder.value..] == [];
  }

  /** A published update waits for the response. */
  lemma HeldUpdateKeeps(k: nat, s: Slice, value: int)
    requires Right(k, s) && s.publisher.Some? && !s.publisher.value.ready
    ensures var p := s.publisher.value;
            Right(k, s.(published := s.published + [value], publisher := Some(p.(pending := p.pending + [value]))))
  {
    if Follows(s) {
      ItemsOfLonger(k, s.published, value, s.listener.value.decoded, s.listener.value.decoded + |s.wire|);
    }
    if s.encoder.Some? {
      assert (s.published + [value])[s.encoder.value - 1..] == s.published[s.encoder.value - 1..] + [value];
    }
  }

  /** A published update of a subscription that has ended goes nowhere. */
  lemma LostUpdateKeeps(k: nat, s: Slice, value: int)
    requires Right(k, s) && s.encoder.None? && s.publisher.Some? && s.publisher.value.ready
    ensures Right(k, s.(published := s.published + [value]))
  {
    if Follows(s) {
      ItemsOfLonger(k, s.published, value, s.listener.value.decoded, s.listener.value.decoded + |s.wire|);
    }
  }

  /** The oldest update that waited is sent, or dropped if the subscription has ended. */
  lemma DrainedUpdateKeeps(k: nat, s: Slice)
    requires Right(k, s) && !s.executing && s.publisher.Some? && s.publisher.value.pending != []
    ensures var p := s.publisher.value; var rest := s.(publisher := Some(p.(pending := p.pending[1..])));
            Right(k, if s.encoder.None? then rest
                     else Sent(rest, Item(k, s.encoder.value, Change(p.pending[0]))).(
                            encoder := Some(s.encoder.value + 1)))
  {
    if Follows(s) && s.encoder.Some? {
      ItemsOneMore(k, s.published, s.listener.value.decoded, s.encoder.value);
    }
  }

  lemma ReadyKeeps(k: nat, s: Slice)
    requires Right(k, s) && !s.executing && s.publisher.Some? && s.publisher.value.pending == []
    ensures Right(k, s.(publisher := Some(s.publisher.value.(ready := true))))
  {
  }

  /** The request is taken up. */
  lemma TakenUpKeeps(k: nat, s: Slice, id: nat)
    requires Right(k, s) && s.asked == 1
    ensures Right(k, s.(asked := 0, executing := true, publisher := Some(S.Publisher(id, [], false))))
  {
  }

  lemma SameWire(k: nat, s: Slice, asked: nat, executing: bool, encoder: Option<nat>)
    requires WireRight(k, s)
    ensures WireRight(k, s.(asked := asked, executing := executing, encoder := encoder))
  {
  }

  /** The server gives up what it holds of the subscription, or part of it. */
  lemma GivingUpKeeps(k: nat, s: Slice, asked: nat, executing: bool, encoder: Option<nat>)
    requires Right(k, s) && asked <= s.asked && (executing ==> s.executing) && (encoder.Some? ==> encoder == s.encoder)
    ensures Right(k, s.(asked := asked, executing := executing, encoder := encoder))
  {
    hide ListenerRight, WireRight;
    assert WireRight(k, s.(asked := asked, executing := executing, encoder := encoder)) by {
      SameWire(k, s, asked, executing, encoder);
    }
  }

  lemma RegisteringKeeps(k: nat, s: Slice, request: nat)
    requires Right(k, s) && s.listener.None? && s.connected
    ensures Right(k, s.(listener := Some(C.NewListener(request)), asked := 1))
  {
  }

  /** The client takes the snapshot off the wire. */
  lemma HydratingKeeps(k: nat, s: Slice)
    requires Right(k, s) && s.connected && s.listener.Some? && !s.listener.value.hydrated && s.wire != []
    ensures s.wire[0] == Item(k, 0, Snapshot)
    ensures C.Hydrate(k, s.listener.value, Some(s.wire[0]))
            == Some(s.listener.value.(hydrated := true, decoded := 1))
    ensures Right(k, s.(wire := s.wire[1..], listener := Some(s.listener.value.(hydrated := true, decoded := 1))))
  {
    ItemsOneLess(k, s.published, 0, |s.wire|);
  }

  function Decoded(l: C.Listener, value: int): C.Listener {
    if l.ready then l.(decoded := l.decoded + 1, scheduled := l.scheduled + [value])
    else l.(decoded := l.decoded + 1, queued := l.queued + [value])
  }

  /** The client takes an update off the wire: it decodes, and is the next one that was published. */
  lemma UpdatingKeeps(k: nat, s: Slice)
    requires Right(k, s) && s.connected && s.listener.Some? && s.listener.value.registered && s.listener.value.hydrated
    requires s.wire != []
    ensures var l := s.listener.value;
            && l.decoded <= |s.published| && s.wire[0] == Item(k, l.decoded, Change(s.published[l.decoded - 1]))
            && Right(k, s.(wire := s.wire[1..], listener := Some(Decoded(l, s.published[l.decoded - 1]))))
  {
    var l := s.listener.value;
    ItemsOneLess(k, s.published, l.decoded, l.decoded + |s.wire|);
    var value := s.published[l.decoded - 1];
    assert Got(Decoded(l, value)) == Got(l) + [value];
  }

  lemma IgnoringKeeps(k: nat, s: Slice)
    requires Right(k, s) && s.listener.Some? && !s.listener.value.registered && s.listener.value.hydrated
    requires s.wire != []
    ensures Right(k, s.(wire := s.wire[1..]))
  {
  }

  /** Changes at the client alone. */
  lemma ListenerStepsKeep(k: nat, s: Slice, l: C.Listener)
    requires Right(k, s) && s.listener.Some?
    requires l == s.listener.value.(registered := l.registered, disposed := l.disposed)
    requires !l.registered && (s.listener.value.disposed ==> l.disposed)
    ensures Right(k, s.(listener := Some(l)))
  {
  }

  lemma StartingKeeps(k: nat, s: Slice)
    requires Right(k, s) && s.listener.Some? && s.listener.value.hydrated
    ensures var l := s.listener.value;
            Right(k, s.(listener := Some(l.(ready := true, queued := [], scheduled := l.scheduled + l.queued))))
  {
    var l := s.listener.value;
    assert l.delivered + (l.scheduled + l.queued) + [] == Got(l);
  }

  lemma DeliveringKeeps(k: nat, s: Slice)
    requires Right(k, s) && s.listener.Some? && s.listener.value.scheduled != []
    ensures var l := s.listener.value;
            Right(k, s.(listener := Some(l.(scheduled := l.scheduled[1..],
                                            delivered := l.delivered + [l.scheduled[0]]))))
  {
    var l := s.listener.value;
    assert (l.delivered + [l.scheduled[0]]) + l.scheduled[1..] + l.queued == Got(l);
  }

  lemma ClearingKeeps(k: nat, s: Slice)
    requires Right(k, s) && s.listener.Some? && s.listener.value.disposed
    ensures Right(k, s.(listener := Some(s.listener.value.(queuedWireUpdates := [], queued := []))))
  {
    var l := s.listener.value;
    assert Got(l.(queued := [])) <= Got(l);
  }

  lemma DisconnectingKeeps(k: nat, s: Slice, asked: nat)
    requires Right(k, s) && asked <= s.asked
    ensures Right(k, s.(connected := false, wire := [], asked := asked,
                        listener := if s.listener.Some? then Some(s.listener.value.(registered := false)) else None))
  {
  }

  lemma ReconnectingKeeps(k: nat, s: Slice)
    requires Right(k, s) && !s.connected
    ensures Right(k, s.(connected := true, asked := 0, executing := false, publisher := None, encoder := None))
  {
    assert Items(k, s.published, 0, 0) == [];
  }

  // ---------------------------------------------------------------------------------------------------------------
  // The slices of the joint system

  function ItemIn(m: ServerMessage): Option<Item> {
    match m
    case Update(item) => Some(item)
    case Response(_, Success(snapshot)) => snapshot
    case Response(_, Failure(_)) => None
  }

  function WireItem(k: nat, m: ServerMessage): seq<Item> {
    if ItemIn(m).Some? && ItemIn(m).value.subscription == k then [ItemIn(m).value] else []
  }

  function Wire(k: nat, messages: seq<ServerMessage>): seq<Item> {
    if messages == [] then []
    else Wire(k, messages[..|messages| - 1]) + WireItem(k, messages[|messages| - 1])
  }

  function Asks(k: nat, messages: seq<ClientMessage>): nat {
    if messages == [] then 0
    else Asks(k, messages[..|messages| - 1]) + AsksOne(k, messages[|messages| - 1])
  }

  function AsksOne(k: nat, m: ClientMessage): nat {
    if m.Request? && m.call == Call.Subscribe(k) then 1 else 0
  }

  lemma {:induction false} WireAppend(k: nat, a: seq<ServerMessage>, b: seq<ServerMessage>)
    ensures Wire(k, a + b) == Wire(k, a) + Wire(k, b)
    decreases |b|
  {
    if b == [] {
      assert a + b == a;
    } else {
      assert (a + b)[..|a + b| - 1] == a + b[..|b| - 1];
      WireAppend(k, a, b[..|b| - 1]);
    }
  }

  lemma WireOfOne(k: nat, m: ServerMessage)
    ensures Wire(k, [m]) == WireItem(k, m)
  {
    assert [m][..0] == [];
  }

  lemma WireHead(k: nat, messages: seq<ServerMessage>)
    requires messages != []
    ensures Wire(k, messages) == WireItem(k, messages[0]) + Wire(k, messages[1..])
  {
    assert messages == [messages[0]] + messages[1..];
    WireAppend(k, [messages[0]], messages[1..]);
    WireOfOne(k, messages[0]);
  }

  lemma {:induction false} AsksAppend(k: nat, a: seq<ClientMessage>, b: seq<ClientMessage>)
    ensures Asks(k, a + b) == Asks(k, a) + Asks(k, b)
    decreases |b|
  {
    if b == [] {
      assert a + b == a;
    } else {
      assert (a + b)[..|a + b| - 1] == a + b[..|b| - 1];
      AsksAppend(k, a, b[..|b| - 1]);
    }
  }

  lemma AsksOfOne(k: nat, m: ClientMessage)
    ensures Asks(k, [m]) == AsksOne(k, m)
  {
    assert [m][..0] == [];
  }

  function Lookup<V>(m: map<nat, V>, k: nat): Option<V> {
    if k in m then Some(m[k]) else None
  }

  /** Whether the request that made the publisher of a subscription is still with the service. */
  predicate IsExecuting(server: S.State, k: nat) {
    && k in server.publishers
    && S.InProgress(server, server.publishers[k].request, S.Executing)
    && server.active[server.publishers[k].request].call == Call.Subscribe(k)
  }

  function SliceOf(sys: System, k: nat): Slice {
    Slice(sys.client.connected, Lookup(sys.client.listeners, k), Asks(k, sys.Queue()), IsExecuting(sys.server, k),
          Lookup(sys.server.publishers, k), Lookup(sys.server.encoders, k), Wire(k, sys.s2c), sys.Published(k))
  }

  /** What ties requests to subscriptions: at the server a subscribe request under way owns its publisher, at the client
      a pending one owns its listener, which has no snapshot yet. */
  ghost predicate Owned(sys: System, id: nat) {
    OwnedAtServer(sys.server, id) && OwnedAtClient(sys.client, id)
  }

  predicate OwnedAtServer(s: S.State, id: nat) {
    id in s.active && !s.active[id].progress.Done? && s.active[id].call.Subscribe? ==>
      s.active[id].call.subscription in s.publishers && s.publishers[s.active[id].call.subscription].request == id
  }

  predicate OwnedAtClient(c: C.State, id: nat) {
    id in c.pending && c.pending[id].subscription.Some? ==>
      var k := c.pending[id].subscription.value;
      k in c.listeners && c.listeners[k].request == id && !c.listeners[k].hydrated
  }

  ghost predicate Typed(sys: System) {
    && (forall m | m in sys.s2c && m.Update? :: m.item.payload.Change?)
    && (forall k | k in sys.client.listeners :: k <= sys.client.subscriptions)
    && sys.client.fault.None?
  }

  ghost predicate Inv(sys: System) {
    && Framed(sys) && Typed(sys)
    && (forall id :: Correlated(sys, id))
    && (forall id :: Owned(sys, id))
    && (forall k :: Right(k, SliceOf(sys, k)))
  }

  // ---------------------------------------------------------------------------------------------------------------
  // Steps of the client

  /** What the client sends, other than a subscribe request, is nothing to a slice. */
  lemma SendingIsNothing(sys: System, step: C.Step, k: nat)
    requires forall m | m in step.sent :: AsksOne(k, m) == 0
    ensures SliceOf(ByClient(sys, step), k) == SliceOf(sys.(client := step.state), k)
  {
    var after := ByClient(sys, step);
    assert after.Queue() == sys.Queue() + step.sent;
    AsksAppend(k, sys.Queue(), step.sent);
    AsksNothing(k, step.sent);
  }

  lemma {:induction false} AsksNothing(k: nat, messages: seq<ClientMessage>)
    requires forall m | m in messages :: AsksOne(k, m) == 0
    ensures Asks(k, messages) == 0
    decreases |messages|
  {
    if messages != [] {
      assert messages[|messages| - 1] in messages;
      AsksNothing(k, messages[..|messages| - 1]);
    }
  }

  lemma AskingSlice(sys: System, client: C.State, wrongServer: bool, call: Call, k: nat)
    requires call != Call.Subscribe(k) && Right(k, SliceOf(sys.(client := client), k))
    ensures Right(k, SliceOf(ByClient(sys, C.Ask(client, wrongServer, call)), k))
  {
    hide Right;
    var step := C.Ask(client, wrongServer, call);
    SendingIsNothing(sys, step, k);
    assert SliceOf(sys.(client := step.state), k) == SliceOf(sys.(client := client), k);
  }

  lemma NewSubscriptionSlice(sys: System, wrongServer: bool)
    requires Typed(sys) && sys.client.connected
    requires var k := sys.client.subscriptions + 1; Right(k, SliceOf(sys, k))
    ensures var k := sys.client.subscriptions + 1;
            Right(k, SliceOf(Step(sys, Action.Subscribe(wrongServer)), k))
  {
    var k, request := sys.client.subscriptions + 1, sys.client.requests + 1;
    var s := SliceOf(sys, k);
    assert s.listener.None?;
    hide Right, Typed, SliceOf;
    NothingAsked(k, s);
    RegisteringKeeps(k, s, request);
    SubscribedSlice(sys, wrongServer);
  }

  lemma SubscribedSlice(sys: System, wrongServer: bool)
    requires sys.client.connected
    ensures var k := sys.client.subscriptions + 1;
            var s := SliceOf(sys, k);
            SliceOf(Step(sys, Action.Subscribe(wrongServer)), k)
            == s.(listener := Some(C.NewListener(sys.client.requests + 1)), asked := s.asked + 1)
  {
    var k := sys.client.subscriptions + 1;
    var sent := [ClientMessage.Request(sys.client.requests + 1, wrongServer, Call.Subscribe(k))];
    var step := C.SubscribeService(sys.client, wrongServer);
    assert Step(sys, Action.Subscribe(wrongServer)) == ByClient(sys, step);
    assert step.sent == sent && step.state.connected
           && step.state.listeners == sys.client.listeners[k := C.NewListener(sys.client.requests + 1)];
    hide Wire, IsExecuting, Step, C.SubscribeService, C.Ask, C.NewListener;
    assert Step(sys, Action.Subscribe(wrongServer)).Queue() == sys.Queue() + sent;
    AsksAppend(k, sys.Queue(), sent);
    AsksOfOne(k, sent[0]);
  }

  lemma SubscribingSlice(sys: System, wrongServer: bool, k: nat)
    requires Typed(sys) && Right(k, SliceOf(sys, k))
    ensures Right(k, SliceOf(Step(sys, Action.Subscribe(wrongServer)), k))
  {
    hide Right, Typed;
    var next := sys.client.subscriptions + 1;
    if !sys.client.connected {
      SendingIsNothing(sys, C.SubscribeService(sys.client, wrongServer), k);
    } else if k == next {
      NewSubscriptionSlice(sys, wrongServer);
    } else {
      var client := sys.client.(subscriptions := next,
                                listeners := sys.client.listeners[next := C.NewListener(sys.client.requests + 1)]);
      assert SliceOf(sys.(client := client), k) == SliceOf(sys, k);
      AskingSlice(sys, client, wrongServer, Call.Subscribe(next), k);
    }
  }

  lemma NothingAsked(k: nat, s: Slice)
    requires Right(k, s) && s.listener.None?
    ensures s.asked == 0
  {
  }

  lemma DisposingSlice(sys: System, disposed: nat, targetIsCurrent: bool, k: nat)
    requires Right(k, SliceOf(sys, k)) && disposed in sys.client.listeners
    ensures Right(k, SliceOf(Step(sys, Dispose(disposed, targetIsCurrent)), k))
  {
    hide Right;
    var l := sys.client.listeners[disposed];
    var removed := C.WithListener(sys.client, disposed, l.(registered := false, disposed := true));
    if k == disposed {
      ListenerStepsKeep(k, SliceOf(sys, k), l.(registered := false, disposed := true));
    }
    assert SliceOf(sys.(client := removed), k)
           == SliceOf(sys, k).(listener := Lookup(removed.listeners, k));
    var step := C.Dispose(sys.client, disposed, targetIsCurrent);
    if l.disposed {
      SendingIsNothing(sys, step, k);
    } else if !targetIsCurrent {
      SendingIsNothing(sys, step, k);
    } else {
      AskingSlice(sys, removed, false, Unsubscribe(disposed), k);
    }
  }

  /** Steps that touch nothing of the client but one listener. */
  lemma ListenerSlice(sys: System, changed: nat, l: C.Listener, k: nat)
    requires Right(k, SliceOf(sys, k)) && changed in sys.client.listeners
    requires k == changed ==> Right(k, SliceOf(sys, k).(listener := Some(l)))
    ensures Right(k, SliceOf(AfterClient(sys, C.WithListener(sys.client, changed, l)), k))
    requires !sys.client.connected ==> sys.c2s == [] && sys.s2c == []
  {
    hide Right;
    var after := AfterClient(sys, C.WithListener(sys.client, changed, l));
    assert SliceOf(after, k) == SliceOf(sys, k).(listener := Lookup(after.client.listeners, k));
  }

  lemma ListenerActionSlice(sys: System, a: Action, k: nat)
    requires Framed(sys) && Right(k, SliceOf(sys, k)) && Enabled(sys, a)
    requires a.Unregister? || a.Clear? || a.StartDelivery? || a.Deliver?
    ensures Right(k, SliceOf(Step(sys, a), k))
  {
    hide Right;
    match a
    case Unregister(j) =>
      var l := sys.client.listeners[j].(registered := false);
      if j == k {
        ListenerStepsKeep(k, SliceOf(sys, k), l);
      }
      ListenerSlice(sys, j, l, k);
    case Clear(j) =>
      if j == k {
        ClearingKeeps(k, SliceOf(sys, k));
      }
      ListenerSlice(sys, j, sys.client.listeners[j].(queuedWireUpdates := [], queued := []), k);
    case StartDelivery(j) =>
      var l := sys.client.listeners[j];
      if j == k {
        StartingKeeps(k, SliceOf(sys, k));
      }
      if l.disposed || l.ready {
        ListenerSlice(sys, j, l, k);
        assert sys.client.listeners[j := l] == sys.client.listeners;
      } else {
        ListenerSlice(sys, j, l.(ready := true, queued := [], scheduled := l.scheduled + l.queued), k);
      }
    case Deliver(j) =>
      var l := sys.client.listeners[j];
      if j == k {
        DeliveringKeeps(k, SliceOf(sys, k));
      }
      ListenerSlice(sys, j, l.(scheduled := l.scheduled[1..], delivered := l.delivered + [l.scheduled[0]]), k);
  }

  lemma DisconnectedSlice(sys: System, client: C.State, k: nat)
    requires Right(k, SliceOf(sys, k)) && client == C.Disconnected(client)
    requires client.listeners.Keys == sys.client.listeners.Keys
    requires k in client.listeners ==> client.listeners[k] == sys.client.listeners[k].(registered := false)
    ensures Right(k, SliceOf(AfterClient(sys, client), k))
  {
    hide Right;
    var after := AfterClient(sys, client);
    AsksAppend(k, sys.server.deferred, sys.c2s);
    assert after.Queue() == sys.server.deferred;
    DisconnectingKeeps(k, SliceOf(sys, k), Asks(k, sys.server.deferred));
  }

  lemma ConnectingSlice(sys: System, k: nat)
    requires Framed(sys) && Right(k, SliceOf(sys, k)) && !sys.client.connected
    ensures Right(k, SliceOf(Step(sys, Connect), k))
  {
    hide Right;
    ReconnectingKeeps(k, SliceOf(sys, k));
    assert Step(sys, Connect).Queue() == [];
  }

  /** A message that is not of this stream leaves its slice alone. */
  lemma ForeignMessage(sys: System, client: C.State, k: nat)
    requires sys.s2c != [] && WireItem(k, sys.s2c[0]) == []
    requires client.connected == sys.client.connected && client.connected
    requires Lookup(client.listeners, k) == Lookup(sys.client.listeners, k)
    ensures SliceOf(AfterClient(sys.(s2c := sys.s2c[1..]), client), k) == SliceOf(sys, k)
  {
    WireHead(k, sys.s2c);
  }

  /** An update of the stream that the client reads. */
  lemma ReceivedUpdateSlice(sys: System, k: nat)
    requires Typed(sys) && Right(k, SliceOf(sys, k)) && sys.client.connected && sys.s2c != []
    requires sys.s2c[0].Update? && sys.s2c[0].item.subscription == k
    ensures C.Receive(sys.client, sys.s2c[0]).fault.None? && C.Receive(sys.client, sys.s2c[0]).connected
    ensures Right(k, SliceOf(Step(sys, ClientReceives), k))
  {
    hide Right;
    var item, s, after := sys.s2c[0].item, SliceOf(sys, k), Step(sys, ClientReceives);
    WireHead(k, sys.s2c);
    assert s.wire == [item] + Wire(k, sys.s2c[1..]);
    assert s.wire[0] == item && s.wire[1..] == Wire(k, sys.s2c[1..]);
    SomethingSent(k, s);
    var l := s.listener.value;
    if !l.hydrated {
      assert sys.s2c[0] in sys.s2c;
      HydratingKeeps(k, s);
      assert false;
    } else if !l.registered {
      IgnoringKeeps(k, s);
      assert SliceOf(after, k) == s.(wire := s.wire[1..]);
    } else {
      UpdatingKeeps(k, s);
      DecodingUpdate(k, s);
      assert SliceOf(after, k) == s.(wire := s.wire[1..], listener := Some(Decoded(l, item.payload.value)));
    }
  }

  lemma SomethingSent(k: nat, s: Slice)
    requires Right(k, s) && s.wire != []
    ensures s.listener.Some?
  {
  }

  lemma DecodingUpdate(k: nat, s: Slice)
    requires Right(k, s) && s.listener.Some? && s.listener.value.registered && s.listener.value.hydrated && s.wire != []
    requires s.wire[0].position == s.listener.value.decoded && s.wire[0].payload.Change?
    ensures C.Decode(s.listener.value, s.wire[0]).Some?
    ensures var l, after := s.listener.value, C.Decode(s.listener.value, s.wire[0]).value;
            Decoded(l, s.wire[0].payload.value)
            == if l.ready
               then after.(queued := l.queued, scheduled := l.scheduled + [s.wire[0].payload.value]) else after
  {
  }

  /** The response with the snapshot that a listener waits for. */
  lemma ReceivedSnapshotSlice(sys: System, k: nat)
    requires sys.client.connected && sys.s2c != [] && sys.s2c[0].Response? && sys.s2c[0].id in sys.client.pending
    requires ItemIn(sys.s2c[0]).Some? && ItemIn(sys.s2c[0]).value.subscription == k
    requires sys.client.pending[sys.s2c[0].id].subscription == Some(k)
    requires k in sys.client.listeners && !sys.client.listeners[k].hydrated && Right(k, SliceOf(sys, k))
    ensures var l := sys.client.listeners[k].(hydrated := true, decoded := 1);
            C.Receive(sys.client, sys.s2c[0])
            == C.WithListener(sys.client.(pending := sys.client.pending - {sys.s2c[0].id}), k, l)
    ensures Right(k, SliceOf(Step(sys, ClientReceives), k))
  {
    hide Right;
    var item, s := ItemIn(sys.s2c[0]).value, SliceOf(sys, k);
    WireHead(k, sys.s2c);
    assert s.wire == [item] + Wire(k, sys.s2c[1..]);
    assert s.wire[0] == item && s.wire[1..] == Wire(k, sys.s2c[1..]);
    HydratingKeeps(k, s);
    assert SliceOf(Step(sys, ClientReceives), k)
           == s.(wire := s.wire[1..], listener := Some(s.listener.value.(hydrated := true, decoded := 1)));
  }

  /** A response, whether it carries a snapshot or not: the entry is there, and a snapshot is the one it waits for. */
  lemma ReceivedResponseSlice(sys: System, k: nat)
    requires Typed(sys) && sys.client.connected && sys.s2c != [] && sys.s2c[0].Response?
    requires Correlated(sys, sys.s2c[0].id) && Owned(sys, sys.s2c[0].id)
    requires forall j :: Right(j, SliceOf(sys, j))
    ensures C.Receive(sys.client, sys.s2c[0]).fault.None? && C.Receive(sys.client, sys.s2c[0]).connected
    ensures Right(k, SliceOf(Step(sys, ClientReceives), k))
  {
    hide Right, Accounted, C.Receive;
    var m, after := sys.s2c[0], Step(sys, ClientReceives);
    ResponseIsAwaited(sys);
    assert Right(k, SliceOf(sys, k));
    assert Answers(m.id, sys.client.pending[m.id].subscription, m);
    if ItemIn(m).Some? {
      var j := ItemIn(m).value.subscription;
      assert Right(j, SliceOf(sys, j));
      ReceivedSnapshotSlice(sys, j);
      if j != k {
        ForeignMessage(sys, C.Receive(sys.client, m), k);
      }
    } else {
      NoSnapshotExpected(sys);
      ForeignMessage(sys, C.Receive(sys.client, m), k);
    }
  }

  lemma ResponseIsAwaited(sys: System)
    requires sys.client.connected && sys.s2c != [] && sys.s2c[0].Response? && Accounted(sys, sys.s2c[0].id)
    ensures sys.s2c[0].id in sys.client.pending
  {
    ResponseIsCounted(sys.s2c[0].id, sys.s2c, 0);
  }

  lemma NoSnapshotExpected(sys: System)
    requires sys.client.connected && sys.s2c != [] && sys.s2c[0].Response? && sys.s2c[0].id in sys.client.pending
    requires Answers(sys.s2c[0].id, sys.client.pending[sys.s2c[0].id].subscription, sys.s2c[0])
    requires sys.s2c[0].reply.Failure? || sys.s2c[0].reply.snapshot.None?
    ensures C.Receive(sys.client, sys.s2c[0])
            == sys.client.(pending := sys.client.pending - {sys.s2c[0].id})
  {
  }

  // ---------------------------------------------------------------------------------------------------------------
  // Steps of the server

  /** What the server sends in one step shows in the slices it belongs to. */
  lemma ServerSlice(sys: System, step: S.Step, k: nat)
    ensures SliceOf(ByServer(sys, step), k)
            == SliceOf(sys.(server := step.state), k).(
                 wire := Wire(k, sys.s2c) + if sys.client.connected then Wire(k, step.sent) else [])
  {
    WireAppend(k, sys.s2c, step.sent);
  }

  /** What is left once the head of the queue is gone. */
  lemma HeadTaken(sys: System, rest: System, m: ClientMessage, k: nat)
    requires sys.Queue() == [m] + rest.Queue()
    requires rest == sys.(c2s := rest.c2s, server := sys.server.(deferred := rest.server.deferred))
    ensures SliceOf(sys, k).asked >= AsksOne(k, m)
    ensures SliceOf(rest, k) == SliceOf(sys, k).(asked := SliceOf(sys, k).asked - AsksOne(k, m))
  {
    AsksAppend(k, [m], rest.Queue());
    AsksOfOne(k, m);
  }

  /** A message is taken up by a ready server. */
  lemma HandlingSlice(sys: System, rest: System, m: ClientMessage, k: nat)
    requires Right(k, SliceOf(sys, k))
    requires sys.Queue() == [m] + rest.Queue()
    requires rest == sys.(c2s := rest.c2s, server := sys.server.(deferred := rest.server.deferred))
    ensures Right(k, SliceOf(ByServer(rest, S.Handle(rest.server, m)), k))
  {
    hide Right, SliceOf, S.Accept;
    var s := SliceOf(sys, k);
    HeadTaken(sys, rest, m, k);
    GivingUpKeeps(k, s, s.asked - AsksOne(k, m), s.executing, s.encoder);
    assert Right(k, SliceOf(rest, k));
    match m
    case Hello =>
      HelloSlice(rest, k);
      assert rest.s2c + [] == rest.s2c;
    case Cancel(id) =>
      CancelSlice(rest, id, k);
    case Request(id, wrongServer, call) =>
      if S.Accept(rest.server, id, wrongServer, call).sent != [] {
        RefuseSlice(rest, id, wrongServer, call, k);
      } else {
        AcceptSlice(rest, id, wrongServer, call, k);
        if call == Call.Subscribe(k) {
          AskedAtMostOnce(k, s);
          TakenUpKeeps(k, s, id);
        }
      }
  }

  lemma AskedAtMostOnce(k: nat, s: Slice)
    requires Right(k, s)
    ensures s.asked <= 1
  {
  }

  lemma HelloSlice(sys: System, k: nat)
    requires Right(k, SliceOf(sys, k))
    ensures Right(k, SliceOf(sys.(server := S.Disconnected(sys.server)), k))
  {
    hide Right;
    var after := sys.(server := S.Disconnected(sys.server));
    AsksAppend(k, sys.server.deferred, sys.c2s);
    assert after.Queue() == sys.c2s;
    GivingUpKeeps(k, SliceOf(sys, k), Asks(k, sys.c2s), false, None);
  }

  lemma CancelSlice(sys: System, id: nat, k: nat)
    ensures SliceOf(ByServer(sys, S.Handle(sys.server, Cancel(id))), k) == SliceOf(sys, k)
  {
    var step := S.Handle(sys.server, Cancel(id));
    assert sys.s2c + step.sent == sys.s2c;
  }

  /** Nothing of any stream shows that a request is refused. */
  lemma RefuseSlice(sys: System, id: nat, wrongServer: bool, call: Call, k: nat)
    requires S.Accept(sys.server, id, wrongServer, call).sent != []
    ensures SliceOf(ByServer(sys, S.Accept(sys.server, id, wrongServer, call)), k) == SliceOf(sys, k)
  {
    RefuseEffect(sys.server, id, wrongServer, call, k);
    hide S.Accept, IsExecuting, Wire;
    EffectSlice(sys, S.Accept(sys.server, id, wrongServer, call), k);
    assert SliceOf(sys, k).wire + [] == SliceOf(sys, k).wire;
  }

  lemma RefuseEffect(s: S.State, id: nat, wrongServer: bool, call: Call, k: nat)
    requires S.Accept(s, id, wrongServer, call).sent != []
    ensures EffectOf(S.Accept(s, id, wrongServer, call), k)
            == Effect(IsExecuting(s, k), Lookup(s.publishers, k), Lookup(s.encoders, k), [], s.deferred)
  {
    RefusedFrame(s, id, wrongServer, call);
    hide Wire, S.Accept;
    WireOfOne(k, S.Accept(s, id, wrongServer, call).sent[0]);
  }

  lemma RefusedFrame(s: S.State, id: nat, wrongServer: bool, call: Call)
    requires S.Accept(s, id, wrongServer, call).sent != []
    ensures var step := S.Accept(s, id, wrongServer, call);
            && |step.sent| == 1 && step.sent == [step.sent[0]]
            && step.sent[0].Response? && step.sent[0].reply.Failure?
            && step.state == s.(active := step.state.active)
            && (step.state.active == s.active
                || (id !in s.active && step.state.active == s.active[id := S.Active(call, false, S.Done)]))
  {
    if id in s.active || call.Malformed? {} else if wrongServer {} else {}
  }

  /** A request that is handed to a service shows only in the stream it subscribes to. */
  lemma AcceptSlice(sys: System, id: nat, wrongServer: bool, call: Call, k: nat)
    requires S.Accept(sys.server, id, wrongServer, call).sent == []
    ensures SliceOf(ByServer(sys, S.Accept(sys.server, id, wrongServer, call)), k)
            == if call == Call.Subscribe(k)
               then SliceOf(sys, k).(executing := true, publisher := Some(S.Publisher(id, [], false)))
               else SliceOf(sys, k)
  {
    var step := S.Accept(sys.server, id, wrongServer, call);
    ServerSlice(sys, step, k);
    StillExecuting(sys.server, id, wrongServer, call, k);
  }

  lemma StillExecuting(s: S.State, id: nat, wrongServer: bool, call: Call, k: nat)
    requires S.Accept(s, id, wrongServer, call).sent == []
    ensures IsExecuting(S.Accept(s, id, wrongServer, call).state, k) <==> call == Call.Subscribe(k) || IsExecuting(s, k)
  {
  }

  lemma ServerReceivingSlice(sys: System, k: nat)
    requires Framed(sys) && Right(k, SliceOf(sys, k)) && Enabled(sys, ServerReceives)
    ensures Right(k, SliceOf(Step(sys, ServerReceives), k))
  {
    hide Right, S.Handle;
    var m, after := sys.c2s[0], Step(sys, ServerReceives);
    var rest := sys.(c2s := sys.c2s[1..]);
    var s := SliceOf(sys, k);
    match sys.server.stage
    case AwaitingHello =>
    case Handshaking =>
      assert sys.s2c + [] == sys.s2c;
      if m.Hello? {
        DroppedSlice(sys, k);
        HelloSlice(rest, k);
      } else {
        assert after.Queue() == sys.Queue();
      }
    case Ready =>
      assert sys.Queue() == [m] + rest.Queue();
      HandlingSlice(sys, rest, m, k);
    case Closed =>
      assert sys.s2c + [] == sys.s2c;
      DroppedSlice(sys, k);
  }

  lemma DroppedSlice(sys: System, k: nat)
    requires Right(k, SliceOf(sys, k)) && sys.c2s != []
    ensures Right(k, SliceOf(sys.(c2s := sys.c2s[1..]), k))
  {
    hide Right;
    var rest := sys.(c2s := sys.c2s[1..]);
    assert sys.Queue() == (sys.server.deferred + [sys.c2s[0]]) + sys.c2s[1..];
    AsksAppend(k, sys.server.deferred + [sys.c2s[0]], sys.c2s[1..]);
    AsksAppend(k, sys.server.deferred, [sys.c2s[0]]);
    AsksAppend(k, sys.server.deferred, sys.c2s[1..]);
    var s := SliceOf(sys, k);
    GivingUpKeeps(k, s, Asks(k, rest.Queue()), s.executing, s.encoder);
  }

  lemma AnsweringSlice(sys: System, id: nat, success: bool, k: nat)
    requires Right(k, SliceOf(sys, k)) && Owned(sys, id) && Enabled(sys, ServiceAnswers(id, success))
    ensures Right(k, SliceOf(Step(sys, ServiceAnswers(id, success)), k))
  {
    hide Right;
    var s, call := SliceOf(sys, k), sys.server.active[id].call;
    AnsweredSlice(sys, id, success, k);
    if call == Call.Subscribe(k) {
      assert s.executing;
      if success {
        SnapshotKeeps(k, s);
      } else {
        GivingUpKeeps(k, s, s.asked, false, s.encoder);
      }
    } else if call == Call.Unsubscribe(k) && success {
      GivingUpKeeps(k, s, s.asked, s.executing, None);
    }
  }

  /** What the server holds of a stream, and what it sends of it. */
  datatype Effect = Effect(
    executing: bool, publisher: Option<S.Publisher>, encoder: Option<nat>, sent: seq<Item>,
    deferred: seq<ClientMessage>)

  function EffectOf(step: S.Step, k: nat): Effect {
    Effect(IsExecuting(step.state, k), Lookup(step.state.publishers, k), Lookup(step.state.encoders, k),
           Wire(k, step.sent), step.state.deferred)
  }

  /** A step of the server seen in a slice. */
  function After(s: Slice, e: Effect): Slice {
    s.(executing := e.executing, publisher := e.publisher, encoder := e.encoder,
       wire := s.wire + if s.connected then e.sent else [])
  }

  lemma EffectSlice(sys: System, step: S.Step, k: nat)
    requires step.state.deferred == sys.server.deferred
    ensures SliceOf(ByServer(sys, step), k) == After(SliceOf(sys, k), EffectOf(step, k))
  {
    ServerSlice(sys, step, k);
  }

  lemma CompleteEffect(s: S.State, id: nat, success: bool, k: nat)
    requires S.InProgress(s, id, S.Executing)
    requires s.active[id].call == Call.Subscribe(k) ==> k in s.publishers && s.publishers[k].request == id
    ensures var call, step := s.active[id].call, S.Complete(s, id, success);
            EffectOf(step, k)
            == Effect(IsExecuting(s, k) && call != Call.Subscribe(k), Lookup(s.publishers, k),
                      if !success then Lookup(s.encoders, k)
                      else if call == Call.Subscribe(k) then Some(1)
                      else if call == Call.Unsubscribe(k) then None
                      else Lookup(s.encoders, k),
                      if success && call == Call.Subscribe(k) then [Item(k, 0, Snapshot)] else [], s.deferred)
  {
    CompleteSends(s, id, success, k);
    hide Wire;
  }

  lemma CompleteSends(s: S.State, id: nat, success: bool, k: nat)
    requires S.InProgress(s, id, S.Executing)
    ensures Wire(k, S.Complete(s, id, success).sent)
            == if success && s.active[id].call == Call.Subscribe(k) then [Item(k, 0, Snapshot)] else []
  {
    WireOfOne(k, S.Complete(s, id, success).sent[0]);
  }

  lemma AnsweredSlice(sys: System, id: nat, success: bool, k: nat)
    requires Owned(sys, id) && Enabled(sys, ServiceAnswers(id, success))
    ensures var s, call := SliceOf(sys, k), sys.server.active[id].call;
            SliceOf(Step(sys, ServiceAnswers(id, success)), k)
            == if call == Call.Subscribe(k) then
                 if success then Sent(s, Item(k, 0, Snapshot)).(executing := false, encoder := Some(1))
                 else s.(executing := false)
               else if call == Call.Unsubscribe(k) && success then s.(encoder := None)
               else s
  {
    hide S.Complete, IsExecuting, Wire, SliceOf;
    CompleteEffect(sys.server, id, success, k);
    EffectSlice(sys, S.Complete(sys.server, id, success), k);
    assert SliceOf(sys, k).wire + [] == SliceOf(sys, k).wire;
    Looked(sys, k);
  }

  lemma FinishingSlice(sys: System, id: nat, k: nat)
    requires Enabled(sys, RequestFinishes(id))
    ensures SliceOf(Step(sys, RequestFinishes(id)), k) == SliceOf(sys, k)
  {
  }

  lemma DrainingSlice(sys: System, id: nat, k: nat)
    requires Right(k, SliceOf(sys, k)) && Owned(sys, id) && Enabled(sys, PendingDrains(id))
    ensures Right(k, SliceOf(Step(sys, PendingDrains(id)), k))
  {
    hide Right;
    var s := SliceOf(sys, k);
    DrainedSlice(sys, id, k);
    if sys.server.active[id].call.subscription == k {
      assert !s.executing;
      if s.publisher.value.pending == [] {
        ReadyKeeps(k, s);
      } else {
        DrainedUpdateKeeps(k, s);
      }
    }
  }

  lemma Looked(sys: System, k: nat)
    ensures var s := SliceOf(sys, k);
            && s.executing == IsExecuting(sys.server, k) && s.publisher == Lookup(sys.server.publishers, k)
            && s.encoder == Lookup(sys.server.encoders, k) && s.connected == sys.client.connected
            && s.published == sys.Published(k)
  {
  }

  lemma SendEffect(s: S.State, j: nat, value: int, k: nat)
    ensures EffectOf(S.SendUpdate(s, j, value), k)
            == if j == k && k in s.encoders
               then Effect(IsExecuting(s, k), Lookup(s.publishers, k), Some(s.encoders[k] + 1),
                           [Item(k, s.encoders[k], Change(value))], s.deferred)
               else Effect(IsExecuting(s, k), Lookup(s.publishers, k), Lookup(s.encoders, k), [], s.deferred)
  {
    if j in s.encoders {
      WireOfOne(k, S.SendUpdate(s, j, value).sent[0]);
    }
  }

  lemma DrainEffect(s: S.State, id: nat, k: nat)
    requires S.CanDrain(s, id)
    requires s.active[id].call == Call.Subscribe(k) ==> s.publishers[k].request == id
    ensures var e, same := EffectOf(S.DrainOne(s, id), k),
                           Effect(IsExecuting(s, k), Lookup(s.publishers, k), Lookup(s.encoders, k), [], s.deferred);
            if s.active[id].call.subscription != k then e == same
            else
              var p := s.publishers[k];
              if p.pending == [] then e == same.(publisher := Some(p.(ready := true)))
              else
                var rest := same.(publisher := Some(p.(pending := p.pending[1..])));
                e == if k !in s.encoders then rest
                     else rest.(encoder := Some(s.encoders[k] + 1),
                                sent := [Item(k, s.encoders[k], Change(p.pending[0]))])
  {
    var j := s.active[id].call.subscription;
    var p := s.publishers[j];
    if p.pending != [] {
      var held := s.(publishers := s.publishers[j := p.(pending := p.pending[1..])]);
      SendEffect(held, j, p.pending[0], k);
    }
  }

  lemma PublishEffect(s: S.State, j: nat, value: int, k: nat)
    requires j in s.publishers
    ensures var e, same := EffectOf(S.Publish(s, j, value), k),
                           Effect(IsExecuting(s, k), Lookup(s.publishers, k), Lookup(s.encoders, k), [], s.deferred);
            if j != k then e == same
            else
              var p := s.publishers[k];
              e == if !p.ready then same.(publisher := Some(p.(pending := p.pending + [value])))
                   else if k !in s.encoders then same
                   else same.(encoder := Some(s.encoders[k] + 1), sent := [Item(k, s.encoders[k], Change(value))])
  {
    if s.publishers[j].ready {
      SendEffect(s, j, value, k);
    }
  }

  lemma DrainedSlice(sys: System, id: nat, k: nat)
    requires Owned(sys, id) && Enabled(sys, PendingDrains(id))
    ensures var s, after := SliceOf(sys, k), SliceOf(Step(sys, PendingDrains(id)), k);
            if sys.server.active[id].call.subscription != k then after == s
            else
              var p := s.publisher.value;
              if p.pending == [] then after == s.(publisher := Some(p.(ready := true)))
              else
                var rest := s.(publisher := Some(p.(pending := p.pending[1..])));
                after == if s.encoder.None? then rest
                         else Sent(rest, Item(k, s.encoder.value, Change(p.pending[0]))).(
                                encoder := Some(s.encoder.value + 1))
  {
    hide S.DrainOne, IsExecuting, Wire, SliceOf;
    DrainEffect(sys.server, id, k);
    EffectSlice(sys, S.DrainOne(sys.server, id), k);
    assert SliceOf(sys, k).wire + [] == SliceOf(sys, k).wire;
    Looked(sys, k);
  }

  lemma PublishingSlice(sys: System, j: nat, value: int, k: nat)
    requires Right(k, SliceOf(sys, k)) && Enabled(sys, ServicePublishes(j, value))
    ensures Right(k, SliceOf(Step(sys, ServicePublishes(j, value)), k))
  {
    hide Right;
    var s := SliceOf(sys, k);
    PublishedSlice(sys, j, value, k);
    if j == k {
      if !s.publisher.value.ready {
        HeldUpdateKeeps(k, s, value);
      } else if s.encoder.Some? {
        DirectUpdateKeeps(k, s, value);
      } else {
        LostUpdateKeeps(k, s, value);
      }
    }
  }

  lemma PublishedSlice(sys: System, j: nat, value: int, k: nat)
    requires Enabled(sys, ServicePublishes(j, value))
    ensures var s, after := SliceOf(sys, k), SliceOf(Step(sys, ServicePublishes(j, value)), k);
            if j != k then after == s
            else
              var p, longer := s.publisher.value, s.(published := s.published + [value]);
              after == if !p.ready then longer.(publisher := Some(p.(pending := p.pending + [value])))
                       else if s.encoder.None? then longer
                       else Sent(longer, Item(k, s.encoder.value, Change(value))).(encoder := Some(s.encoder.value + 1))
  {
    hide S.Publish, IsExecuting, Wire;
    var announced := sys.(published := sys.published[j := sys.Published(j) + [value]]);
    PublishEffect(sys.server, j, value, k);
    EffectSlice(announced, S.Publish(sys.server, j, value), k);
    assert SliceOf(sys, k).wire + [] == SliceOf(sys, k).wire;
  }

  // ---------------------------------------------------------------------------------------------------------------
  // All of it together

  lemma SliceStep(sys: System, a: Action, k: nat)
    requires Inv(sys) && Enabled(sys, a)
    ensures Right(k, SliceOf(Step(sys, a), k))
  {
    assert Right(k, SliceOf(sys, k));
    hide Right, SliceOf, Correlated, Owned;
    if ByTheServer(a) {
      ServerActionSlice(sys, a, k);
      return;
    }
    match a
    case Connect => ConnectingSlice(sys, k);
    case Request(wrongServer, call) =>
      assert sys.(client := sys.client) == sys;
      AskingSlice(sys, sys.client, wrongServer, call, k);
    case Subscribe(wrongServer) => SubscribingSlice(sys, wrongServer, k);
    case Abort(id) =>
      SendingIsNothing(sys, C.Abort(sys.client, id), k);
      AbortedSlice(sys, id, k);
    case Dispose(j, targetIsCurrent) => DisposingSlice(sys, j, targetIsCurrent, k);
    case ClientReceives => ReceivingSlice(sys, k);
    case ClientDisconnects => DisconnectedSlice(sys, C.Disconnected(sys.client), k);
    case Unregister(_) => ListenerActionSlice(sys, a, k);
    case Clear(_) => ListenerActionSlice(sys, a, k);
    case StartDelivery(_) => ListenerActionSlice(sys, a, k);
    case Deliver(_) => ListenerActionSlice(sys, a, k);
    case _ =>
  }

  predicate ByTheServer(a: Action) {
    a.ServerReceives? || a.HandshakeEnds? || a.ServerTakesDeferred? || a.ServiceAnswers? || a.RequestFinishes?
    || a.PendingDrains? || a.ServicePublishes? || a.ServerDisconnects?
  }

  lemma ServerActionSlice(sys: System, a: Action, k: nat)
    requires Inv(sys) && Enabled(sys, a) && ByTheServer(a)
    ensures Right(k, SliceOf(Step(sys, a), k))
  {
    hide Right, SliceOf, S.Dispatch, Step;
    assert Right(k, SliceOf(sys, k));
    if a.ServiceAnswers? || a.RequestFinishes? || a.PendingDrains? || a.ServicePublishes? {
      ServiceActionSlice(sys, a, k);
    } else {
      match a
      case ServerReceives => ServerReceivingSlice(sys, k);
      case HandshakeEnds => HandshakeSlice(sys, k);
      case ServerTakesDeferred => DeferredSlice(sys, k);
      case ServerDisconnects => ClosingSlice(sys, k);
    }
  }

  lemma ServiceActionSlice(sys: System, a: Action, k: nat)
    requires Right(k, SliceOf(sys, k)) && Enabled(sys, a)
    requires forall id :: Owned(sys, id)
    requires a.ServiceAnswers? || a.RequestFinishes? || a.PendingDrains? || a.ServicePublishes?
    ensures Right(k, SliceOf(Step(sys, a), k))
  {
    hide Right, SliceOf, Owned, Step;
    match a
    case ServiceAnswers(id, success) =>
      assert Owned(sys, id);
      AnsweringSlice(sys, id, success, k);
    case RequestFinishes(id) => FinishingSlice(sys, id, k);
    case PendingDrains(id) =>
      assert Owned(sys, id);
      DrainingSlice(sys, id, k);
    case ServicePublishes(j, value) => PublishingSlice(sys, j, value, k);
  }

  lemma ClosingSlice(sys: System, k: nat)
    requires Right(k, SliceOf(sys, k))
    ensures Right(k, SliceOf(Step(sys, ServerDisconnects), k))
  {
    HelloSlice(sys, k);
  }

  lemma HandshakeSlice(sys: System, k: nat)
    ensures SliceOf(Step(sys, HandshakeEnds), k) == SliceOf(sys, k)
  {
  }

  lemma DeferredSlice(sys: System, k: nat)
    requires Right(k, SliceOf(sys, k)) && Enabled(sys, ServerTakesDeferred)
    ensures Right(k, SliceOf(Step(sys, ServerTakesDeferred), k))
  {
    hide Right, S.Handle;
    var rest := sys.(server := sys.server.(deferred := sys.server.deferred[1..]));
    assert sys.Queue() == [sys.server.deferred[0]] + rest.Queue();
    HandlingSlice(sys, rest, sys.server.deferred[0], k);
  }

  lemma AbortedSlice(sys: System, id: nat, k: nat)
    ensures SliceOf(sys.(client := C.Abort(sys.client, id).state), k) == SliceOf(sys, k)
  {
  }

  lemma ReceivingSlice(sys: System, k: nat)
    requires Inv(sys) && Enabled(sys, ClientReceives)
    ensures C.Receive(sys.client, sys.s2c[0]).fault.None? && C.Receive(sys.client, sys.s2c[0]).connected
    ensures Right(k, SliceOf(Step(sys, ClientReceives), k))
  {
    hide Right, Correlated, Owned, C.Receive;
    var m := sys.s2c[0];
    match m
    case Response(id, _) =>
      assert Correlated(sys, id) && Owned(sys, id);
      ReceivedResponseSlice(sys, k);
    case Update(item) =>
      assert Right(item.subscription, SliceOf(sys, item.subscription)) && Right(k, SliceOf(sys, k));
      ReceivedUpdateSlice(sys, item.subscription);
      if k != item.subscription {
        UpdateIsForeign(sys, k);
      }
  }

  lemma UpdateIsForeign(sys: System, k: nat)
    requires sys.client.connected && sys.s2c != [] && sys.s2c[0].Update? && sys.s2c[0].item.subscription != k
    requires C.Receive(sys.client, sys.s2c[0]).connected
    ensures SliceOf(Step(sys, ClientReceives), k) == SliceOf(sys, k)
  {
    ForeignMessage(sys, C.Receive(sys.client, sys.s2c[0]), k);
  }

  /** A subscribe request in the queue means that nothing of its stream exists yet. */
  lemma QueuedIsNew(sys: System, m: ClientMessage, k: nat)
    requires m in sys.Queue() && AsksOne(k, m) == 1 && Right(k, SliceOf(sys, k))
    ensures k !in sys.server.publishers
  {
    AskIsCounted(k, sys.Queue(), m);
  }

  lemma {:induction false} AskIsCounted(k: nat, messages: seq<ClientMessage>, m: ClientMessage)
    requires m in messages && AsksOne(k, m) == 1
    ensures Asks(k, messages) > 0
    decreases |messages|
  {
    if messages[|messages| - 1] != m {
      AskIsCounted(k, messages[..|messages| - 1], m);
    }
  }

  /** Whatever a ready server takes up, subscribe requests under way own their publishers. */
  lemma HandlingOwned(s: S.State, m: ClientMessage, id: nat)
    requires OwnedAtServer(s, id)
    requires m.Request? && m.call.Subscribe? ==> m.call.subscription !in s.publishers
    ensures OwnedAtServer(S.Handle(s, m).state, id)
  {
  }

  lemma DispatchOwned(sys: System, id: nat)
    requires Inv(sys) && Enabled(sys, ServerReceives)
    ensures OwnedAtServer(S.Dispatch(sys.server, sys.c2s[0]).state, id)
  {
    hide S.Handle, Right, Correlated;
    var m := sys.c2s[0];
    assert Owned(sys, id);
    if sys.server.stage.Ready? {
      assert m in sys.Queue();
      if m.Request? && m.call.Subscribe? {
        QueuedIsNew(sys, m, m.call.subscription);
      }
      HandlingOwned(sys.server, m, id);
    }
  }

  lemma DeferredOwned(sys: System, id: nat)
    requires Inv(sys) && Enabled(sys, ServerTakesDeferred)
    ensures OwnedAtServer(S.HandleDeferred(sys.server).state, id)
  {
    hide S.Handle, Right, Correlated;
    var m := sys.server.deferred[0];
    assert Owned(sys, id);
    assert m in sys.Queue();
    if m.Request? && m.call.Subscribe? {
      QueuedIsNew(sys, m, m.call.subscription);
    }
    HandlingOwned(sys.server.(deferred := sys.server.deferred[1..]), m, id);
  }

  /** No other step of the server changes who made a publisher. */
  lemma CompleteOwned(s: S.State, answered: nat, success: bool, id: nat)
    requires OwnedAtServer(s, id) && S.InProgress(s, answered, S.Executing)
    ensures OwnedAtServer(S.Complete(s, answered, success).state, id)
  {
  }

  lemma DrainOwned(s: S.State, drained: nat, id: nat)
    requires OwnedAtServer(s, id) && S.CanDrain(s, drained)
    ensures OwnedAtServer(S.DrainOne(s, drained).state, id)
  {
  }

  lemma PublishOwned(s: S.State, k: nat, value: int, id: nat)
    requires OwnedAtServer(s, id) && k in s.publishers
    ensures OwnedAtServer(S.Publish(s, k, value).state, id)
  {
  }

  lemma ServerActionOwned(sys: System, a: Action, id: nat)
    requires Inv(sys) && Enabled(sys, a) && ByTheServer(a)
    ensures OwnedAtServer(Step(sys, a).server, id)
  {
    assert Owned(sys, id);
    hide Inv, S.Handle, S.Dispatch, S.HandleDeferred, S.Complete, S.DrainOne, S.Publish;
    match a
    case ServerReceives => DispatchOwned(sys, id);
    case ServerTakesDeferred => DeferredOwned(sys, id);
    case ServiceAnswers(answered, success) => CompleteOwned(sys.server, answered, success, id);
    case PendingDrains(drained) => DrainOwned(sys.server, drained, id);
    case ServicePublishes(k, value) => PublishOwned(sys.server, k, value, id);
    case _ =>
  }

  /** What the client knows of its own subscribe requests. */
  lemma ClientActionOwned(sys: System, a: Action, id: nat)
    requires Inv(sys) && Enabled(sys, a) && !a.ClientReceives? && !ByTheServer(a)
    ensures OwnedAtClient(Step(sys, a).client, id)
  {
    assert Owned(sys, id) && Correlated(sys, id);
    hide Right, Matched;
    match a
    case Subscribe(_) => assert sys.client.subscriptions + 1 !in sys.client.listeners;
    case _ =>
  }

  lemma ReceivingOwned(sys: System, id: nat)
    requires Inv(sys) && Enabled(sys, ClientReceives)
    ensures OwnedAtClient(Step(sys, ClientReceives).client, id)
  {
    hide Right, Correlated;
    var m := sys.s2c[0];
    assert Owned(sys, id);
    ReceivingSlice(sys, 0);
    if m.Response? && m.id in sys.client.pending {
      assert Owned(sys, m.id);
    }
  }

  lemma SentAreUpdatesOfChanges(s: S.State, a: Action)
    requires Enabled(Start.(server := s), a) && (a.PendingDrains? || a.ServicePublishes?)
    ensures var step := if a.PendingDrains? then S.DrainOne(s, a.drained) else S.Publish(s, a.to, a.value);
            forall m | m in step.sent && m.Update? :: m.item.payload.Change?
  {
  }

  lemma TypedStep(sys: System, a: Action)
    requires Inv(sys) && Enabled(sys, a)
    ensures Typed(Step(sys, a))
  {
    hide Right, Correlated, Owned, SliceOf, Framed, C.Receive, S.DrainOne, S.Publish;
    match a
    case ClientReceives =>
      ReceivingSlice(sys, 0);
      ReceivingTyped(sys);
    case PendingDrains(_) => SentAreUpdatesOfChanges(sys.server, a);
    case ServicePublishes(_, _) => SentAreUpdatesOfChanges(sys.server, a);
    case ServerReceives => HandlingSendsNoUpdates(sys.server, sys.c2s[0]);
    case ServerTakesDeferred =>
      HandlingSendsNoUpdates(sys.server.(deferred := sys.server.deferred[1..]), sys.server.deferred[0]);
    case _ =>
  }

  lemma HandlingSendsNoUpdates(s: S.State, m: ClientMessage)
    ensures forall sent | sent in S.Handle(s, m).sent + S.Dispatch(s, m).sent :: sent.Response?
  {
  }

  lemma ReceivingTyped(sys: System)
    requires Typed(sys) && Enabled(sys, ClientReceives) && C.Receive(sys.client, sys.s2c[0]).fault.None?
    ensures Typed(Step(sys, ClientReceives))
  {
  }

  lemma FramedStep(sys: System, a: Action)
    requires Inv(sys) && Enabled(sys, a)
    ensures Framed(Step(sys, a))
  {
    hide Right, Correlated, Owned, SliceOf, Typed, C.Receive, S.Handle, S.Complete, S.DrainOne, S.Publish;
    match a
    case ClientReceives => ReceiveTakes(sys.client, sys.s2c[0]);
    case ServerReceives => HandlingFrame(sys.server, sys.c2s[0]);
    case ServerTakesDeferred =>
      HandlingFrame(sys.server.(deferred := sys.server.deferred[1..]), sys.server.deferred[0]);
    case ServiceAnswers(id, success) => CompletingFrame(sys.server, id, success);
    case PendingDrains(id) => DrainingFrame(sys.server, id);
    case ServicePublishes(k, value) => PublishingFrame(sys.server, k, value);
    case _ =>
  }

  lemma OwnedStep(sys: System, a: Action, id: nat)
    requires Inv(sys) && Enabled(sys, a)
    ensures Owned(Step(sys, a), id)
  {
    assert Owned(sys, id);
    if ByTheServer(a) {
      ServerActionOwned(sys, a, id);
      ClientUntouched(sys, a);
    } else {
      ServerUntouched(sys, a);
      hide Inv, Step;
      if a.ClientReceives? {
        ReceivingOwned(sys, id);
      } else {
        ClientActionOwned(sys, a, id);
      }
    }
  }

  lemma ClientUntouched(sys: System, a: Action)
    requires Enabled(sys, a) && ByTheServer(a)
    ensures Step(sys, a).client == sys.client
  {
  }

  lemma ServerUntouched(sys: System, a: Action)
    requires Enabled(sys, a) && !ByTheServer(a)
    ensures Step(sys, a).server == if a.Connect? then S.Initial.(stage := S.Handshaking) else sys.server
  {
  }

  lemma InvStep(sys: System, a: Action)
    requires Inv(sys) && Enabled(sys, a)
    ensures Inv(Step(sys, a))
  {
    hide Step, Right, SliceOf, Correlated, Owned;
    FramedStep(sys, a);
    TypedStep(sys, a);
    forall id
      ensures Correlated(Step(sys, a), id) && Owned(Step(sys, a), id)
    {
      assert Correlated(sys, id);
      CorrelationStep(sys, a, id);
      OwnedStep(sys, a, id);
    }
    forall k
      ensures Right(k, SliceOf(Step(sys, a), k))
    {
      SliceStep(sys, a, k);
    }
  }

  lemma {:induction false} InvRun(actions: seq<Action>)
    ensures Inv(Run(actions))
    decreases |actions|
  {
    if actions != [] {
      var before, last := Run(actions[..|actions| - 1]), actions[|actions| - 1];
      InvRun(actions[..|actions| - 1]);
      if Enabled(before, last) {
        InvStep(before, last);
      }
    }
  }

  // ---------------------------------------------------------------------------------------------------------------
  // The theorems

  lemma SlicesAreRight(actions: seq<Action>, k: nat)
    ensures Right(k, SliceOf(Run(actions), k)) && Run(actions).client.fault.None?
  {
    InvRun(actions);
    hide Run;
  }

  /** End to end, over every run: what a listener has been given, is about to be given and has decoded is, in this
      order, a prefix of what its service published; nothing is given before the start; no update ever reaches the
      client before the snapshot; and the client never finds a reason to fail the connection. */
  lemma {:induction false} ListenersSeeAPrefix(actions: seq<Action>, k: nat)
    ensures var sys := Run(actions);
            && sys.client.fault.None?
            && (k in sys.client.listeners ==>
                  var l := sys.client.listeners[k];
                  && l.delivered + l.scheduled + l.queued <= sys.Published(k)
                  && (!l.ready ==> l.delivered == [] && l.scheduled == [])
                  && l.queuedWireUpdates == [])
  {
    hide Run;
    SlicesAreRight(actions, k);
  }

  /** The snapshot goes first: as long as the client has not read it, it comes before every update on the wire; what
      comes after it continues what has been read, without a gap, a repetition or a change of order. */
  lemma {:induction false} WireContinuesTheStream(actions: seq<Action>, k: nat)
    ensures var sys := Run(actions);
            sys.client.connected && k in sys.client.listeners && sys.client.listeners[k].registered ==>
              var from, wire := sys.client.listeners[k].decoded, Wire(k, sys.s2c);
              && (wire != [] && !sys.client.listeners[k].hydrated ==> wire[0] == Item(k, 0, Snapshot))
              && from + |wire| <= |sys.Published(k)| + 1
              && wire == Items(k, sys.Published(k), from, from + |wire|)
  {
    hide Run;
    SlicesAreRight(actions, k);
    hide Right, Items;
    if Follows(SliceOf(Run(actions), k)) {
      WireOfSlice(k, SliceOf(Run(actions), k));
    }
  }

  lemma WireOfSlice(k: nat, s: Slice)
    requires Right(k, s) && Follows(s)
    ensures var from := s.listener.value.decoded;
            && (s.wire != [] && !s.listener.value.hydrated ==> s.wire[0] == Item(k, 0, Snapshot))
            && from + |s.wire| <= |s.published| + 1
            && s.wire == Items(k, s.published, from, from + |s.wire|)
  {
    if s.wire != [] {
      ItemsOneLess(k, s.published, s.listener.value.decoded, s.listener.value.decoded + |s.wire|);
    }
  }

  /** Nothing is lost: once nothing of a live subscription is held back or on the wire, the client has decoded
      everything that was published. */
  lemma {:induction false} NothingIsLost(actions: seq<Action>, k: nat)
    ensures var sys := Run(actions);
            && sys.client.connected && k in sys.client.listeners && sys.client.listeners[k].registered
            && k in sys.server.encoders && k in sys.server.publishers && sys.server.publishers[k].pending == []
            && Wire(k, sys.s2c) == []
            ==> Got(sys.client.listeners[k]) == sys.Published(k)
  {
    hide Run;
    SlicesAreRight(actions, k);
  }

  /** Every request the client waits for, aborted or not, is on its way exactly once while the server is there: in a
      channel, with a service, or in its one response. No other request is on its way, so no response ever comes
      unmatched; and no entry survives a disconnection. */
  lemma {:induction false} RequestsAreAnsweredOnce(actions: seq<Action>, id: nat)
    ensures var sys := Run(actions);
            && (!sys.client.connected ==> sys.client.pending == map[])
            && (sys.client.connected && id !in sys.client.pending ==> Tokens(sys, id) == 0)
            && (sys.client.connected && id in sys.client.pending && !sys.server.stage.Closed? ==> Tokens(sys, id) == 1)
            && (sys.client.connected && sys.s2c != [] && sys.s2c[0].Response? ==> sys.s2c[0].id in sys.client.pending)
  {
    InvRun(actions);
    hide Run;
    var sys := Run(actions);
    assert Correlated(sys, id);
    if sys.client.connected && sys.s2c != [] && sys.s2c[0].Response? {
      assert Correlated(sys, sys.s2c[0].id);
      ResponseIsAwaited(sys);
    }
  }
}
