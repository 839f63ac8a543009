/** The envelopes that client and server exchange once the handshake is under way.

    The state codec of a subscription is stateful on both sides: what an item means depends on every item encoded before
    it. An encoded item therefore carries its position in its stream, and decoding it anywhere else fails. */
module Protocol {
  import opened Common

  datatype Payload = Snapshot | Change(value: int)

  datatype Item = Item(subscription: nat, position: nat, payload: Payload)

  datatype Call = Subscribe(subscription: nat) | Unsubscribe(subscription: nat) | Invoke | Malformed

  datatype ClientMessage =
    | Hello
    | Request(id: nat, wrongServer: bool, call: Call)
    | Cancel(id: nat)

  datatype ErrorCode = InvalidRequest | WrongServer | Cancelled | Failed

  datatype Reply = Success(snapshot: Option<Item>) | Failure(code: ErrorCode)

  datatype ServerMessage = Response(id: nat, reply: Reply) | Update(item: Item)
}
