/** The incremental frame decoder and the frame encoder of the protocol package.

    `Parse` is the reference: a pure, whole-stream reader of length-prefixed frames. `FrameDecoder` is the
    buffer-filling decoder; each of its methods is proved against `Feed` or `Finish`, which are stated with `Parse`,
    and the stream theorems (independence of the chunking, round trip, end of stream) are proved about those. */
module Framing {
  import opened Common

  type byte = x: int | 0 <= x < 256
  type Bytes = seq<byte>

  const FRAME_HEADER_LENGTH := 4
  const MAX_UINT32 := 0xffff_ffff
  const PAYLOAD_BLOCK_SIZE := 64 * 1024
  const DEFAULT_MAX_FRAME_LENGTH := 16 * 1024 * 1024

  datatype Error =
    | DecoderHasEnded
    | DecoderHasFailed
    | TruncatedFrame
    | FrameTooLong(length: nat)
    | PayloadTooLong
    | BadLimit

  datatype Result<+T> = Ok(value: T) | Err(error: Error)

  // ---------------------------------------------------------------------------------------------------------------
  // Reference reading of a byte stream

  /** What follows the last whole frame: an unfinished frame, or a header announcing too much. */
  datatype Tail = Rest(bytes: Bytes) | Overlong(length: nat)

  datatype Parsed = Parsed(frames: seq<Bytes>, tail: Tail)

  function HeaderValue(header: Bytes): nat
    requires |header| == FRAME_HEADER_LENGTH
  {
    (header[0] as int) * 0x100_0000 + (header[1] as int) * 0x1_0000 + (header[2] as int) * 0x100 + header[3]
  }

  function Prepend(frames: seq<Bytes>, parsed: Parsed): Parsed {
    Parsed(frames + parsed.frames, parsed.tail)
  }

  function Parse(max: nat, stream: Bytes): Parsed {
    if |stream| < FRAME_HEADER_LENGTH then
      Parsed([], Rest(stream))
    else
      var length := HeaderValue(stream[..FRAME_HEADER_LENGTH]);
      var body := stream[FRAME_HEADER_LENGTH..];
      if length > max then Parsed([], Overlong(length))
      else if |body| < length then Parsed([], Rest(stream))
      else Prepend([body[..length]], Parse(max, body[length..]))
  }

  /** A stretch of bytes that holds no whole frame and no overlong header. */
  ghost predicate Incomplete(max: nat, bytes: Bytes) {
    Parse(max, bytes) == Parsed([], Rest(bytes))
  }

  lemma {:induction false} ParseAppend(max: nat, a: Bytes, b: Bytes)
    ensures Parse(max, a + b) ==
            match Parse(max, a)
            case Parsed(frames, Rest(rest)) => Prepend(frames, Parse(max, rest + b))
            case Parsed(frames, Overlong(length)) => Parsed(frames, Overlong(length))
    decreases |a|
  {
    if |a| >= FRAME_HEADER_LENGTH {
      assert (a + b)[..FRAME_HEADER_LENGTH] == a[..FRAME_HEADER_LENGTH];
      var length := HeaderValue(a[..FRAME_HEADER_LENGTH]);
      var body := a[FRAME_HEADER_LENGTH..];
      assert (a + b)[FRAME_HEADER_LENGTH..] == body + b;
      if length <= max && |body| >= length {
        assert (body + b)[..length] == body[..length];
        assert (body + b)[length..] == body[length..] + b;
        ParseAppend(max, body[length..], b);
      }
    }
  }

  lemma {:induction false} RestIsIncomplete(max: nat, stream: Bytes)
    ensures var parsed := Parse(max, stream); parsed.tail.Rest? ==> Incomplete(max, parsed.tail.bytes)
    decreases |stream|
  {
    if |stream| >= FRAME_HEADER_LENGTH {
      var length := HeaderValue(stream[..FRAME_HEADER_LENGTH]);
      var body := stream[FRAME_HEADER_LENGTH..];
      if length <= max && |body| >= length {
        RestIsIncomplete(max, body[length..]);
      }
    }
  }

  // ---------------------------------------------------------------------------------------------------------------
  // Encoding

  function HeaderOf(length: nat): (header: Bytes)
    requires length <= MAX_UINT32
    ensures |header| == FRAME_HEADER_LENGTH && HeaderValue(header) == length
  {
    var high := length / 0x100;
    var higher := high / 0x100;
    [higher / 0x100, higher % 0x100, high % 0x100, length % 0x100]
  }

  function Encode(payload: Bytes): Bytes
    requires |payload| <= MAX_UINT32
  {
    HeaderOf(|payload|) + payload
  }

  ghost predicate AllWithin(max: nat, payloads: seq<Bytes>) {
    forall p | p in payloads :: |p| <= max
  }

  function EncodeAll(payloads: seq<Bytes>): Bytes
    requires forall p | p in payloads :: |p| <= MAX_UINT32
  {
    if payloads == [] then [] else Encode(payloads[0]) + EncodeAll(payloads[1..])
  }

  lemma ParseOne(max: nat, payload: Bytes, after: Bytes)
    requires |payload| <= max <= MAX_UINT32
    ensures Parse(max, Encode(payload) + after) == Prepend([payload], Parse(max, after))
  {
    var stream := Encode(payload) + after;
    assert stream[..FRAME_HEADER_LENGTH] == HeaderOf(|payload|);
    var body := stream[FRAME_HEADER_LENGTH..];
    assert body == payload + after;
    assert body[..|payload|] == payload && body[|payload|..] == after;
  }

  lemma Associative(a: Bytes, b: Bytes, c: Bytes)
    ensures (a + b) + c == a + (b + c)
  {
  }

  lemma Adjacent(bytes: Bytes, from: nat, middle: nat, to: nat)
    requires from <= middle <= to <= |bytes|
    ensures bytes[from..middle] + bytes[middle..to] == bytes[from..to]
    ensures to == |bytes| ==> bytes[from..middle] + bytes[middle..] == bytes[from..]
  {
  }

  /** Reading back what was written, whatever unfinished bytes follow. */
  lemma {:induction false} ParseEncoded(max: nat, payloads: seq<Bytes>, rest: Bytes)
    requires max <= MAX_UINT32 && AllWithin(max, payloads)
    requires Incomplete(max, rest)
    ensures Parse(max, EncodeAll(payloads) + rest) == Parsed(payloads, Rest(rest))
    decreases |payloads|
  {
    if payloads == [] {
      assert EncodeAll(payloads) + rest == rest;
    } else {
      ParseEncoded(max, payloads[1..], rest);
      Associative(Encode(payloads[0]), EncodeAll(payloads[1..]), rest);
      ParseOne(max, payloads[0], EncodeAll(payloads[1..]) + rest);
      assert [payloads[0]] + payloads[1..] == payloads;
    }
  }

  lemma {:induction false} HeaderIsUnique(header: Bytes)
    requires |header| == FRAME_HEADER_LENGTH
    ensures HeaderValue(header) <= MAX_UINT32 && HeaderOf(HeaderValue(header)) == header
  {
    var n := HeaderValue(header);
    var h := HeaderOf(n);
    assert n / 0x100_0000 == header[0];
    assert n / 0x1_0000 == (header[0] as int) * 0x100 + header[1];
    assert n / 0x100 == (header[0] as int) * 0x1_0000 + (header[1] as int) * 0x100 + header[2];
    assert h[0] == header[0] && h[1] == header[1] && h[2] == header[2] && h[3] == header[3];
  }

  lemma EncodeCons(max: nat, first: Bytes, others: seq<Bytes>)
    requires |first| <= max <= MAX_UINT32 && AllWithin(max, others)
    ensures AllWithin(max, [first] + others)
    ensures EncodeAll([first] + others) == Encode(first) + EncodeAll(others)
  {
    assert ([first] + others)[1..] == others;
  }

  /** The converse of `ParseEncoded`: frames that were read are within the limit and, encoded again, are the bytes
      that were consumed. Together the two say that `Parse` inverts `EncodeAll` and nothing else. */
  lemma {:induction false} ParsedFramesEncodeBack(max: nat, stream: Bytes)
    requires max <= MAX_UINT32
    ensures AllWithin(max, Parse(max, stream).frames)
    ensures var parsed := Parse(max, stream);
            parsed.tail.Rest? ==> EncodeAll(parsed.frames) + parsed.tail.bytes == stream
    decreases |stream|
  {
    if |stream| >= FRAME_HEADER_LENGTH {
      var header := stream[..FRAME_HEADER_LENGTH];
      var length := HeaderValue(header);
      var body := stream[FRAME_HEADER_LENGTH..];
      if length <= max && |body| >= length {
        ParsedFramesEncodeBack(max, body[length..]);
        PrependEncodesBack(max, header, body[..length], body[length..], Parse(max, body[length..]));
        assert stream == header + (body[..length] + body[length..]);
      }
    }
  }

  lemma PrependEncodesBack(max: nat, header: Bytes, first: Bytes, after: Bytes, inner: Parsed)
    requires |header| == FRAME_HEADER_LENGTH && HeaderValue(header) == |first| <= max <= MAX_UINT32
    requires AllWithin(max, inner.frames)
    requires inner.tail.Rest? ==> EncodeAll(inner.frames) + inner.tail.bytes == after
    ensures var parsed := Prepend([first], inner);
            && AllWithin(max, parsed.frames)
            && (parsed.tail.Rest? ==> EncodeAll(parsed.frames) + parsed.tail.bytes == header + (first + after))
  {
    HeaderIsUnique(header);
    EncodeCons(max, first, inner.frames);
    if inner.tail.Rest? {
      Associative(Encode(first), EncodeAll(inner.frames), inner.tail.bytes);
      Associative(header, first, after);
    }
  }

  // ---------------------------------------------------------------------------------------------------------------
  // The decoder as a value

  datatype Decoder = Open(unread: Bytes) | Ended | Failed

  /** One `push`. A failing push reports no frames, not even those completed earlier in the same chunk. */
  function Feed(max: nat, decoder: Decoder, chunk: Bytes): (Result<seq<Bytes>>, Decoder) {
    match decoder
    case Ended => (Err(DecoderHasEnded), Ended)
    case Failed => (Err(DecoderHasFailed), Failed)
    case Open(unread) =>
      match Parse(max, unread + chunk)
      case Parsed(frames, Rest(rest)) => (Ok(frames), Open(rest))
      case Parsed(_, Overlong(length)) => (Err(FrameTooLong(length)), Failed)
  }

  function Finish(decoder: Decoder): (Result<()>, Decoder) {
    match decoder
    case Ended => (Err(DecoderHasEnded), Ended)
    case Failed => (Err(DecoderHasFailed), Failed)
    case Open(unread) => if unread == [] then (Ok(()), Ended) else (Err(TruncatedFrame), Failed)
  }

  datatype Delivery = Delivery(frames: seq<Bytes>, final: Decoder)

  /** Every frame handed to the caller while the chunks are pushed in turn. */
  function Deliver(max: nat, decoder: Decoder, chunks: seq<Bytes>): Delivery
    decreases |chunks|
  {
    if chunks == [] then
      Delivery([], decoder)
    else
      var (result, next) := Feed(max, decoder, chunks[0]);
      var later := Deliver(max, next, chunks[1..]);
      Delivery((if result.Ok? then result.value else []) + later.frames, later.final)
  }

  function Concat(chunks: seq<Bytes>): Bytes {
    if chunks == [] then [] else chunks[0] + Concat(chunks[1..])
  }

  lemma {:induction false} StoppedIsAbsorbing(max: nat, decoder: Decoder, chunks: seq<Bytes>)
    requires !decoder.Open?
    ensures Deliver(max, decoder, chunks) == Delivery([], decoder)
    decreases |chunks|
  {
    if chunks != [] {
      StoppedIsAbsorbing(max, decoder, chunks[1..]);
    }
  }

  lemma {:induction false} DeliverFrom(max: nat, unread: Bytes, chunks: seq<Bytes>)
    ensures var whole := Parse(max, unread + Concat(chunks)); var got := Deliver(max, Open(unread), chunks);
            Incomplete(max, unread) ==>
            match whole.tail
            case Rest(rest) => got == Delivery(whole.frames, Open(rest))
            case Overlong(_) => got.final == Failed && got.frames <= whole.frames
    decreases |chunks|
  {
    hide Parse;
    if chunks == [] {
      assert unread + Concat(chunks) == unread;
    } else {
      var first := Parse(max, unread + chunks[0]);
      ParseAppend(max, unread + chunks[0], Concat(chunks[1..]));
      assert unread + Concat(chunks) == (unread + chunks[0]) + Concat(chunks[1..]);
      if first.tail.Rest? {
        RestIsIncomplete(max, unread + chunks[0]);
        DeliverFrom(max, first.tail.bytes, chunks[1..]);
      } else {
        StoppedIsAbsorbing(max, Failed, chunks[1..]);
      }
    }
  }

  /** Chunk independence. What a stream of chunks yields depends only on the bytes: a good stream yields exactly the
      reference frames and leaves exactly the unread bytes, and the stream fails exactly when the reference reading
      meets an overlong header, whatever the cuts. */
  lemma ChunkIndependence(max: nat, chunks: seq<Bytes>)
    ensures var whole := Parse(max, Concat(chunks)); var got := Deliver(max, Open([]), chunks);
            && (whole.tail.Rest? <==> got.final.Open?)
            && (whole.tail.Rest? ==> got == Delivery(whole.frames, Open(whole.tail.bytes)))
            && (whole.tail.Overlong? ==> got.final == Failed && got.frames <= whole.frames)
  {
    assert [] + Concat(chunks) == Concat(chunks);
    DeliverFrom(max, [], chunks);
  }

  /** On a failing stream the cuts do matter: what was delivered is what the chunks before the failing one held, so
      the frames lost are exactly those that were completed inside the failing chunk. */
  lemma {:induction false} FailingChunkLosesItsFrames(max: nat, before: seq<Bytes>, failing: Bytes, later: seq<Bytes>)
    requires Parse(max, Concat(before)).tail.Rest?
    requires Parse(max, Concat(before) + failing).tail.Overlong?
    ensures var whole := Parse(max, Concat(before + ([failing] + later)));
            var got := Deliver(max, Open([]), before + ([failing] + later));
            && got == Delivery(Parse(max, Concat(before)).frames, Failed)
            && (got.frames == whole.frames
                <==> Parse(max, Parse(max, Concat(before)).tail.bytes + failing).frames == [])
  {
    var early := Parse(max, Concat(before));
    ParseAppend(max, Concat(before), failing);
    DeliverUpToFailure(max, before, failing, later);
    ConcatUpToFailure(before, failing, later);
    ParseAppend(max, Concat(before) + failing, Concat(later));
    var inChunk := Parse(max, early.tail.bytes + failing).frames;
    assert early.frames + inChunk == early.frames <==> inChunk == [] by {
      assert |early.frames + inChunk| == |early.frames| + |inChunk|;
    }
  }

  lemma DeliverUpToFailure(max: nat, before: seq<Bytes>, failing: Bytes, later: seq<Bytes>)
    requires Parse(max, Concat(before)).tail.Rest?
    requires Parse(max, Parse(max, Concat(before)).tail.bytes + failing).tail.Overlong?
    ensures Deliver(max, Open([]), before + ([failing] + later)) == Delivery(Parse(max, Concat(before)).frames, Failed)
  {
    var early := Parse(max, Concat(before));
    ChunkIndependence(max, before);
    DeliverAppend(max, Open([]), before, [failing] + later);
    assert ([failing] + later)[1..] == later;
    StoppedIsAbsorbing(max, Failed, later);
    assert early.frames + [] == early.frames;
  }

  lemma ConcatUpToFailure(before: seq<Bytes>, failing: Bytes, later: seq<Bytes>)
    ensures Concat(before + ([failing] + later)) == (Concat(before) + failing) + Concat(later)
  {
    ConcatAppend(before, [failing] + later);
    assert ([failing] + later)[1..] == later;
    Associative(Concat(before), failing, Concat(later));
  }

  /** The obvious claim, that a decoder hands over every frame preceding the bad header, fails: with the limit zero,
      a header announcing one byte takes the finished empty frame in its chunk with it; cut between the two, the
      empty frame arrives. */
  lemma DroppedFrameExample(empty: Bytes, bad: Bytes)
    requires empty == [0, 0, 0, 0] && bad == [0, 0, 0, 1]
    ensures Deliver(0, Open([]), [empty + bad]).frames == []
    ensures Deliver(0, Open([]), [empty, bad]).frames == [[]]
  {
    ReadsOfTheExample(empty, bad);
    var none: seq<Bytes> := [];
    assert Concat(none) == [] && [] + (empty + bad) == empty + bad;
    FailingChunkLosesItsFrames(0, none, empty + bad, none);
    assert none + ([empty + bad] + none) == [empty + bad];
    assert [empty][1..] == none && Concat([empty]) == empty + [] == empty;
    assert [] + bad == bad;
    FailingChunkLosesItsFrames(0, [empty], bad, none);
    assert [empty] + ([bad] + none) == [empty, bad];
  }

  lemma ReadsOfTheExample(empty: Bytes, bad: Bytes)
    requires empty == [0, 0, 0, 0] && bad == [0, 0, 0, 1]
    ensures Parse(0, []) == Parsed([], Rest([]))
    ensures Parse(0, empty) == Parsed([[]], Rest([]))
    ensures Parse(0, bad) == Parsed([], Overlong(1))
    ensures Parse(0, empty + bad) == Parsed([[]], Overlong(1))
  {
    assert empty[..4] == empty && bad[..4] == bad && empty[4..] == [];
    assert HeaderValue(empty) == 0 && HeaderValue(bad) == 1;
    var none: Bytes := [];
    assert none[..0] == none && none[0..] == none && [] + bad == bad;
    assert Parse(0, none) == Parsed([], Rest(none));
    assert [none] + [] == [none];
    assert Parse(0, empty) == Prepend([none], Parse(0, none));
    ParseAppend(0, empty, bad);
  }

  lemma {:induction false} ConcatAppend(a: seq<Bytes>, b: seq<Bytes>)
    ensures Concat(a + b) == Concat(a) + Concat(b)
    decreases |a|
  {
    if a == [] {
      assert a + b == b;
    } else {
      assert (a + b)[1..] == a[1..] + b;
      ConcatAppend(a[1..], b);
    }
  }

  lemma {:induction false} DeliverAppend(max: nat, decoder: Decoder, a: seq<Bytes>, b: seq<Bytes>)
    ensures var first := Deliver(max, decoder, a); var second := Deliver(max, first.final, b);
            Deliver(max, decoder, a + b) == Delivery(first.frames + second.frames, second.final)
    decreases |a|
  {
    if a == [] {
      assert a + b == b;
    } else {
      assert (a + b)[1..] == a[1..] + b;
      DeliverAppend(max, Feed(max, decoder, a[0]).1, a[1..], b);
    }
  }

  /** Round trip. Encoded payloads, cut up in any way, are delivered back in order, and the stream may then end. */
  lemma RoundTrip(max: nat, payloads: seq<Bytes>, chunks: seq<Bytes>)
    requires max <= MAX_UINT32 && AllWithin(max, payloads)
    requires Concat(chunks) == EncodeAll(payloads)
    ensures Deliver(max, Open([]), chunks) == Delivery(payloads, Open([]))
    ensures Finish(Deliver(max, Open([]), chunks).final) == (Ok(()), Ended)
  {
    ParseEncoded(max, payloads, []);
    assert EncodeAll(payloads) + [] == EncodeAll(payloads);
    ChunkIndependence(max, chunks);
  }

  /** `end()` succeeds exactly when the bytes seen are whole frames within the limit. */
  lemma EndSucceedsIffWholeFrames(max: nat, chunks: seq<Bytes>)
    requires max <= MAX_UINT32
    ensures Finish(Deliver(max, Open([]), chunks).final).0.Ok?
            <==> exists payloads :: AllWithin(max, payloads) && Concat(chunks) == EncodeAll(payloads)
  {
    var whole := Parse(max, Concat(chunks));
    ChunkIndependence(max, chunks);
    ParsedFramesEncodeBack(max, Concat(chunks));
    if Finish(Deliver(max, Open([]), chunks).final).0.Ok? {
      assert EncodeAll(whole.frames) + [] == EncodeAll(whole.frames);
      assert AllWithin(max, whole.frames) && Concat(chunks) == EncodeAll(whole.frames);
    }
    if payloads :| AllWithin(max, payloads) && Concat(chunks) == EncodeAll(payloads) {
      RoundTrip(max, payloads, chunks);
    }
  }

  // ---------------------------------------------------------------------------------------------------------------
  // The imperative encoder and decoder

  method EncodeFrame(payload: Bytes) returns (r: Result<Bytes>)
    ensures r == if |payload| > MAX_UINT32 then Err(PayloadTooLong) else Ok(Encode(payload))
  {
    if |payload| > MAX_UINT32 {
      return Err(PayloadTooLong);
    }
    hide HeaderValue;
    var length := |payload|;
    var frame := new byte[FRAME_HEADER_LENGTH + length](_ => 0);
    frame[0] := length / 0x100 / 0x100 / 0x100 % 0x100;
    frame[1] := length / 0x100 / 0x100 % 0x100;
    frame[2] := length / 0x100 % 0x100;
    frame[3] := length % 0x100;
    assert frame[..FRAME_HEADER_LENGTH] == HeaderOf(length);
    CopyInto(frame, FRAME_HEADER_LENGTH, payload);
    assert frame[..] == Encode(payload);
    r := Ok(frame[..]);
  }

  method CopyInto(target: array<byte>, at: nat, source: Bytes)
    requires at + |source| <= target.Length
    modifies target
    ensures target[..] == old(target[..at]) + source + old(target[at + |source|..])
  {
    forall i | 0 <= i < |source| {
      target[at + i] := source[i];
    }
  }

  function Min(a: nat, b: nat): nat {
    if a < b then a else b
  }

  /** The contents of the payload blocks, one after the other. */
  ghost function Flatten(blocks: seq<array<byte>>): Bytes
    reads set b | b in blocks
  {
    if blocks == [] then [] else Flatten(blocks[..|blocks| - 1]) + blocks[|blocks| - 1][..]
  }

  method JoinBlocks(blocks: seq<array<byte>>, length: nat) returns (payload: array<byte>)
    requires |Flatten(blocks)| == length
    ensures fresh(payload) && payload[..] == Flatten(blocks)
  {
    payload := new byte[length](_ => 0);
    var offset := 0;
    assert blocks[..|blocks|] == blocks;
    for i := 0 to |blocks|
      invariant offset == |Flatten(blocks[..i])| <= length
      invariant payload[..offset] == Flatten(blocks[..i])
    {
      assert blocks[..i + 1][..i] == blocks[..i];
      FlattenPrefixFits(blocks, i + 1);
      CopyInto(payload, offset, blocks[i][..]);
      offset := offset + blocks[i].Length;
    }
  }

  lemma {:induction false} FlattenPrefixFits(blocks: seq<array<byte>>, n: nat)
    requires n <= |blocks|
    ensures |Flatten(blocks[..n])| <= |Flatten(blocks)|
    decreases |blocks|
  {
    if n < |blocks| {
      FlattenPrefixFits(blocks[..|blocks| - 1], n);
      assert blocks[..|blocks| - 1][..n] == blocks[..n];
    } else {
      assert blocks[..n] == blocks;
    }
  }

  datatype DecoderState = OpenState | EndedState | FailedState

  /** What the header phase found. */
  datatype FrameStart = Unfinished | Empty | Started | LimitExceeded(length: nat)

  /** What one turn of the decoding loop produced. */
  datatype Turn = NoFrame | Frame(payload: Bytes) | Refused(length: nat)

  lemma PrependTwice(frames: seq<Bytes>, frame: Bytes, parsed: Parsed)
    ensures Prepend(frames, Prepend([frame], parsed)) == Prepend(frames + [frame], parsed)
  {
    assert frames + ([frame] + parsed.frames) == (frames + [frame]) + parsed.frames;
  }

  lemma FlattenNone()
    ensures Flatten([]) == []
  {
  }

  lemma FlattenAppend(blocks: seq<array<byte>>, block: array<byte>)
    ensures Flatten(blocks + [block]) == Flatten(blocks) + block[..]
  {
    assert (blocks + [block])[..|blocks|] == blocks;
  }

  class FrameDecoder {
    const header: array<byte>
    const maxFrameLength: nat
    var headerLength: nat
    var payloadBlocks: seq<array<byte>>
    var currentPayloadBlock: array?<byte>
    var currentPayloadBlockLength: nat
    var expectedPayloadLength: Option<nat>
    var payloadLength: nat
    var state: DecoderState
    /** The bytes received since the last whole frame. */
    ghost var unread: Bytes

    /** The blocks before the current one, all of them full. */
    ghost function FullBlocks(): seq<array<byte>>
      reads this
    {
      if payloadBlocks == [] then [] else payloadBlocks[..|payloadBlocks| - 1]
    }

    /** The block being filled: the only one a push may write to, apart from those it allocates. */
    ghost function Current(): set<object>
      reads this
    {
      if currentPayloadBlock == null then {} else {currentPayloadBlock}
    }

    /** While a payload is awaited: the header is kept, the blocks before the current one are full, and together with
        the filled part of the current one they hold what was received. */
    ghost predicate Receiving()
      reads this, header, payloadBlocks
    {
      && expectedPayloadLength.Some?
      && headerLength == 0 && header.Length == FRAME_HEADER_LENGTH
      && 0 < expectedPayloadLength.value <= maxFrameLength
      && HeaderValue(header[..]) == expectedPayloadLength.value
      && payloadLength <= expectedPayloadLength.value
      && |unread| == FRAME_HEADER_LENGTH + payloadLength
      && unread[..FRAME_HEADER_LENGTH] == header[..]
      && if payloadBlocks == [] then
           currentPayloadBlock == null && payloadLength == currentPayloadBlockLength == 0
         else
           && currentPayloadBlock == payloadBlocks[|payloadBlocks| - 1]
           && currentPayloadBlock !in FullBlocks()
           && 0 < currentPayloadBlock.Length <= PAYLOAD_BLOCK_SIZE
           && currentPayloadBlockLength <= currentPayloadBlock.Length
           && payloadLength + currentPayloadBlock.Length <= expectedPayloadLength.value + currentPayloadBlockLength
           && unread[FRAME_HEADER_LENGTH..]
              == Flatten(FullBlocks()) + currentPayloadBlock[..currentPayloadBlockLength]
    }

    /** Between frames: some header bytes at most, and no buffers. */
    ghost predicate BetweenFrames()
      reads this, header
    {
      && expectedPayloadLength.None?
      && headerLength < FRAME_HEADER_LENGTH == header.Length
      && unread == header[..headerLength]
      && payloadBlocks == [] && currentPayloadBlock == null
      && payloadLength == currentPayloadBlockLength == 0
    }

    ghost predicate Buffers()
      reads this, header, payloadBlocks
    {
      && header !in payloadBlocks
      && (BetweenFrames() || Receiving())
    }

    ghost predicate Valid()
      reads this, header, payloadBlocks
    {
      && Buffers()
      && (state != OpenState ==> BetweenFrames() && headerLength == 0)
      && (Receiving() ==> payloadLength < expectedPayloadLength.value)
      && (payloadBlocks != [] ==> 0 < currentPayloadBlockLength)
    }

    ghost function State(): Decoder
      reads this
    {
      match state
      case OpenState => Open(unread)
      case EndedState => Ended
      case FailedState => Failed
    }

    constructor (maxFrameLength: nat)
      ensures Valid() && fresh(header) && State() == Open([]) && this.maxFrameLength == maxFrameLength
    {
      header := new byte[FRAME_HEADER_LENGTH](_ => 0);
      this.maxFrameLength := maxFrameLength;
      headerLength, payloadLength, currentPayloadBlockLength := 0, 0, 0;
      payloadBlocks, currentPayloadBlock, expectedPayloadLength := [], null, None;
      state := OpenState;
      unread := [];
    }

    /** The fields encode exactly the unread bytes, which never hold a whole frame, and while a frame is being received
        less than one block more than the bytes received is allocated for it. */
    lemma FieldsEncodeUnread()
      requires Valid()
      ensures Incomplete(maxFrameLength, unread)
      ensures expectedPayloadLength.None? ==> unread == header[..headerLength]
      ensures expectedPayloadLength.Some? ==>
                && unread == header[..] + Flatten(payloadBlocks)[..payloadLength]
                && |Flatten(payloadBlocks)| < payloadLength + PAYLOAD_BLOCK_SIZE
    {
      if payloadBlocks != [] {
        FlattenAppend(FullBlocks(), currentPayloadBlock);
        assert payloadBlocks == FullBlocks() + [currentPayloadBlock];
      }
    }

    method Push(chunk: Bytes) returns (r: Result<seq<Bytes>>)
      requires Valid()
      modifies this, header, Current()
      ensures Valid() && fresh(Current() - old(Current()))
      ensures (r, State()) == Feed(maxFrameLength, old(State()), chunk)
    {
      hide Parse, Flatten, Buffers;
      if state == EndedState {
        return Err(DecoderHasEnded);
      }
      if state == FailedState {
        return Err(DecoderHasFailed);
      }
      r := Consume(chunk);
    }

    /** The loop in `Push`: it goes through the chunk for as long as there is some left. */
    method Consume(chunk: Bytes) returns (r: Result<seq<Bytes>>)
      requires Valid() && state == OpenState
      modifies this, header, Current()
      ensures Valid() && fresh(Current() - old(Current()))
      ensures (r, State()) == Feed(maxFrameLength, Open(old(unread)), chunk)
    {
      hide Parse, Flatten, Buffers, Receiving, BetweenFrames, HeaderValue;
      ghost var whole := Parse(maxFrameLength, unread + chunk);
      var frames: seq<Bytes> := [];
      var chunkOffset := 0;
      assert chunk[0..] == chunk;
      while chunkOffset < |chunk|
        invariant Valid() && state == OpenState && fresh(Current() - old(Current()))
        invariant chunkOffset <= |chunk|
        invariant Prepend(frames, Parse(maxFrameLength, unread + chunk[chunkOffset..])) == whole
      {
        var turn;
        chunkOffset, turn := Advance(chunk, chunkOffset);
        match turn
        case NoFrame =>
        case Frame(payload) =>
          PrependTwice(frames, payload, Parse(maxFrameLength, unread + chunk[chunkOffset..]));
          frames := frames + [payload];
        case Refused(frameLength) =>
          Fail();
          return Err(FrameTooLong(frameLength));
      }
      assert unread + chunk[chunkOffset..] == unread;
      FieldsEncodeUnread();
      assert frames + [] == frames;
      r := Ok(frames);
    }

    /** One turn of the loop in `Push`: the header phase when no payload is expected, then the payload phase. */
    method Advance(chunk: Bytes, chunkOffset: nat) returns (offset: nat, turn: Turn)
      requires Valid() && state == OpenState && chunkOffset < |chunk|
      modifies this, header, Current()
      ensures Valid() && state == OpenState && fresh(Current() - old(Current())) && chunkOffset < offset <= |chunk|
      ensures TurnIsRight(maxFrameLength, old(unread) + chunk[chunkOffset..], turn, unread + chunk[offset..])
    {
      hide Parse, Flatten;
      offset := chunkOffset;
      if expectedPayloadLength == None {
        var start;
        offset, start := StartFrame(chunk, offset);
        match start
        case Unfinished => return offset, NoFrame;
        case LimitExceeded(length) => return offset, Refused(length);
        case Empty => return offset, Frame([]);
        case Started =>
      }
      ghost var middle := unread;
      var next := TakePayload(chunk, offset);
      Adjacent(chunk, offset, next, |chunk|);
      Associative(middle, chunk[offset..next], chunk[next..]);
      offset := next;
      if payloadLength == expectedPayloadLength.value {
        ghost var received := unread;
        var payload := FinishPayload();
        ParseFrameBytes(maxFrameLength, received, chunk[offset..]);
        assert unread + chunk[offset..] == chunk[offset..];
        turn := Frame(payload);
      } else {
        turn := NoFrame;
      }
    }

    /** The header phase of one turn of the loop in `Push`. */
    method StartFrame(chunk: Bytes, chunkOffset: nat) returns (offset: nat, start: FrameStart)
      requires Valid() && state == OpenState && expectedPayloadLength.None? && chunkOffset < |chunk|
      modifies header, this`headerLength, this`expectedPayloadLength, this`payloadBlocks, this`currentPayloadBlock,
               this`currentPayloadBlockLength, this`payloadLength, this`unread
      ensures Valid() && chunkOffset < offset <= |chunk| && currentPayloadBlock == null
      ensures start.Started? <==> expectedPayloadLength.Some?
      ensures start.Started? ==> unread + chunk[offset..] == old(unread) + chunk[chunkOffset..]
      ensures !start.Started? ==>
                TurnIsRight(maxFrameLength, old(unread) + chunk[chunkOffset..],
                            match start
                            case LimitExceeded(length) => Refused(length)
                            case Empty => Frame([])
                            case _ => NoFrame,
                            unread + chunk[offset..])
    {
      hide Parse, Flatten;
      var headerBytes := Min(FRAME_HEADER_LENGTH - headerLength, |chunk| - chunkOffset);
      offset := chunkOffset + headerBytes;
      CopyInto(header, headerLength, chunk[chunkOffset..offset]);
      headerLength := headerLength + headerBytes;
      unread := unread + chunk[chunkOffset..offset];
      assert unread + chunk[offset..] == old(unread) + chunk[chunkOffset..];
      assert header[..headerLength] == unread;
      if headerLength < FRAME_HEADER_LENGTH {
        return offset, Unfinished;
      }
      assert header[..] == unread;
      var frameLength := HeaderValue(header[..]);
      ParseHeaderBytes(maxFrameLength, header[..], chunk[offset..]);
      headerLength := 0;
      if frameLength > maxFrameLength || frameLength == 0 {
        unread := [];
        assert unread + chunk[offset..] == chunk[offset..];
        start := if frameLength > maxFrameLength then LimitExceeded(frameLength) else Empty;
        return;
      }
      expectedPayloadLength := Some(frameLength);
      payloadBlocks, currentPayloadBlock, currentPayloadBlockLength, payloadLength := [], null, 0, 0;
      start := Started;
    }

    /** The payload phase: fill blocks from the chunk until the frame or the chunk is exhausted. */
    method TakePayload(chunk: Bytes, chunkOffset: nat) returns (offset: nat)
      requires Buffers() && Receiving() && chunkOffset <= |chunk| && payloadLength < expectedPayloadLength.value
      requires payloadBlocks != [] ==> 0 < currentPayloadBlockLength
      modifies this`payloadBlocks, this`currentPayloadBlock, this`currentPayloadBlockLength, this`payloadLength,
               this`unread, Current()
      ensures Buffers() && Receiving() && fresh(Current() - old(Current()))
      ensures payloadBlocks != [] ==> 0 < currentPayloadBlockLength
      ensures chunkOffset <= offset <= |chunk|
      ensures chunkOffset < |chunk| ==> chunkOffset < offset
      ensures unread == old(unread) + chunk[chunkOffset..offset]
    {
      offset := chunkOffset;
      while offset < |chunk| && payloadLength < expectedPayloadLength.value
        invariant Buffers() && Receiving() && fresh(Current() - old(Current()))
        invariant payloadBlocks != [] ==> 0 < currentPayloadBlockLength
        invariant chunkOffset <= offset <= |chunk|
        invariant unread == old(unread) + chunk[chunkOffset..offset]
      {
        var next := CopyPiece(chunk, offset);
        Associative(old(unread), chunk[chunkOffset..offset], chunk[offset..next]);
        Adjacent(chunk, chunkOffset, offset, next);
        offset := next;
      }
    }

    /** One turn of the filling loop. */
    method CopyPiece(chunk: Bytes, chunkOffset: nat) returns (offset: nat)
      requires Buffers() && Receiving() && chunkOffset < |chunk| && payloadLength < expectedPayloadLength.value
      modifies this`payloadBlocks, this`currentPayloadBlock, this`currentPayloadBlockLength, this`payloadLength,
               this`unread, Current()
      ensures Buffers() && Receiving() && fresh(Current() - old(Current()))
      ensures payloadBlocks != [] && 0 < currentPayloadBlockLength
      ensures chunkOffset < offset <= |chunk|
      ensures unread == old(unread) + chunk[chunkOffset..offset]
    {
      MakeRoom();
      var payloadBytes := Min(currentPayloadBlock.Length - currentPayloadBlockLength, |chunk| - chunkOffset);
      offset := chunkOffset + payloadBytes;
      WritePiece(chunk[chunkOffset..offset]);
    }

    /** Allocate the next block when there is none or the current one is full. */
    method MakeRoom()
      requires Buffers() && Receiving() && payloadLength < expectedPayloadLength.value
      modifies this`payloadBlocks, this`currentPayloadBlock, this`currentPayloadBlockLength
      ensures Buffers() && Receiving() && fresh(Current() - old(Current()))
      ensures payloadBlocks != [] && currentPayloadBlockLength < currentPayloadBlock.Length
    {
      hide Flatten, HeaderValue;
      if currentPayloadBlock == null || currentPayloadBlockLength == currentPayloadBlock.Length {
        ghost var received := unread[FRAME_HEADER_LENGTH..];
        if currentPayloadBlock != null {
          FlattenAppend(FullBlocks(), currentPayloadBlock);
          assert payloadBlocks == FullBlocks() + [currentPayloadBlock];
        }
        FlattenNone();
        assert Flatten(payloadBlocks) == received;
        var block := new byte[Min(PAYLOAD_BLOCK_SIZE, expectedPayloadLength.value - payloadLength)](_ => 0);
        assert Flatten(payloadBlocks) == received;
        ghost var earlier := payloadBlocks;
        payloadBlocks := payloadBlocks + [block];
        currentPayloadBlock, currentPayloadBlockLength := block, 0;
        assert FullBlocks() == earlier;
        assert received + block[..0] == received;
      }
    }

    /** Write a piece into the current block, which has room for it. */
    method WritePiece(piece: Bytes)
      requires Buffers() && Receiving() && payloadBlocks != [] && 0 < |piece|
      requires currentPayloadBlockLength + |piece| <= currentPayloadBlock.Length
      modifies this`currentPayloadBlockLength, this`payloadLength, this`unread, currentPayloadBlock
      ensures Buffers() && Receiving() && 0 < currentPayloadBlockLength
      ensures unread == old(unread) + piece
    {
      ghost var full := Flatten(FullBlocks());
      var block, filled := currentPayloadBlock, currentPayloadBlockLength;
      ghost var before := block[..filled];
      CopyInto(block, filled, piece);
      currentPayloadBlockLength := filled + |piece|;
      payloadLength := payloadLength + |piece|;
      unread := unread + piece;
      assert Flatten(FullBlocks()) == full;
      assert block[..currentPayloadBlockLength] == before + piece;
      assert unread[FRAME_HEADER_LENGTH..] == (full + before) + piece;
    }

    /** Hand over the completed payload and reset the payload buffers. */
    method FinishPayload() returns (payload: Bytes)
      requires Buffers() && Receiving() && payloadLength == expectedPayloadLength.value
      modifies this`payloadBlocks, this`currentPayloadBlock, this`currentPayloadBlockLength, this`payloadLength,
               this`expectedPayloadLength, this`unread
      ensures Buffers() && BetweenFrames() && unread == []
      ensures payload == old(unread)[FRAME_HEADER_LENGTH..]
    {
      hide Flatten, HeaderValue;
      assert payloadBlocks == FullBlocks() + [currentPayloadBlock];
      FlattenAppend(FullBlocks(), currentPayloadBlock);
      assert currentPayloadBlock[..currentPayloadBlockLength] == currentPayloadBlock[..];
      assert Flatten(payloadBlocks) == unread[FRAME_HEADER_LENGTH..];
      if |payloadBlocks| == 1 {
        payload := payloadBlocks[0][..];
        assert FullBlocks() == [];
        FlattenNone();
      } else {
        var joined := JoinBlocks(payloadBlocks, payloadLength);
        payload := joined[..];
      }
      payloadBlocks, currentPayloadBlock, currentPayloadBlockLength := [], null, 0;
      expectedPayloadLength, payloadLength := None, 0;
      unread := [];
    }

    method End() returns (r: Result<()>)
      requires Valid()
      modifies this
      ensures Valid() && (r, State()) == Finish(old(State()))
    {
      if state == EndedState {
        return Err(DecoderHasEnded);
      }
      if state == FailedState {
        return Err(DecoderHasFailed);
      }
      if headerLength != 0 || expectedPayloadLength != None {
        Fail();
        return Err(TruncatedFrame);
      }
      state := EndedState;
      r := Ok(());
    }

    method Fail()
      requires Buffers()
      modifies this
      ensures Valid() && State() == Failed && currentPayloadBlock == null
    {
      state := FailedState;
      headerLength := 0;
      payloadBlocks, currentPayloadBlock, currentPayloadBlockLength := [], null, 0;
      expectedPayloadLength, payloadLength := None, 0;
      unread := [];
    }
  }

  /** A turn that started from the bytes `before` and left `after` agrees with the reference reading. */
  ghost predicate TurnIsRight(max: nat, before: Bytes, turn: Turn, after: Bytes) {
    match turn
    case NoFrame => after == before
    case Frame(payload) => Parse(max, before) == Prepend([payload], Parse(max, after))
    case Refused(length) => Parse(max, before) == Parsed([], Overlong(length))
  }

  lemma ParseHeaderBytes(max: nat, header: Bytes, after: Bytes)
    requires |header| == FRAME_HEADER_LENGTH
    ensures HeaderValue(header) > max ==> Parse(max, header + after) == Parsed([], Overlong(HeaderValue(header)))
    ensures HeaderValue(header) == 0 ==> Parse(max, header + after) == Prepend([[]], Parse(max, after))
  {
    assert (header + after)[..FRAME_HEADER_LENGTH] == header && (header + after)[FRAME_HEADER_LENGTH..] == after;
    assert after[..0] == [] && after[0..] == after;
  }

  lemma ParseFrameBytes(max: nat, frame: Bytes, after: Bytes)
    requires |frame| >= FRAME_HEADER_LENGTH
    requires HeaderValue(frame[..FRAME_HEADER_LENGTH]) == |frame| - FRAME_HEADER_LENGTH <= max
    ensures Parse(max, frame + after) == Prepend([frame[FRAME_HEADER_LENGTH..]], Parse(max, after))
  {
    var payload := frame[FRAME_HEADER_LENGTH..];
    assert (frame + after)[..FRAME_HEADER_LENGTH] == frame[..FRAME_HEADER_LENGTH];
    assert (frame + after)[FRAME_HEADER_LENGTH..] == payload + after;
    assert (payload + after)[..|payload|] == payload && (payload + after)[|payload|..] == after;
  }

  /** The constructor's limit check: absent means the default, anything outside the unsigned range is refused. */
  method CreateDecoder(maxFrameLength: Option<int>) returns (r: Result<FrameDecoder>)
    ensures r.Ok? <==> maxFrameLength.None? || 0 <= maxFrameLength.value <= MAX_UINT32
    ensures r.Ok? ==> fresh(r.value) && fresh(r.value.header) && r.value.Valid() && r.value.State() == Open([])
    ensures r.Ok? ==> r.value.maxFrameLength ==
                      if maxFrameLength.None? then DEFAULT_MAX_FRAME_LENGTH else maxFrameLength.value
  {
    var value := if maxFrameLength.None? then DEFAULT_MAX_FRAME_LENGTH else maxFrameLength.value;
    if value < 0 || value > MAX_UINT32 {
      return Err(BadLimit);
    }
    var decoder := new FrameDecoder(value);
    r := Ok(decoder);
  }
}
