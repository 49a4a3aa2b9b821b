/**
 The length-prefixed frame of src/messenger/message.rs: a 4-byte little-endian payload length, then the
 context, the length-prefixed message id and the message body. Codecs and the context are parameters.
 */
module Framing {
  import opened Bytes

  const FRAME_SIZE_BYTES: nat := 4

  datatype Error = MalformedData | UnknownMessageId(id: bytes)

  datatype CodecPair<!M> = CodecPair(serializer: M -> bytes, deserializer: bytes -> Result<M, Error>)

  /** Everything the framing layer is given: the context codec, the id of a message (as UTF-8 bytes),
      the UTF-8 test, and the registry. */
  datatype Wire<!M, !C> = Wire(
    serializeContext: C -> bytes,
    deserializeContext: bytes -> Result<(C, nat), Error>,
    messageId: M -> bytes,
    isUtf8: bytes -> bool,
    registry: map<bytes, CodecPair<M>>)
  {
    predicate Registered(msg: M) {
      messageId(msg) in registry
    }

    /** A context deserializer reports no more bytes than it was given (slicing past the payload panics). */
    ghost predicate Safe() {
      forall buf :: deserializeContext(buf).Ok? ==> deserializeContext(buf).value.1 <= |buf|
    }
  }

  /** The contract of the codecs: decoding undoes encoding, and a context delimits itself. */
  ghost predicate Lawful<M(!new), C(!new)>(w: Wire<M, C>) {
    && w.Safe()
    && (forall c, rest :: w.deserializeContext(w.serializeContext(c) + rest) == Ok((c, |w.serializeContext(c)|)))
    && (forall m :: w.Registered(m) ==> w.isUtf8(w.messageId(m)))
    && (forall m :: w.Registered(m) ==>
          w.registry[w.messageId(m)].deserializer(w.registry[w.messageId(m)].serializer(m)) == Ok(m))
  }

  // ---------------------------------------------------------------------------
  // Encoding
  // ---------------------------------------------------------------------------

  function Payload<M, C>(w: Wire<M, C>, msg: M, ctx: C): bytes
    requires w.Registered(msg)
  {
    var id := w.messageId(msg);
    w.serializeContext(ctx) + LE32(AsU32(|id|)) + id + w.registry[id].serializer(msg)
  }

  function Frame<M, C>(w: Wire<M, C>, msg: M, ctx: C): bytes
    requires w.Registered(msg)
  {
    LE32(AsU32(|Payload(w, msg, ctx)|)) + Payload(w, msg, ctx)
  }

  /** `serialize_message`: reserve the prefix, append the parts, then overwrite the prefix in place.
      The precondition is the source's `expect("Message not registered")`. */
  method SerializeMessage<M, C>(w: Wire<M, C>, msg: M, ctx: C) returns (buf: bytes)
    requires w.Registered(msg)
    ensures buf == Frame(w, msg, ctx)
  {
    var msgId := w.messageId(msg);
    var codec := w.registry[msgId];
    buf := seq(FRAME_SIZE_BYTES, i => 0);
    buf := buf + w.serializeContext(ctx);
    buf := buf + LE32(AsU32(|msgId|));
    buf := buf + msgId;
    buf := buf + codec.serializer(msg);
    assert buf[FRAME_SIZE_BYTES..] == Payload(w, msg, ctx);
    var prefix := LE32(AsU32(|buf| - FRAME_SIZE_BYTES));
    ghost var payload := buf[FRAME_SIZE_BYTES..];
    for i := 0 to FRAME_SIZE_BYTES
      invariant |buf| == FRAME_SIZE_BYTES + |payload|
      invariant buf[..i] == prefix[..i]
      invariant buf[FRAME_SIZE_BYTES..] == payload
    {
      assert prefix[..i + 1] == prefix[..i] + [prefix[i]];
      buf := buf[i := prefix[i]];
      assert buf[..i + 1] == buf[..i] + [prefix[i]];
    }
    assert buf == buf[..FRAME_SIZE_BYTES] + buf[FRAME_SIZE_BYTES..];
  }

  /** The layout of a frame: four bytes of payload length modulo 2^32, the context, four bytes of id length, the
      id and the body, and nothing else. */
  lemma FrameLayout<M, C>(w: Wire<M, C>, msg: M, ctx: C)
    requires w.Registered(msg)
    ensures var (f, c, id) := (Frame(w, msg, ctx), w.serializeContext(ctx), w.messageId(msg));
            var body := w.registry[id].serializer(msg);
            && |f| == 8 + |c| + |id| + |body|
            && FromLE32(f[..4]) == (|f| - 4) % 0x1_0000_0000
            && f[4..4 + |c|] == c
            && FromLE32(f[4 + |c|..8 + |c|]) == |id| % 0x1_0000_0000
            && f[8 + |c|..8 + |c| + |id|] == id
            && f[8 + |c| + |id|..] == body
  {
    var (f, c, id) := (Frame(w, msg, ctx), w.serializeContext(ctx), w.messageId(msg));
    var body := w.registry[id].serializer(msg);
    var (size, idSize) := (LE32(AsU32(|Payload(w, msg, ctx)|)), LE32(AsU32(|id|)));
    LittleEndianInverse(AsU32(|Payload(w, msg, ctx)|));
    LittleEndianInverse(AsU32(|id|));
    hide LE32, FromLE32;
    assert f == size + c + idSize + id + body;
    assert f[..4] == size && f[4 + |c|..8 + |c|] == idSize;
  }

  // ---------------------------------------------------------------------------
  // Decoding
  // ---------------------------------------------------------------------------

  datatype Decode<+M, +C> = NeedMore | Bad(error: Error) | Decoded(msg: M, ctx: C, size: nat)

  /** The frame size announced by the first four bytes. */
  function FrameSize(buf: bytes): nat
    requires FRAME_SIZE_BYTES <= |buf|
  {
    FRAME_SIZE_BYTES + FromLE32(buf[..4])
  }

  predicate Complete(buf: bytes) {
    FRAME_SIZE_BYTES <= |buf| && FrameSize(buf) <= |buf|
  }

  /** What follows once the whole frame is there. An inner id that does not fit is reported as "need more". */
  function DecodePayload<M, C>(w: Wire<M, C>, payload: bytes): Decode<M, C>
    requires w.Safe()
  {
    match w.deserializeContext(payload)
    case Err(e) => Bad(e)
    case Ok((ctx, ctxBytes)) =>
      var remaining := payload[ctxBytes..];
      if |remaining| < 4 then NeedMore
      else
        var idLen := FromLE32(remaining[..4]);
        if |remaining| < 4 + idLen then NeedMore
        else
          var msgId := remaining[4..4 + idLen];
          if !w.isUtf8(msgId) then Bad(MalformedData)
          else if msgId !in w.registry then Bad(UnknownMessageId(msgId))
          else
            match w.registry[msgId].deserializer(remaining[4 + idLen..])
            case Err(e) => Bad(e)
            case Ok(msg) => Decoded(msg, ctx, FRAME_SIZE_BYTES + |payload|)
  }

  /** `deserialize_message`. */
  function DeserializeMessage<M, C>(w: Wire<M, C>, buf: bytes): (r: Decode<M, C>)
    requires w.Safe()
    ensures !r.NeedMore? ==> Complete(buf)
    ensures r.Decoded? ==> r.size == FrameSize(buf)
  {
    if Complete(buf) then DecodePayload(w, buf[FRAME_SIZE_BYTES..FrameSize(buf)]) else NeedMore
  }

  // ---------------------------------------------------------------------------
  // Properties
  // ---------------------------------------------------------------------------

  /** Bytes appended after a complete frame do not change what it decodes to. So a decoded frame and an
      error are final, and a complete frame that still answers "need more" answers so forever. */
  lemma CompleteFrameIsFinal<M, C>(w: Wire<M, C>, buf: bytes, more: bytes)
    requires w.Safe() && Complete(buf)
    ensures Complete(buf + more)
    ensures DeserializeMessage(w, buf + more) == DeserializeMessage(w, buf)
  {
    assert (buf + more)[..4] == buf[..4];
    assert (buf + more)[4..FrameSize(buf)] == buf[4..FrameSize(buf)];
  }

  lemma DecodedPayload<M(!new), C(!new)>(w: Wire<M, C>, msg: M, ctx: C)
    requires Lawful(w) && w.Registered(msg) && |Payload(w, msg, ctx)| < U32_RANGE
    ensures DecodePayload(w, Payload(w, msg, ctx)) == Decoded(msg, ctx, |Frame(w, msg, ctx)|)
  {
    hide LE32, FromLE32;
    var id := w.messageId(msg);
    var (c, n, body) := (w.serializeContext(ctx), LE32(AsU32(|id|)), w.registry[id].serializer(msg));
    var payload := Payload(w, msg, ctx);
    assert payload == c + (n + id + body);
    assert payload[|c|..] == n + id + body;
    assert (n + id + body)[..4] == n;
    assert (n + id + body)[4..4 + |id|] == id;
    assert (n + id + body)[4 + |id|..] == body;
    LittleEndianInverse(|id|);
  }

  /** What a complete frame decodes to, whoever made it: a context that does not decode, an id that is no UTF-8, an
      unknown id and a body that does not decode are each rejected with their own error, checked in this order. */
  lemma CompleteFrameDecodes<M, C>(w: Wire<M, C>, context: bytes, id: bytes, body: bytes, rest: bytes)
    requires w.Safe() && |context| + 4 + |id| + |body| < U32_RANGE
    ensures var payload := context + LE32(|id|) + id + body;
            var r := DeserializeMessage(w, LE32(|payload|) + payload + rest);
            var decoded := w.deserializeContext(payload);
            && (decoded.Err? ==> r == Bad(decoded.error))
            && (decoded.Ok? && decoded.value.1 == |context| ==>
                  if !w.isUtf8(id) then r == Bad(MalformedData)
                  else if id !in w.registry then r == Bad(UnknownMessageId(id))
                  else
                    var msg := w.registry[id].deserializer(body);
                    if msg.Err? then r == Bad(msg.error)
                    else r == Decoded(msg.value, decoded.value.0, 8 + |context| + |id| + |body|))
  {
    var payload := context + LE32(|id|) + id + body;
    var buf := LE32(|payload|) + payload + rest;
    hide LE32, FromLE32;
    LittleEndianInverse(|id|);
    LittleEndianInverse(|payload|);
    assert buf[..4] == LE32(|payload|) && buf[4..FrameSize(buf)] == payload;
    assert payload[|context|..] == LE32(|id|) + id + body;
    assert (LE32(|id|) + id + body)[..4] == LE32(|id|);
    assert (LE32(|id|) + id + body)[4..4 + |id|] == id;
    assert (LE32(|id|) + id + body)[4 + |id|..] == body;
  }

  /** Round trip with trailing bytes, exactly when the payload length survives the 32-bit prefix. */
  lemma FramingRoundTrip<M(!new), C(!new)>(w: Wire<M, C>, msg: M, ctx: C, rest: bytes)
    requires Lawful(w) && w.Registered(msg)
    ensures DeserializeMessage(w, Frame(w, msg, ctx) + rest) == Decoded(msg, ctx, |Frame(w, msg, ctx)|)
            <==> |Payload(w, msg, ctx)| < U32_RANGE
  {
    hide LE32, FromLE32, DecodePayload, Payload;
    var payload := Payload(w, msg, ctx);
    var buf := Frame(w, msg, ctx) + rest;
    assert buf[..4] == LE32(AsU32(|payload|));
    LittleEndianInverse(AsU32(|payload|));
    if |payload| < U32_RANGE {
      assert buf[4..FrameSize(buf)] == payload;
      DecodedPayload(w, msg, ctx);
    }
  }

  /** Every strict prefix of a frame asks for more data. */
  lemma StrictPrefixNeedsMore<M, C>(w: Wire<M, C>, msg: M, ctx: C, n: nat)
    requires w.Safe() && w.Registered(msg) && |Payload(w, msg, ctx)| < U32_RANGE
    requires n < |Frame(w, msg, ctx)|
    ensures !Complete(Frame(w, msg, ctx)[..n])
    ensures DeserializeMessage(w, Frame(w, msg, ctx)[..n]) == NeedMore
  {
    hide LE32, FromLE32, DecodePayload, Payload;
    var payload := Payload(w, msg, ctx);
    if 4 <= n {
      assert Frame(w, msg, ctx)[..n][..4] == LE32(AsU32(|payload|));
      LittleEndianInverse(|payload|);
    }
  }

  /** A complete frame whose context decodes and leaves no room for the length-prefixed id it announces. */
  predicate Truncated<M, C>(w: Wire<M, C>, buf: bytes)
    requires w.Safe()
  {
    && Complete(buf)
    && var payload := buf[FRAME_SIZE_BYTES..FrameSize(buf)];
       var context := w.deserializeContext(payload);
       && context.Ok?
       && var rest := payload[context.value.1..];
          |rest| < 4 || |rest| < 4 + FromLE32(rest[..4])
  }

  /** Exactly when "need more data" is said: the frame is not there yet, or it is there and its id is cut short.
      Every other complete frame is decoded or rejected. */
  lemma NeedMoreIff<M, C>(w: Wire<M, C>, buf: bytes)
    requires w.Safe()
    ensures DeserializeMessage(w, buf).NeedMore? <==> !Complete(buf) || Truncated(w, buf)
  {
    hide FromLE32;
  }

  /** The stall: a complete frame whose inner id is truncated is neither decoded nor rejected, whatever
      arrives later. */
  lemma TruncatedStalls<M, C>(w: Wire<M, C>, buf: bytes, more: bytes)
    requires w.Safe() && Truncated(w, buf)
    ensures DeserializeMessage(w, buf + more) == NeedMore && Truncated(w, buf + more)
  {
    hide FromLE32;
    NeedMoreIff(w, buf);
    CompleteFrameIsFinal(w, buf, more);
    NeedMoreIff(w, buf + more);
  }

  /** With an empty context it takes eight bytes: an announced payload of four, which announces a one-byte id. */
  lemma TruncatedIdStalls<M, C>(w: Wire<M, C>, more: bytes)
    requires w.Safe()
    requires forall buf :: w.deserializeContext(buf).Ok? && w.deserializeContext(buf).value.1 == 0
    ensures Truncated(w, LE32(4) + LE32(1)) && DeserializeMessage(w, LE32(4) + LE32(1) + more) == NeedMore
  {
    LittleEndianInverse(4);
    LittleEndianInverse(1);
    var buf := LE32(4) + LE32(1);
    assert buf[..4] == LE32(4);
    assert buf[4..8] == LE32(1) && buf[4..8][0..] == LE32(1);
    assert buf[4..8][..4] == LE32(1);
    assert Truncated(w, buf);
    TruncatedStalls(w, buf, more);
  }
}
