/** Well-formed UTF-8 (RFC 3629, section 4), the test behind Rust's `from_utf8`. */
module Utf8 {
  import opened Bytes

  predicate Continuation(b: byte) {
    0x80 <= b <= 0xBF
  }

  /** The number of bytes of the character at the head of `s`, or 0 when it is malformed. */
  function CharLength(s: bytes): nat
    requires s != []
  {
    var b := s[0];
    if b <= 0x7F then 1
    else if |s| >= 2 && 0xC2 <= b <= 0xDF && Continuation(s[1]) then 2
    else if |s| >= 3 && 0xE0 <= b <= 0xEF && Continuation(s[1]) && Continuation(s[2])
            && (b == 0xE0 ==> 0xA0 <= s[1]) && (b == 0xED ==> s[1] <= 0x9F) then 3
    else if |s| >= 4 && 0xF0 <= b <= 0xF4 && Continuation(s[1]) && Continuation(s[2]) && Continuation(s[3])
            && (b == 0xF0 ==> 0x90 <= s[1]) && (b == 0xF4 ==> s[1] <= 0x8F) then 4
    else 0
  }

  predicate Valid(s: bytes) {
    s == [] || (CharLength(s) > 0 && Valid(s[CharLength(s)..]))
  }

  lemma {:induction false} AsciiIsValid(s: bytes)
    requires forall i :: 0 <= i < |s| ==> s[i] < 0x80
    ensures Valid(s)
  {
    if s != [] {
      AsciiIsValid(s[1..]);
    }
  }
}

/** The hand-written codec of examples/custom_serialization.rs, a concrete instance of the codec contract. */
module ManualCodec {
  import opened Bytes
  import opened Framing
  import Utf8

  type u32 = n: nat | n < U32_RANGE

  /** The two floats are their four-byte bit patterns; the name is the bytes of a Rust `String`. */
  datatype ManualMessage = ManualMessage(playerId: u32, x: u32, y: u32, health: byte, name: bytes)

  const HEADER: nat := 17

  function ManualBytes(msg: ManualMessage): bytes {
    LE32(msg.playerId) + LE32(msg.x) + LE32(msg.y) + [msg.health] + LE32(AsU32(|msg.name|)) + msg.name
  }

  /** `serialize_manual_message`: only appends to the buffer it is given. */
  method SerializeManualMessage(msg: ManualMessage, initial: bytes) returns (buf: bytes)
    ensures buf == initial + ManualBytes(msg)
  {
    buf := initial;
    buf := buf + LE32(msg.playerId);
    buf := buf + LE32(msg.x);
    buf := buf + LE32(msg.y);
    buf := buf + [msg.health];
    buf := buf + LE32(AsU32(|msg.name|));
    buf := buf + msg.name;
    assert buf == initial + ManualBytes(msg);
  }

  /** `deserialize_manual_message`. */
  function DeserializeManualMessage(data: bytes): Result<ManualMessage, Error> {
    if |data| < HEADER then Err(MalformedData)
    else
      var nameLen := FromLE32(data[13..17]);
      if HEADER + nameLen > |data| then Err(MalformedData)
      else if !Utf8.Valid(data[17..17 + nameLen]) then Err(MalformedData)
      else
        Ok(ManualMessage(FromLE32(data[0..4]), FromLE32(data[4..8]), FromLE32(data[8..12]), data[12],
                         data[17..17 + nameLen]))
  }

  /** What the encoding announces, field by field; the name length only modulo 2^32. */
  lemma ManualFields(msg: ManualMessage, rest: bytes)
    ensures var data := ManualBytes(msg) + rest;
            && |data| == HEADER + |msg.name| + |rest| && data[17..] == msg.name + rest && data[12] == msg.health
            && FromLE32(data[0..4]) == msg.playerId && FromLE32(data[4..8]) == msg.x
            && FromLE32(data[8..12]) == msg.y && FromLE32(data[13..17]) == AsU32(|msg.name|)
  {
    var data := ManualBytes(msg) + rest;
    assert data[17..] == msg.name + rest;
    assert data[0..4] == LE32(msg.playerId) by { hide FromLE32, LE32; }
    assert data[4..8] == LE32(msg.x);
    assert data[8..12] == LE32(msg.y);
    assert data[13..17] == LE32(AsU32(|msg.name|));
    LittleEndianInverse(msg.playerId);
    LittleEndianInverse(msg.x);
    LittleEndianInverse(msg.y);
    LittleEndianInverse(AsU32(|msg.name|));
  }

  /** Decoding undoes encoding, trailing bytes or not, exactly when the name is well-formed and its length
      survives the 32-bit prefix: a longer name comes back cut short or not at all. */
  lemma ManualRoundTrip(msg: ManualMessage, rest: bytes)
    ensures DeserializeManualMessage(ManualBytes(msg) + rest) == Ok(msg)
            <==> Utf8.Valid(msg.name) && |msg.name| < U32_RANGE
  {
    hide FromLE32, LE32, Utf8.Valid, ManualBytes;
    var data := ManualBytes(msg) + rest;
    ManualFields(msg, rest);
    if |msg.name| < U32_RANGE {
      assert data[17..17 + |msg.name|] == data[17..][..|msg.name|] == msg.name;
    }
  }

  type SendableMessage = m: ManualMessage | Utf8.Valid(m.name) && |m.name| < U32_RANGE
    witness ManualMessage(0, 0, 0, 0, [])

  datatype EmptyContext = EmptyContext

  /** The id "ManualMessage". */
  const MANUAL_ID: bytes := [77, 97, 110, 117, 97, 108, 77, 101, 115, 115, 97, 103, 101]

  function DeserializeSendable(data: bytes): Result<SendableMessage, Error> {
    match DeserializeManualMessage(data)
    case Err(e) => Err(e)
    case Ok(m) => Ok(m)
  }

  function ManualWire(): Wire<SendableMessage, EmptyContext> {
    Wire(ctx => [], buf => Ok((EmptyContext, 0)), msg => MANUAL_ID, Utf8.Valid,
         map[MANUAL_ID := CodecPair((m: SendableMessage) => ManualBytes(m), DeserializeSendable)])
  }

  lemma SendableRoundTrip(m: SendableMessage)
    ensures DeserializeSendable(ManualBytes(m)) == Ok(m)
  {
    hide FromLE32, LE32, Utf8.Valid, ManualBytes, DeserializeManualMessage;
    ManualRoundTrip(m, []);
    assert ManualBytes(m) + [] == ManualBytes(m);
  }

  lemma ManualIdIsValid()
    ensures Utf8.Valid(MANUAL_ID)
  {
    hide Utf8.Valid;
    Utf8.AsciiIsValid(MANUAL_ID);
  }

  lemma EmptyContextDelimitsItself(c: EmptyContext, rest: bytes)
    ensures ManualWire().deserializeContext(ManualWire().serializeContext(c) + rest)
            == Ok((c, |ManualWire().serializeContext(c)|))
  {
    assert c == EmptyContext;
  }

  /** The hand-written codec with the empty context meets the contract the framing theorems assume. */
  lemma ManualWireIsLawful()
    ensures Lawful(ManualWire())
  {
    hide FromLE32, LE32, Utf8.Valid, ManualBytes, DeserializeManualMessage, DeserializeSendable, MANUAL_ID;
    var w := ManualWire();
    assert w.Safe();
    ManualIdIsValid();
    forall c: EmptyContext, rest: bytes
      ensures w.deserializeContext(w.serializeContext(c) + rest) == Ok((c, |w.serializeContext(c)|))
    {
      EmptyContextDelimitsItself(c, rest);
    }
    forall m: SendableMessage
      ensures w.isUtf8(w.messageId(m))
      ensures w.registry[w.messageId(m)].deserializer(w.registry[w.messageId(m)].serializer(m)) == Ok(m)
    {
      SendableRoundTrip(m);
    }
  }
}
