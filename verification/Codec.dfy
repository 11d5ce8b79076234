/** Packet serialisation (src/codec.cpp): what each packet looks like, and the decoders.
    Encoder.dfy holds the routines that write these packets into a buffer. */
module Codec {
  import opened Types
  import opened Packet
  import opened Utf8

  //
  // Fields
  //

  function U16(n: u16): (r: bytes)
    ensures |r| == 2
  {
    [n / 256, n % 256]
  }

  function ReadU16(hi: byte, lo: byte): u16 { hi * 256 + lo }

  lemma U16RoundTrip(n: u16)
    ensures ReadU16(U16(n)[0], U16(n)[1]) == n
  {
  }

  /** A length-prefixed field, UTF-8 or binary. */
  function Field(s: bytes): bytes
    requires |s| <= MAX_STRING_LEN
  {
    U16(|s|) + s
  }

  predicate IsString(s: bytes) { Decode(s).Some? }

  //
  // Whole packets
  //

  /** A packet: header byte, remaining length, body. */
  function PacketBytes(h: FixedHeader, body: bytes): bytes
  {
    [ToByte(h)] + VbiBytes(|body|) + body
  }

  function PacketSize(remaining: nat): nat { 1 + VbiSize(remaining) + remaining }

  lemma PacketBytesLength(h: FixedHeader, body: bytes)
    requires |body| <= MAX_REMAINING_LENGTH
    ensures |PacketBytes(h, body)| == PacketSize(|body|)
  {
    VbiBytesLength(|body|);
  }

  function Plain(t: PacketType): FixedHeader { FixedHeader(t, false, AT_MOST_ONCE, false, 0) }

  /** PUBACK, PUBREC, PUBREL, PUBCOMP. */
  function AckBytes(t: PacketType, id: u16): bytes { PacketBytes(Plain(t), U16(id)) }

  /** PINGREQ, DISCONNECT. */
  function EmptyBytes(t: PacketType): bytes { PacketBytes(Plain(t), []) }

  function PublishBody(topic: bytes, payload: bytes, qos: QoS, id: u16): bytes
    requires |topic| <= MAX_STRING_LEN
  {
    Field(topic) + (if qos != AT_MOST_ONCE then U16(id) else []) + payload
  }

  function PublishHeader(qos: QoS, retain: bool, dup: bool): FixedHeader { FixedHeader(Publish, dup, qos, retain, 0) }

  function PublishBytes(topic: bytes, payload: bytes, qos: QoS, retain: bool, dup: bool, id: u16): bytes
    requires |topic| <= MAX_STRING_LEN
  {
    PacketBytes(PublishHeader(qos, retain, dup), PublishBody(topic, payload, qos, id))
  }

  /** What publish_remaining_length computes, with the error it reports for each kind of argument. */
  function PublishRemaining(topic: bytes, payloadLen: nat, qos: QoS): Result<nat>
  {
    if topic == [] || |topic| > MAX_STRING_LEN || !ValidQos(qos) || !IsString(topic) then Failure(InvalidArgument)
    else
      var total := 2 + |topic| + (if qos != AT_MOST_ONCE then 2 else 0) + payloadLen;
      if total > MAX_REMAINING_LENGTH then Failure(PayloadTooLarge) else Success(total)
  }

  /** The arguments that encode_publish accepts. */
  predicate PublishArgsOk(topic: bytes, payload: bytes, qos: QoS, dup: bool, id: u16)
  {
    && (qos != AT_MOST_ONCE ==> id != 0) && (qos == AT_MOST_ONCE ==> !dup)
    && PublishRemaining(topic, |payload|, qos).Success?
  }

  lemma PublishRemainingIsBodyLength(topic: bytes, payload: bytes, qos: QoS, id: u16)
    requires PublishRemaining(topic, |payload|, qos).Success?
    ensures PublishRemaining(topic, |payload|, qos).value == |PublishBody(topic, payload, qos, id)|
  {
  }

  //
  // SUBSCRIBE, UNSUBSCRIBE, CONNECT
  //

  predicate FilterArgOk(f: bytes) { 0 < |f| <= MAX_STRING_LEN && IsString(f) }

  predicate SubsArgsOk(subs: seq<TopicSubscription>)
  {
    forall i :: 0 <= i < |subs| ==> FilterArgOk(subs[i].filter) && ValidQos(subs[i].qos)
  }

  /** The payload of a SUBSCRIBE, one chunk per write. */
  function SubscribeChunks(subs: seq<TopicSubscription>): seq<bytes>
    requires SubsArgsOk(subs)
  {
    if subs == [] then []
    else
      var s := subs[|subs| - 1];
      SubscribeChunks(subs[..|subs| - 1]) + [Field(s.filter), [s.qos]]
  }

  predicate FiltersArgsOk(filters: seq<bytes>) { forall i :: 0 <= i < |filters| ==> FilterArgOk(filters[i]) }

  function UnsubscribeChunks(filters: seq<bytes>): seq<bytes>
    requires FiltersArgsOk(filters)
  {
    if filters == [] then []
    else UnsubscribeChunks(filters[..|filters| - 1]) + [Field(filters[|filters| - 1])]
  }

  const PROTOCOL_NAME: bytes := [0x4D, 0x51, 0x54, 0x54]
  const PROTOCOL_LEVEL: byte := 4

  predicate ConnectArgsOk(o: ConnectOptions)
  {
    && |o.clientId| <= MAX_STRING_LEN && IsString(o.clientId)
    && (o.will.Present() ==>
          ValidQos(o.will.qos) && |o.will.topic| <= MAX_STRING_LEN && |o.will.payload| <= MAX_STRING_LEN
              && IsString(o.will.topic))
    && |o.username| <= MAX_STRING_LEN && (o.username != [] ==> IsString(o.username))
    && |o.password| <= MAX_STRING_LEN && (o.password != [] ==> o.username != [])
  }

  function ConnectFlags(o: ConnectOptions): byte
  {
    (if o.cleanSession then 0x02 else 0)
    + (if o.will.Present() then 0x04 + o.will.qos % 4 * 8 + (if o.will.retain then 0x20 else 0) else 0)
    + (if o.password != [] then 0x40 else 0)
    + (if o.username != [] then 0x80 else 0)
  }

  /** The variable header and payload of a CONNECT, one chunk per write, in the order that
      section 3.1 of MQTT 3.1.1 lays down. */
  function ConnectChunks(o: ConnectOptions): seq<bytes>
    requires ConnectArgsOk(o)
  {
    [Field(PROTOCOL_NAME), [PROTOCOL_LEVEL], [ConnectFlags(o)], U16(o.keepAliveS), Field(o.clientId)]
    + (if o.will.Present() then [Field(o.will.topic), Field(o.will.payload)] else [])
    + (if o.username != [] then [Field(o.username)] else [])
    + (if o.password != [] then [Field(o.password)] else [])
  }

  //
  // Everything the client sends
  //

  datatype Outgoing =
    | SendConnect(options: ConnectOptions)
    | SendPublish(topic: bytes, payload: bytes, qos: QoS, retain: bool, dup: bool, id: u16)
    | SendAck(kind: PacketType, id: u16)
    | SendSubscribe(id: u16, subs: seq<TopicSubscription>)
    | SendUnsubscribe(id: u16, filters: seq<bytes>)
    | SendEmpty(kind: PacketType)

  /** The arguments each encoder accepts, apart from the total length. */
  predicate ArgsOk(o: Outgoing)
  {
    match o
    case SendConnect(opts) => ConnectArgsOk(opts)
    case SendPublish(topic, payload, qos, retain, dup, id) => PublishArgsOk(topic, payload, qos, dup, id)
    case SendAck(kind, id) => (kind == Puback || kind == Pubrec || kind == Pubrel || kind == Pubcomp) && id != 0
    case SendSubscribe(id, subs) => id != 0 && subs != [] && SubsArgsOk(subs)
    case SendUnsubscribe(id, filters) => id != 0 && filters != [] && FiltersArgsOk(filters)
    case SendEmpty(kind) => kind == Pingreq || kind == Disconnect
  }

  function HeaderOf(o: Outgoing): FixedHeader
  {
    match o
    case SendConnect(_) => Plain(Connect)
    case SendPublish(_, _, qos, retain, dup, _) => PublishHeader(qos, retain, dup)
    case SendAck(kind, _) => Plain(kind)
    case SendSubscribe(_, _) => Plain(Subscribe)
    case SendUnsubscribe(_, _) => Plain(Unsubscribe)
    case SendEmpty(kind) => Plain(kind)
  }

  /** The body of a packet as the sequence of writes that produce it. */
  function ChunksOf(o: Outgoing): seq<bytes>
    requires ArgsOk(o)
  {
    match o
    case SendConnect(opts) => ConnectChunks(opts)
    case SendPublish(topic, payload, qos, _, _, id) =>
      [Field(topic)] + (if qos != AT_MOST_ONCE then [U16(id)] else []) + (if payload != [] then [payload] else [])
    case SendAck(_, id) => [U16(id)]
    case SendSubscribe(id, subs) => [U16(id)] + SubscribeChunks(subs)
    case SendUnsubscribe(id, filters) => [U16(id)] + UnsubscribeChunks(filters)
    case SendEmpty(_) => []
  }

  function BodyOf(o: Outgoing): bytes
    requires ArgsOk(o)
  {
    Flatten(ChunksOf(o))
  }

  /** Arguments are acceptable and the packet does not exceed the largest remaining length. */
  predicate Encodable(o: Outgoing) { ArgsOk(o) && |BodyOf(o)| <= MAX_REMAINING_LENGTH }

  /** The packet on the wire. */
  function Image(o: Outgoing): bytes
    requires Encodable(o)
  {
    PacketBytes(HeaderOf(o), BodyOf(o))
  }

  /** Every packet sent carries a legal header, so it is framed exactly. */
  lemma ImageFrames(o: Outgoing, rest: bytes)
    requires Encodable(o)
    ensures PeekHeader(Image(o) + rest) ==
            Success(Peek(HeaderOf(o).(remainingLength := |BodyOf(o)|), 1 + |VbiBytes(|BodyOf(o)|)|, |Image(o)|))
  {
    hide BodyOf;
    hide VbiBytes;
    PeekPacket(HeaderOf(o), BodyOf(o), rest);
  }

  lemma Flatten2(a: bytes, b: bytes)
    ensures Flatten([a]) == a && Flatten([a, b]) == a + b
  {
    FlattenAppend([], a);
    FlattenAppend([a], b);
    assert [] + [a] == [a] && [a] + [b] == [a, b];
  }

  lemma PublishBodyOf(o: Outgoing)
    requires o.SendPublish? && ArgsOk(o)
    ensures BodyOf(o) == PublishBody(o.topic, o.payload, o.qos, o.id)
  {
    hide IsString;
    hide U16;
    hide Field;
    var f, u := Field(o.topic), U16(o.id);
    var front := if o.qos != AT_MOST_ONCE then [f, u] else [f];
    assert [f] + (if o.qos != AT_MOST_ONCE then [u] else []) == front;
    Flatten2(f, u);
    FlattenAppend(front, o.payload);
    hide Flatten;
    assert ChunksOf(o) == if o.payload != [] then front + [o.payload] else front;
    if o.qos == AT_MOST_ONCE {
      assert f + [] + o.payload == f + o.payload;
    }
  }

  /** A PUBLISH written field by field is the PUBLISH packet. */
  lemma PublishImage(topic: bytes, payload: bytes, qos: QoS, retain: bool, dup: bool, id: u16)
    requires PublishArgsOk(topic, payload, qos, dup, id)
    ensures var o := SendPublish(topic, payload, qos, retain, dup, id);
            Encodable(o) && Image(o) == PublishBytes(topic, payload, qos, retain, dup, id)
  {
    hide IsString;
    hide BodyOf;
    PublishBodyOf(SendPublish(topic, payload, qos, retain, dup, id));
    PublishRemainingIsBodyLength(topic, payload, qos, id);
  }

  lemma AckImage(t: PacketType, id: u16)
    requires ArgsOk(SendAck(t, id))
    ensures Encodable(SendAck(t, id)) && Image(SendAck(t, id)) == AckBytes(t, id) && |AckBytes(t, id)| == 4
  {
    Flatten2(U16(id), []);
  }

  lemma EmptyImage(t: PacketType)
    requires ArgsOk(SendEmpty(t))
    ensures Encodable(SendEmpty(t)) && Image(SendEmpty(t)) == EmptyBytes(t) && |EmptyBytes(t)| == PacketSize(0)
  {
    assert Flatten([]) == [];
  }

  //
  // Decoding
  //

  datatype Peek = Peek(header: FixedHeader, headerBytes: nat, totalBytes: nat)

  function PeekHeader(input: bytes): Result<Peek>
  {
    if input == [] then Failure(Incomplete)
    else
      match FromByte(input[0])
      case Failure(e) => Failure(e)
      case Success(h) =>
        match DecodeVbi(input[1..])
        case Failure(e) => Failure(e)
        case Success(v) => Success(Peek(h.(remainingLength := v.value), 1 + v.bytes, 1 + v.bytes + v.value))
  }

  function DecodeConnack(body: bytes): Result<ConnackInfo>
  {
    if |body| != 2 then Failure(MalformedPacket)
    else if body[0] / 2 != 0 then Failure(ProtocolViolation)
    else if body[1] > 5 then Failure(ProtocolViolation)
    else if body[0] % 2 != 0 && body[1] != 0 then Failure(ProtocolViolation)
    else Success(ConnackInfo(body[1], body[0] % 2 != 0))
  }

  function DecodePacketId(body: bytes): Result<u16>
  {
    if |body| != 2 then Failure(MalformedPacket)
    else if ReadU16(body[0], body[1]) == 0 then Failure(ProtocolViolation)
    else Success(ReadU16(body[0], body[1]))
  }

  datatype SubackView = SubackView(packetId: u16, returnCodes: bytes)

  function DecodeSuback(body: bytes): Result<SubackView>
  {
    if |body| < 3 then Failure(MalformedPacket)
    else if ReadU16(body[0], body[1]) == 0 then Failure(ProtocolViolation)
    else if exists i :: 2 <= i < |body| && body[i] > 2 && body[i] != SUBACK_FAILURE then Failure(ProtocolViolation)
    else Success(SubackView(ReadU16(body[0], body[1]), body[2..]))
  }

  /** A length-prefixed UTF-8 string at the front: the string and what follows it. */
  function ReadString(input: bytes): Result<(bytes, bytes)>
  {
    if |input| < 2 then Failure(MalformedPacket)
    else
      var len := ReadU16(input[0], input[1]);
      if len == 0 then Success(([], input[2..]))
      else if |input| < 2 + len || !IsString(input[2..2 + len]) then Failure(MalformedPacket)
      else Success((input[2..2 + len], input[2 + len..]))
  }

  function DecodePublish(h: FixedHeader, body: bytes): Result<Message>
  {
    match ReadString(body)
    case Failure(e) => Failure(e)
    case Success((topic, rest)) =>
      if topic == [] then Failure(ProtocolViolation)
      else if h.qos != AT_MOST_ONCE then
        if |rest| < 2 then Failure(MalformedPacket)
        else if ReadU16(rest[0], rest[1]) == 0 then Failure(ProtocolViolation)
        else Success(Message(topic, rest[2..], h.qos, h.retain, h.dup, ReadU16(rest[0], rest[1])))
      else if h.dup then Failure(ProtocolViolation)
      else Success(Message(topic, rest, h.qos, h.retain, h.dup, 0))
  }

  //
  // Framing facts
  //

  /** A packet at the front of any input is recognised with its exact extent. */
  lemma {:induction false} PeekPacket(h: FixedHeader, body: bytes, rest: bytes)
    requires CanonicalHeader(h) && |body| <= MAX_REMAINING_LENGTH
    ensures PeekHeader(PacketBytes(h, body) + rest) ==
            Success(Peek(h.(remainingLength := |body|), 1 + |VbiBytes(|body|)|, |PacketBytes(h, body)|))
  {
    hide DecodeVbi;
    HeaderFromToByte(h);
    var vbi := VbiBytes(|body|);
    var input := PacketBytes(h, body) + rest;
    DecodeVbiOfBytes(|body|, body + rest);
    assert input[1..] == vbi + (body + rest);
  }

  /** What is recognised is a packet, spelled in the only possible way. */
  lemma PeekedIsPacket(input: bytes)
    requires PeekHeader(input).Success?
    ensures var p := PeekHeader(input).value;
            && CanonicalHeader(p.header) && 2 <= p.headerBytes <= |input|
               && p.header.remainingLength <= MAX_REMAINING_LENGTH
            && p.totalBytes == p.headerBytes + p.header.remainingLength
            && (p.totalBytes <= |input| ==>
                  input[..p.totalBytes] == PacketBytes(p.header, input[p.headerBytes..p.totalBytes]))
  {
    hide DecodeVbi;
    hide VbiBytes;
    hide FromByte;
    HeaderToFromByte(input[0]);
    DecodeVbiResult(input[1..]);
    var p := PeekHeader(input).value;
    var v := DecodeVbi(input[1..]).value;
    assert ToByte(p.header) == ToByte(FromByte(input[0]).value);
    if p.totalBytes <= |input| {
      var body := input[p.headerBytes..p.totalBytes];
      assert input[..p.totalBytes] == [input[0]] + input[1..][..v.bytes] + body;
    }
  }

  /** A verdict on the fixed header, other than "not there yet", does not depend on what follows. */
  lemma PeekStable(input: bytes, more: bytes)
    requires PeekHeader(input) != Failure(Incomplete)
    ensures PeekHeader(input + more) == PeekHeader(input)
  {
    hide DecodeVbi;
    hide FromByte;
    if FromByte(input[0]).Success? {
      DecodeVbiStable(input[1..], more);
      assert (input + more)[1..] == input[1..] + more;
    }
  }

  /** Only an input shorter than the longest fixed header can be undecided. */
  lemma PeekIncompleteShort(input: bytes)
    requires PeekHeader(input) == Failure(Incomplete)
    ensures |input| <= 4
  {
    if input != [] {
      HeaderNeverIncomplete(input[0]);
      DecodeVbiUnfold(input[1..]);
    }
  }

  lemma HeaderNeverIncomplete(b: byte)
    ensures FromByte(b) != Failure(Incomplete)
  {
  }

  //
  // PUBLISH
  //

  /** Decoding the body that was encoded gives the message back. */
  lemma DecodePublishBody(topic: bytes, payload: bytes, qos: QoS, retain: bool, dup: bool, id: u16)
    requires PublishArgsOk(topic, payload, qos, dup, id)
    ensures var body := PublishBody(topic, payload, qos, id);
            DecodePublish(PublishHeader(qos, retain, dup).(remainingLength := |body|), body) ==
            Success(Message(topic, payload, qos, retain, dup, if qos == AT_MOST_ONCE then 0 else id))
  {
    hide IsString;
    var body := PublishBody(topic, payload, qos, id);
    U16RoundTrip(|topic|);
    U16RoundTrip(id);
    var tail := (if qos != AT_MOST_ONCE then U16(id) else []) + payload;
    assert body == U16(|topic|) + topic + tail;
    assert body[2..2 + |topic|] == topic && body[2 + |topic|..] == tail;
    if qos != AT_MOST_ONCE {
      assert tail[2..] == payload;
    } else {
      assert tail == payload;
    }
  }

  /** encode_publish, then peek_header and decode_publish, is the identity. */
  lemma PublishRoundTrip(topic: bytes, payload: bytes, qos: QoS, retain: bool, dup: bool, id: u16, rest: bytes)
    requires PublishArgsOk(topic, payload, qos, dup, id)
    ensures var input := PublishBytes(topic, payload, qos, retain, dup, id) + rest;
            && PeekHeader(input).Success?
            && var p := PeekHeader(input).value;
            && p.header.kind == Publish && p.totalBytes == |input| - |rest| && p.headerBytes <= p.totalBytes
            && DecodePublish(p.header, input[p.headerBytes..p.totalBytes]) ==
               Success(Message(topic, payload, qos, retain, dup, if qos == AT_MOST_ONCE then 0 else id))
  {
    hide IsString;
    hide PublishBody;
    var h, body := PublishHeader(qos, retain, dup), PublishBody(topic, payload, qos, id);
    PublishRemainingIsBodyLength(topic, payload, qos, id);
    PeekPacket(h, body, rest);
    DecodePublishBody(topic, payload, qos, retain, dup, id);
    var input := PublishBytes(topic, payload, qos, retain, dup, id) + rest;
    var p := PeekHeader(input).value;
    assert input[p.headerBytes..p.totalBytes] == body;
  }

  lemma ReadStringInverse(input: bytes)
    requires ReadString(input).Success?
    ensures var (s, rest) := ReadString(input).value;
            |s| <= MAX_STRING_LEN && input == Field(s) + rest && (s != [] ==> IsString(s))
  {
    hide IsString;
    hide U16;
    hide ReadU16;
    var (s, rest) := ReadString(input).value;
    var len := ReadU16(input[0], input[1]);
    U16OfRead(input[0], input[1]);
    assert input[..2] == U16(len) && |s| == len;
    assert input == input[..2] + s + rest;
  }

  lemma U16OfRead(hi: byte, lo: byte)
    ensures U16(ReadU16(hi, lo)) == [hi, lo]
  {
  }

  lemma FieldSplit(topic: bytes, rest: bytes, id: u16, payload: bytes)
    requires |topic| <= MAX_STRING_LEN && rest == U16(id) + payload
    ensures Field(topic) + rest == PublishBody(topic, payload, AT_LEAST_ONCE, id) ==
            PublishBody(topic, payload, EXACTLY_ONCE, id)
  {
    hide U16;
    assert Field(topic) + (U16(id) + payload) == Field(topic) + U16(id) + payload;
  }

  lemma FieldSplit0(topic: bytes, payload: bytes, id: u16)
    requires |topic| <= MAX_STRING_LEN
    ensures Field(topic) + payload == PublishBody(topic, payload, AT_MOST_ONCE, id)
  {
    assert Field(topic) + [] + payload == Field(topic) + payload;
  }

  lemma BodyFromRest(h: FixedHeader, topic: bytes, rest: bytes, body: bytes)
    requires ValidQos(h.qos) && |topic| <= MAX_STRING_LEN && body == Field(topic) + rest
    requires h.qos != AT_MOST_ONCE ==> |rest| >= 2
    ensures h.qos != AT_MOST_ONCE ==> PublishBody(topic, rest[2..], h.qos, ReadU16(rest[0], rest[1])) == body
    ensures h.qos == AT_MOST_ONCE ==> PublishBody(topic, rest, h.qos, 0) == body
  {
    hide PublishBody;
    if h.qos != AT_MOST_ONCE {
      U16OfRead(rest[0], rest[1]);
      FieldSplit(topic, rest, ReadU16(rest[0], rest[1]), rest[2..]);
    } else {
      FieldSplit0(topic, rest, 0);
    }
  }

  /** Whatever decodes as a PUBLISH body is the body that encoding the message produces. */
  lemma DecodedPublishReencodes(h: FixedHeader, body: bytes)
    requires h.kind == Publish && ValidQos(h.qos) && |body| <= MAX_REMAINING_LENGTH && DecodePublish(h, body).Success?
    ensures var m := DecodePublish(h, body).value;
            && PublishArgsOk(m.topic, m.payload, m.qos, m.dup, m.packetId)
            && m.qos == h.qos && m.retain == h.retain && m.dup == h.dup
            && PublishBody(m.topic, m.payload, m.qos, m.packetId) == body
  {
    hide IsString;
    hide U16;
    hide ReadU16;
    hide ReadString;
    hide PublishBody;
    ReadStringInverse(body);
    var (topic, rest) := ReadString(body).value;
    assert |body| == 2 + |topic| + |rest| by { assert |Field(topic)| == 2 + |topic|; }
    BodyFromRest(h, topic, rest, body);
  }

  /** The PUBLISH codec is a bijection: any packet that decodes re-encodes to the identical bytes. */
  lemma PublishReencodes(input: bytes)
    requires PeekHeader(input).Success?
    requires var p := PeekHeader(input).value;
             p.header.kind == Publish && p.totalBytes == |input| && p.headerBytes <= |input|
             && DecodePublish(p.header, input[p.headerBytes..]).Success?
    ensures var p := PeekHeader(input).value;
            var m := DecodePublish(p.header, input[p.headerBytes..]).value;
            && PublishArgsOk(m.topic, m.payload, m.qos, m.dup, m.packetId)
            && PublishBytes(m.topic, m.payload, m.qos, m.retain, m.dup, m.packetId) == input
  {
    hide IsString;
    hide PublishBody;
    hide DecodePublish;
    PeekedIsPacket(input);
    var p := PeekHeader(input).value;
    var body := input[p.headerBytes..];
    assert input[p.headerBytes..p.totalBytes] == body && input[..p.totalBytes] == input;
    DecodedPublishReencodes(p.header, body);
  }
}
