/** The vocabulary shared by every layer: bytes, error codes, results, and the
    wire-level value types of include/mqtt/packet.hpp and include/mqtt/error.hpp. */
module Types {

  type byte = x: int | 0 <= x < 256
  type bytes = seq<byte>
  type u16 = x: int | 0 <= x < 0x1_0000
  type u32 = x: int | 0 <= x < 0x1_0000_0000

  datatype Error =
    | Ok
    | WouldBlock | Incomplete
    | InvalidArgument | NotConnected | AlreadyConnected | NotSupported
    | BufferTooSmall | TxQueueFull | NoInflightSlot | NoSubscriptionSlot
    | NoPendingAckSlot | PayloadTooLarge | TopicTooLong
    | MalformedPacket | ProtocolViolation | PacketTooLarge | ConnectionRefused
    | KeepAliveTimeout | ConnectTimeout
    | TransportFailure | TransportClosed
    | Reentrant

  datatype Option<+T> = None | Some(value: T)

  /** The source's Result: `Failure` never carries `Ok`. */
  datatype Result<+T> = Success(value: T) | Failure(error: Error)

  /** QoS is an enum over one byte, and a cast can produce any value, so the
      model keeps all of them; only 0, 1 and 2 are legal. */
  type QoS = byte
  const AT_MOST_ONCE: QoS := 0
  const AT_LEAST_ONCE: QoS := 1
  const EXACTLY_ONCE: QoS := 2

  predicate ValidQos(q: QoS) { q <= 2 }

  datatype PacketType =
    | Reserved | Connect | Connack | Publish | Puback | Pubrec | Pubrel | Pubcomp
    | Subscribe | Suback | Unsubscribe | Unsuback | Pingreq | Pingresp | Disconnect

  const MAX_REMAINING_LENGTH := 268435455
  const MAX_VBI_BYTES := 4
  const MAX_STRING_LEN := 65535
  const SUBACK_FAILURE: byte := 0x80

  /** The first byte of a packet plus its decoded remaining length. */
  datatype FixedHeader = FixedHeader(kind: PacketType, dup: bool, qos: QoS, retain: bool, remainingLength: nat)

  datatype Message = Message(topic: bytes, payload: bytes, qos: QoS, retain: bool, dup: bool, packetId: u16)

  datatype Will = Will(topic: bytes, payload: bytes, qos: QoS, retain: bool)
  {
    predicate Present() { topic != [] }
  }

  datatype ConnectOptions = ConnectOptions(
    clientId: bytes, username: bytes, password: bytes, will: Will, keepAliveS: u16, cleanSession: bool)

  datatype ConnackInfo = ConnackInfo(code: byte, sessionPresent: bool)

  datatype TopicSubscription = TopicSubscription(filter: bytes, qos: QoS)

  /** The concatenation of a sequence of byte strings. */
  function Flatten(parts: seq<bytes>): bytes
  {
    if parts == [] then [] else Flatten(parts[..|parts| - 1]) + parts[|parts| - 1]
  }

  lemma Regrouped(a: bytes, b: bytes, c: bytes)
    ensures a + b + c == a + (b + c)
  {
  }

  lemma {:induction false} FlattenAppend(parts: seq<bytes>, last: bytes)
    ensures Flatten(parts + [last]) == Flatten(parts) + last
  {
    assert (parts + [last])[..|parts|] == parts;
  }

  lemma {:induction false} FlattenConcat(a: seq<bytes>, b: seq<bytes>)
    ensures Flatten(a + b) == Flatten(a) + Flatten(b)
  {
    if b == [] {
      assert a + b == a;
    } else {
      var front := b[..|b| - 1];
      assert a + b == (a + front) + [b[|b| - 1]];
      FlattenAppend(a + front, b[|b| - 1]);
      FlattenConcat(a, front);
    }
  }
}
