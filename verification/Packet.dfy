/** Variable byte integers and the fixed header byte (src/packet.cpp). */
module Packet {
  import opened Types

  //
  // Variable byte integer
  //

  function VbiSize(value: nat): nat
  {
    if value > MAX_REMAINING_LENGTH then 0
    else if value < 128 then 1
    else if value < 16384 then 2
    else if value < 2097152 then 3
    else 4
  }

  /** Base-128 digits, least significant first, continuation bit on all but the last:
      section 2.2.3 of MQTT 3.1.1. */
  function VbiBytes(value: nat): bytes
  {
    if value < 128 then [value] else [128 + value % 128] + VbiBytes(value / 128)
  }

  datatype Vbi = Vbi(value: nat, bytes: nat)

  /** The source's decoding loop from position `i` on, with `value` and `multiplier` accumulated so far. */
  function DecodeVbiFrom(input: bytes, i: nat, value: nat, multiplier: nat): Result<Vbi>
    requires i <= MAX_VBI_BYTES
    decreases MAX_VBI_BYTES - i
  {
    if i == MAX_VBI_BYTES then Failure(MalformedPacket)
    else if i >= |input| then Failure(Incomplete)
    else
      var v := value + Scaled(input[i], multiplier);
      if input[i] < 128 then
        if i + 1 != VbiSize(v) then Failure(MalformedPacket) else Success(Vbi(v, i + 1))
      else DecodeVbiFrom(input, i + 1, v, multiplier * 128)
  }

  function DecodeVbi(input: bytes): Result<Vbi>
  {
    DecodeVbiFrom(input, 0, 0, 1)
  }

  lemma {:induction false} VbiBytesLength(value: nat)
    requires value <= MAX_REMAINING_LENGTH
    ensures |VbiBytes(value)| == VbiSize(value) <= MAX_VBI_BYTES
  {
    if value >= 128 {
      VbiBytesLength(value / 128);
      assert value < 16384 <==> value / 128 < 128;
      assert value < 2097152 <==> value / 128 < 16384;
    }
  }

  function Digit(b: byte): nat { b % 128 }

  function Scaled(b: byte, multiplier: nat): nat { Digit(b) * multiplier }

  /** The decoder with its four rounds written out. */
  lemma DecodeVbiUnfold(input: bytes)
    ensures DecodeVbi(input) ==
            if |input| < 1 then Failure(Incomplete)
            else if input[0] < 128 then Success(Vbi(input[0], 1))
            else if |input| < 2 then Failure(Incomplete)
            else var v1 := Digit(input[0]) + Digit(input[1]) * 128;
            if input[1] < 128 then (if VbiSize(v1) == 2 then Success(Vbi(v1, 2)) else Failure(MalformedPacket))
            else if |input| < 3 then Failure(Incomplete)
            else var v2 := v1 + Digit(input[2]) * 16384;
            if input[2] < 128 then (if VbiSize(v2) == 3 then Success(Vbi(v2, 3)) else Failure(MalformedPacket))
            else if |input| < 4 then Failure(Incomplete)
            else var v3 := v2 + Digit(input[3]) * 2097152;
            if input[3] < 128 then (if VbiSize(v3) == 4 then Success(Vbi(v3, 4)) else Failure(MalformedPacket))
            else Failure(MalformedPacket)
  {
    if |input| >= 1 && input[0] >= 128 {
      var v0 := Digit(input[0]);
      assert DecodeVbi(input) == DecodeVbiFrom(input, 1, v0, 128);
      if |input| >= 2 && input[1] >= 128 {
        var v1 := v0 + Digit(input[1]) * 128;
        assert DecodeVbi(input) == DecodeVbiFrom(input, 2, v1, 16384);
        if |input| >= 3 && input[2] >= 128 {
          var v2 := v1 + Digit(input[2]) * 16384;
          assert DecodeVbi(input) == DecodeVbiFrom(input, 3, v2, 2097152);
        }
      }
    }
  }

  /** The number a well-formed byte string spells, and what well-formed means: continuation
      bits on all but the last byte, and no superfluous zero digit at the end. */
  function SpelledValue(s: bytes): nat
    requires s != []
  {
    Digit(s[0]) + if |s| == 1 then 0 else 128 * SpelledValue(s[1..])
  }

  predicate WellSpelled(s: bytes)
  {
    && s != [] && s[|s| - 1] < 128 && (|s| > 1 ==> s[|s| - 1] > 0)
    && forall k :: 0 <= k < |s| - 1 ==> s[k] >= 128
  }

  lemma VbiBytesCons(digit: nat, w: nat)
    requires digit < 128 && w > 0
    ensures VbiBytes(digit + 128 * w) == [128 + digit] + VbiBytes(w)
  {
    assert (digit + 128 * w) % 128 == digit && (digit + 128 * w) / 128 == w;
  }

  lemma {:induction false} SpellingPositive(s: bytes)
    requires WellSpelled(s)
    ensures SpelledValue(s) > 0 || s == [0]
  {
    if |s| > 1 {
      SpellingPositive(s[1..]);
    }
  }

  lemma {:induction false} SpellingUnique(s: bytes)
    requires WellSpelled(s)
    ensures VbiBytes(SpelledValue(s)) == s
  {
    if |s| == 1 {
      assert SpelledValue(s) == s[0];
    } else {
      var tail := s[1..];
      SpellingPositive(tail);
      SpellingUnique(tail);
      var digit, w := Digit(s[0]), SpelledValue(tail);
      VbiBytesCons(digit, w);
      calc {
        VbiBytes(SpelledValue(s));
        VbiBytes(digit + 128 * w);
        [128 + digit] + tail;
        s;
      }
    }
  }

  lemma {:induction false} SpelledValueUpTo4(s: bytes)
    requires 1 <= |s| <= 4
    ensures SpelledValue(s) == Digit(s[0]) + (if |s| > 1 then Digit(s[1]) * 128 else 0)
                               + (if |s| > 2 then Digit(s[2]) * 16384 else 0)
                                   + (if |s| > 3 then Digit(s[3]) * 2097152 else 0)
  {
    if |s| > 1 {
      assert SpelledValue(s) == Digit(s[0]) + 128 * SpelledValue(s[1..]);
      if |s| > 2 {
        assert SpelledValue(s[1..]) == Digit(s[1]) + 128 * SpelledValue(s[1..][1..]);
        if |s| > 3 {
          assert SpelledValue(s[1..][1..]) == Digit(s[2]) + 128 * SpelledValue(s[1..][1..][1..]);
        }
      }
    }
  }

  /** What decodes is the encoding of the result, and nothing else: no value has a second spelling. */
  lemma DecodeVbiResult(input: bytes)
    ensures DecodeVbi(input).Success? ==>
              var d := DecodeVbi(input).value;
              d.value <= MAX_REMAINING_LENGTH && 1 <= d.bytes <= |input| && VbiBytes(d.value) == input[..d.bytes]
  {
    hide DecodeVbi, VbiBytes, WellSpelled, SpelledValue;
    if DecodeVbi(input).Success? {
      DecodedSpelling(input);
      SpellingUnique(input[..DecodeVbi(input).value.bytes]);
    }
  }

  lemma DecodedSpelling(input: bytes)
    requires DecodeVbi(input).Success?
    ensures var d := DecodeVbi(input).value;
            && d.value <= MAX_REMAINING_LENGTH && 1 <= d.bytes <= |input|
            && WellSpelled(input[..d.bytes]) && SpelledValue(input[..d.bytes]) == d.value
  {
    hide DecodeVbi, SpelledValue;
    DecodeVbiUnfold(input);
    SpelledValueUpTo4(input[..DecodeVbi(input).value.bytes]);
  }

  lemma {:induction false} VbiBytesSpelled(value: nat)
    ensures WellSpelled(VbiBytes(value)) && SpelledValue(VbiBytes(value)) == value
  {
    if value >= 128 {
      var tail := VbiBytes(value / 128);
      VbiBytesSpelled(value / 128);
      assert VbiBytes(value)[1..] == tail;
      assert Digit(VbiBytes(value)[0]) == value % 128;
      VbiBytesHead(value / 128);
    }
  }

  lemma {:induction false} DecodeWellSpelled(s: bytes, rest: bytes)
    requires WellSpelled(s) && |s| <= 4 && VbiSize(SpelledValue(s)) == |s|
    ensures DecodeVbi(s + rest) == Success(Vbi(SpelledValue(s), |s|))
  {
    DecodeVbiUnfold(s + rest);
    SpelledValueUpTo4(s);
  }

  /** An encoding in front of anything decodes to the value that was encoded. */
  lemma {:induction false} DecodeVbiOfBytes(value: nat, rest: bytes)
    requires value <= MAX_REMAINING_LENGTH
    ensures DecodeVbi(VbiBytes(value) + rest) == Success(Vbi(value, |VbiBytes(value)|))
  {
    VbiBytesLength(value);
    VbiBytesSpelled(value);
    DecodeWellSpelled(VbiBytes(value), rest);
  }

  /** A verdict other than Incomplete is final: more input never changes it. */
  lemma DecodeVbiStable(input: bytes, more: bytes)
    requires DecodeVbi(input) != Failure(Incomplete)
    ensures DecodeVbi(input + more) == DecodeVbi(input)
  {
    DecodeVbiUnfold(input);
    DecodeVbiUnfold(input + more);
  }

  lemma {:induction false} VbiBytesHead(v: nat)
    ensures |VbiBytes(v)| >= 1
    ensures VbiBytes(v)[0] == if v / 128 > 0 then 128 + v % 128 else v % 128
    ensures if v / 128 > 0 then VbiBytes(v)[1..] == VbiBytes(v / 128) else |VbiBytes(v)| == 1
  {
  }

  method VbiEncode(out: array<byte>, value: u32) returns (r: Result<nat>)
    modifies out
    ensures value > MAX_REMAINING_LENGTH ==> r == Failure(InvalidArgument)
    ensures value <= MAX_REMAINING_LENGTH && out.Length < VbiSize(value) ==> r == Failure(BufferTooSmall)
    ensures value <= MAX_REMAINING_LENGTH && out.Length >= VbiSize(value) ==>
              && r == Success(|VbiBytes(value)|) && |VbiBytes(value)| <= out.Length
              && out[..|VbiBytes(value)|] == VbiBytes(value)
    ensures forall k :: (if r.Success? then r.value else 0) <= k < out.Length ==> out[k] == old(out[k])
  {
    if value > MAX_REMAINING_LENGTH { return Failure(InvalidArgument); }
    var needed := VbiSize(value);
    if out.Length < needed { return Failure(BufferTooSmall); }
    VbiBytesLength(value);
    ghost var code := VbiBytes(value);
    var i: nat, v: nat, more := 0, value, true;
    while more
      invariant i <= |code|
      invariant more ==> code[i..] == VbiBytes(v)
      invariant !more ==> i == |code|
      invariant forall k :: 0 <= k < i ==> out[k] == code[k]
      invariant forall k :: i <= k < out.Length ==> out[k] == old(out[k])
      decreases if more then v + 1 else 0
    {
      var digit, rest := v % 128, v / 128;
      VbiBytesHead(v);
      assert code[i] == code[i..][0] && code[i + 1..] == code[i..][1..];
      out[i] := if rest > 0 then 128 + digit else digit;
      i, v, more := i + 1, rest, rest > 0;
    }
    return Success(i);
  }

  method VbiDecode(input: bytes) returns (r: Result<Vbi>)
    ensures r == DecodeVbi(input)
  {
    var i := 0;
    var value: nat, multiplier: nat := 0, 1;
    assert DecodeVbi(input) == DecodeVbiFrom(input, i, value, multiplier);
    hide DecodeVbi, VbiSize, Scaled;
    while i < MAX_VBI_BYTES
      invariant i <= MAX_VBI_BYTES
      invariant DecodeVbi(input) == DecodeVbiFrom(input, i, value, multiplier)
    {
      if i >= |input| { return Failure(Incomplete); }
      value := value + Scaled(input[i], multiplier);
      if input[i] < 128 {
        if i + 1 != VbiSize(value) { return Failure(MalformedPacket); }
        return Success(Vbi(value, i + 1));
      }
      multiplier := multiplier * 128;
      i := i + 1;
    }
    return Failure(MalformedPacket);
  }

  //
  // Fixed header byte
  //

  function TypeCode(t: PacketType): (n: nat)
    ensures n < 15
  {
    match t
    case Reserved => 0 case Connect => 1 case Connack => 2 case Publish => 3 case Puback => 4
    case Pubrec => 5 case Pubrel => 6 case Pubcomp => 7 case Subscribe => 8 case Suback => 9
    case Unsubscribe => 10 case Unsuback => 11 case Pingreq => 12 case Pingresp => 13 case Disconnect => 14
  }

  function TypeOfCode(n: nat): (t: PacketType)
    requires n < 15
    ensures TypeCode(t) == n
  {
    [Reserved, Connect, Connack, Publish, Puback, Pubrec, Pubrel, Pubcomp,
     Subscribe, Suback, Unsubscribe, Unsuback, Pingreq, Pingresp, Disconnect][n]
  }

  /** The flag nibble the specification mandates for every type but PUBLISH. */
  function MandatedFlags(t: PacketType): nat
  {
    if t == Pubrel || t == Subscribe || t == Unsubscribe then 2 else 0
  }

  function ToByte(h: FixedHeader): byte
  {
    TypeCode(h.kind) * 16 +
    if h.kind == Publish then
      (if h.dup then 8 else 0) + h.qos % 4 * 2 + (if h.retain then 1 else 0)
    else MandatedFlags(h.kind)
  }

  function FromByte(b: byte): Result<FixedHeader>
  {
    var nibble, flags := b / 16, b % 16;
    if nibble == 0 || nibble > 14 then Failure(MalformedPacket)
    else
      var t := TypeOfCode(nibble);
      if t == Publish then
        var q := flags / 2 % 4;
        if q > 2 then Failure(MalformedPacket)
        else Success(FixedHeader(t, flags / 8 == 1, q, flags % 2 == 1, 0))
      else if flags != MandatedFlags(t) then Failure(MalformedPacket)
      else Success(FixedHeader(t, false, AT_MOST_ONCE, false, 0))
  }

  /** Headers that a packet on the wire can carry: only PUBLISH has flags of its own. */
  predicate CanonicalHeader(h: FixedHeader)
  {
    && h.kind != Reserved
    && (if h.kind == Publish then ValidQos(h.qos) else !h.dup && h.qos == AT_MOST_ONCE && !h.retain)
  }

  lemma TypeCodeInverse(t: PacketType)
    ensures TypeOfCode(TypeCode(t)) == t
  {
  }

  lemma HeaderFromToByte(h: FixedHeader)
    requires CanonicalHeader(h)
    ensures FromByte(ToByte(h)) == Success(h.(remainingLength := 0))
  {
    TypeCodeInverse(h.kind);
    assert ToByte(h) / 16 == TypeCode(h.kind);
    assert ToByte(h) % 16 == ToByte(h) - 16 * TypeCode(h.kind);
  }

  lemma HeaderToFromByte(b: byte)
    ensures FromByte(b).Success? ==>
              CanonicalHeader(FromByte(b).value) && FromByte(b).value.remainingLength == 0
                  && ToByte(FromByte(b).value) == b
  {
  }

  /** The header byte and the canonical headers are in bijection; every other byte is rejected. */
  lemma HeaderByteBijection(b: byte, h: FixedHeader)
    ensures FromByte(b) == Success(h) <==> CanonicalHeader(h) && h.remainingLength == 0 && ToByte(h) == b
  {
    HeaderToFromByte(b);
    if CanonicalHeader(h) {
      HeaderFromToByte(h);
    }
  }
}
