/** MQTT UTF-8 strings (src/utf8.cpp) against the encoding of section 3 of RFC 3629.
    Masks and shifts are written as the arithmetic they stand for. */
module Utf8 {
  import opened Types

  /** A Unicode scalar value that section 1.5.3 of MQTT 3.1.1 admits: anything but U+0000. */
  predicate Scalar(c: nat) { 0 < c <= 0x10FFFF && !(0xD800 <= c <= 0xDFFF) }

  type Scalars = cs: seq<nat> | forall i :: 0 <= i < |cs| ==> Scalar(cs[i])

  /** The table of section 3 of RFC 3629. */
  function EncodeScalar(c: nat): (r: bytes)
    requires Scalar(c)
    ensures 1 <= |r| <= 4
  {
    if c < 0x80 then [c]
    else if c < 0x800 then [0xC0 + c / 64, 0x80 + c % 64]
    else if c < 0x10000 then [0xE0 + c / 4096, 0x80 + c / 64 % 64, 0x80 + c % 64]
    else [0xF0 + c / 262144, 0x80 + c / 4096 % 64, 0x80 + c / 64 % 64, 0x80 + c % 64]
  }

  function EncodeAll(cs: Scalars): bytes
  {
    if cs == [] then [] else EncodeScalar(cs[0]) + EncodeAll(cs[1..])
  }

  /** How many continuation bytes a lead byte announces; None for a byte that cannot lead. */
  function Continuations(lead: byte): Option<nat>
  {
    if lead == 0 then None
    else if lead < 0x80 then Some(0)
    else if 0xC0 <= lead < 0xE0 then Some(1)
    else if 0xE0 <= lead < 0xF0 then Some(2)
    else if 0xF0 <= lead < 0xF8 then Some(3)
    else None
  }

  /** The payload bits of a lead byte. */
  function LeadBits(lead: byte): nat
  {
    if lead < 0x80 then lead else if lead < 0xE0 then lead % 32 else if lead < 0xF0 then lead % 16 else lead % 8
  }

  /** The payload bits of a continuation byte. */
  function Low(b: byte): nat { b % 64 }

  predicate IsContinuation(b: byte) { 0x80 <= b < 0xC0 }

  function SmallestFor(continuations: nat): nat
    requires continuations <= 3
  {
    [0, 0x80, 0x800, 0x10000][continuations]
  }

  /** The code point accumulated from the lead byte and `k` continuation bytes. */
  function Accumulated(s: bytes, k: nat): nat
    requires k < |s|
  {
    if k == 0 then LeadBits(s[0]) else Accumulated(s, k - 1) * 64 + Low(s[k])
  }

  /** One sequence at the front of a string: its code point and its length. */
  function Front(s: bytes): Option<(nat, nat)>
  {
    if s == [] || Continuations(s[0]).None? then None
    else
      var k := Continuations(s[0]).value;
      if |s| <= k || exists j :: 1 <= j <= k && !IsContinuation(s[j]) then None
      else
        var c := Accumulated(s, k);
        if c < SmallestFor(k) || 0xD800 <= c <= 0xDFFF || c > 0x10FFFF then None else Some((c, k + 1))
  }

  lemma {:induction false} AccumulatedUpTo3(s: bytes, k: nat)
    requires k < |s| && k <= 3
    ensures k == 0 ==> Accumulated(s, k) == LeadBits(s[0])
    ensures k == 1 ==> Accumulated(s, k) == LeadBits(s[0]) * 64 + Low(s[1])
    ensures k == 2 ==> Accumulated(s, k) == LeadBits(s[0]) * 4096 + Low(s[1]) * 64 + Low(s[2])
    ensures k == 3 ==> Accumulated(s, k) == LeadBits(s[0]) * 262144 + Low(s[1]) * 4096 + Low(s[2]) * 64 + Low(s[3])
  {
    if k >= 1 {
      assert Accumulated(s, 1) == Accumulated(s, 0) * 64 + Low(s[1]);
      if k >= 2 {
        assert Accumulated(s, 2) == Accumulated(s, 1) * 64 + Low(s[2]);
        if k >= 3 {
          assert Accumulated(s, 3) == Accumulated(s, 2) * 64 + Low(s[3]);
        }
      }
    }
  }

  /** What is accepted at the front is the shortest encoding of a scalar value. */
  lemma FrontEncodes(s: bytes)
    ensures Front(s).Some? ==>
              var (c, n) := Front(s).value; Scalar(c) && 1 <= n <= |s| && EncodeScalar(c) == s[..n]
  {
    hide EncodeScalar;
    if Front(s).Some? {
      var (c, n) := Front(s).value;
      AccumulatedUpTo3(s, n - 1);
      if n > 1 { assert IsContinuation(s[1]); }
      if n > 2 { assert IsContinuation(s[2]); }
      if n > 3 { assert IsContinuation(s[3]); }
      match n
      case 1 => Encode1(c);
      case 2 => Encode2(c, s[0], s[1]); assert s[..n] == [s[0], s[1]];
      case 3 => Encode3(c, s[0], s[1], s[2]); assert s[..n] == [s[0], s[1], s[2]];
      case 4 => Encode4(c, s[0], s[1], s[2], s[3]); assert s[..n] == [s[0], s[1], s[2], s[3]];
    }
  }

  lemma Encode1(c: nat)
    requires 0 < c < 0x80
    ensures EncodeScalar(c) == [c]
  {
  }

  lemma Encode2(c: nat, b0: byte, b1: byte)
    requires 0xC0 <= b0 < 0xE0 && IsContinuation(b1) && Scalar(c) && c >= 0x80
    requires c == LeadBits(b0) * 64 + Low(b1)
    ensures EncodeScalar(c) == [b0, b1]
  {
    Split2(c, LeadBits(b0), Low(b1));
  }

  lemma Encode3(c: nat, b0: byte, b1: byte, b2: byte)
    requires 0xE0 <= b0 < 0xF0 && IsContinuation(b1) && IsContinuation(b2) && Scalar(c) && c >= 0x800
    requires c == LeadBits(b0) * 4096 + Low(b1) * 64 + Low(b2)
    ensures EncodeScalar(c) == [b0, b1, b2]
  {
    Split3(c, LeadBits(b0), Low(b1), Low(b2));
  }

  lemma Encode4(c: nat, b0: byte, b1: byte, b2: byte, b3: byte)
    requires 0xF0 <= b0 < 0xF8 && IsContinuation(b1) && IsContinuation(b2) && IsContinuation(b3)
    requires Scalar(c) && c >= 0x10000
    requires c == LeadBits(b0) * 262144 + Low(b1) * 4096 + Low(b2) * 64 + Low(b3)
    ensures EncodeScalar(c) == [b0, b1, b2, b3]
  {
    Split4(c, LeadBits(b0), Low(b1), Low(b2), Low(b3));
  }

  lemma Split2(c: nat, a: nat, b: nat)
    requires b < 64 && c == a * 64 + b
    ensures c / 64 == a && c % 64 == b
  {
  }

  lemma Split3(c: nat, a: nat, b: nat, d: nat)
    requires b < 64 && d < 64 && c == a * 4096 + b * 64 + d
    ensures c / 4096 == a && c / 64 % 64 == b && c % 64 == d
  {
    Split2(c, a * 64 + b, d);
    Split2(c / 64, a, b);
  }

  lemma Split4(c: nat, a: nat, b: nat, d: nat, e: nat)
    requires b < 64 && d < 64 && e < 64 && c == a * 262144 + b * 4096 + d * 64 + e
    ensures c / 262144 == a && c / 4096 % 64 == b && c / 64 % 64 == d && c % 64 == e
  {
    Split2(c, a * 4096 + b * 64 + d, e);
    Split3(c / 64, a, b, d);
  }

  /** Every scalar value's encoding is accepted, whatever follows it. */
  lemma FrontOfEncoded(c: nat, rest: bytes)
    requires Scalar(c)
    ensures Front(EncodeScalar(c) + rest) == Some((c, |EncodeScalar(c)|))
  {
    var s := EncodeScalar(c) + rest;
    var k := |EncodeScalar(c)| - 1;
    EncodedShape(c);
    assert s[0] == EncodeScalar(c)[0];
    assert forall j :: 1 <= j <= k ==> s[j] == EncodeScalar(c)[j];
    AccumulatedUpTo3(s, k);
    AccumulatedUpTo3(EncodeScalar(c), k);
  }

  ghost predicate Shaped(e: bytes, c: nat)
    requires 1 <= |e| <= 4
  {
    && Continuations(e[0]) == Some(|e| - 1)
    && (forall j :: 1 <= j < |e| ==> IsContinuation(e[j]))
    && Accumulated(e, |e| - 1) == c && c >= SmallestFor(|e| - 1)
  }

  lemma EncodedShape(c: nat)
    requires Scalar(c)
    ensures Shaped(EncodeScalar(c), c)
  {
    if c < 0x80 {
    } else if c < 0x800 {
      EncodedShape2(c);
    } else if c < 0x10000 {
      EncodedShape3(c);
    } else {
      EncodedShape4(c);
    }
  }

  lemma EncodedShape2(c: nat)
    requires Scalar(c) && 0x80 <= c < 0x800
    ensures Shaped(EncodeScalar(c), c)
  {
    var e := EncodeScalar(c);
    AccumulatedUpTo3(e, 1);
    assert LeadBits(e[0]) == c / 64 && Low(e[1]) == c % 64;
  }

  lemma EncodedShape3(c: nat)
    requires Scalar(c) && 0x800 <= c < 0x10000
    ensures Shaped(EncodeScalar(c), c)
  {
    ShapeOfParts3(c, c / 4096, c / 64 % 64, c % 64) by {
      QuotientTwice(c, c / 64, c / 64 / 64, c % 64, c / 64 % 64);
    }
  }

  lemma ShapeOfParts3(c: nat, p: nat, q: nat, r: nat)
    requires p < 16 && q < 64 && r < 64 && 0x800 <= c == p * 4096 + q * 64 + r
    ensures Shaped([0xE0 + p, 0x80 + q, 0x80 + r], c)
  {
    hide LeadBits, Low, Accumulated;
    AccumulatedUpTo3([0xE0 + p, 0x80 + q, 0x80 + r], 2);
    LeadOf3(p);
    LowOf(q);
    LowOf(r);
  }

  lemma LeadOf3(p: nat)
    requires p < 16
    ensures LeadBits(0xE0 + p) == p
  {
  }

  lemma EncodedShape4(c: nat)
    requires Scalar(c) && 0x10000 <= c
    ensures Shaped(EncodeScalar(c), c)
  {
    ShapeOfParts4(c, c / 262144, c / 4096 % 64, c / 64 % 64, c % 64) by { Rebuild(c); }
  }

  lemma ShapeOfParts4(c: nat, p: nat, q: nat, r: nat, t: nat)
    requires p < 8 && q < 64 && r < 64 && t < 64 && 0x10000 <= c == p * 262144 + q * 4096 + r * 64 + t
    ensures Shaped([0xF0 + p, 0x80 + q, 0x80 + r, 0x80 + t], c)
  {
    hide LeadBits;
    hide Low;
    hide Accumulated;
    var e: bytes := [0xF0 + p, 0x80 + q, 0x80 + r, 0x80 + t];
    AccumulatedUpTo3(e, 3);
    LeadOf4(p);
    LowOf(q);
    LowOf(r);
    LowOf(t);
  }

  lemma LeadOf4(p: nat)
    requires p < 8
    ensures LeadBits(0xF0 + p) == p
  {
  }

  lemma LowOf(r: nat)
    requires r < 64
    ensures Low(0x80 + r) == r
  {
  }

  lemma Rebuild(c: nat)
    ensures c / 262144 * 262144 + c / 4096 % 64 * 4096 + c / 64 % 64 * 64 + c % 64 == c
  {
    QuotientTwice(c, c / 64, c / 64 / 64, c % 64, c / 64 % 64);
    QuotientThrice(c, c / 4096, c / 4096 / 64, c % 4096, c / 4096 % 64);
  }

  lemma QuotientTwice(c: nat, a: nat, b: nat, r: nat, s: nat)
    requires c == a * 64 + r && a == b * 64 + s && r < 64 && s < 64
    ensures c / 4096 == b
  {
  }

  lemma QuotientThrice(c: nat, a: nat, b: nat, r: nat, s: nat)
    requires c == a * 4096 + r && a == b * 64 + s && r < 4096 && s < 64
    ensures c / 262144 == b
  {
  }

  /** The code points of a string, or None if it is not a string of scalar values. */
  function Decode(s: bytes): Option<Scalars>
    decreases |s|
  {
    if s == [] then Some([])
    else
      FrontEncodes(s);
      match Front(s)
      case None => None
      case Some(p) =>
        match Decode(s[p.1..])
        case None => None
        case Some(cs) => Some([p.0] + cs)
  }

  lemma {:induction false} DecodeEncoded(cs: Scalars)
    ensures Decode(EncodeAll(cs)) == Some(cs)
  {
    hide EncodeScalar;
    hide Front;
    if cs != [] {
      var e, rest := EncodeScalar(cs[0]), EncodeAll(cs[1..]);
      DecodeEncoded(cs[1..]);
      FrontOfEncoded(cs[0], rest);
      assert (e + rest)[|e|..] == rest;
      assert [cs[0]] + cs[1..] == cs;
    }
  }

  lemma {:induction false} EncodeDecoded(s: bytes)
    ensures Decode(s).Some? ==> EncodeAll(Decode(s).value) == s
    decreases |s|
  {
    hide EncodeScalar;
    hide Front;
    if s != [] && Decode(s).Some? {
      FrontEncodes(s);
      var (c, n) := Front(s).value;
      EncodeDecoded(s[n..]);
      var cs := Decode(s).value;
      assert cs == [c] + Decode(s[n..]).value;
      assert cs[0] == c && cs[1..] == Decode(s[n..]).value;
      assert s[..n] + s[n..] == s;
    }
  }

  /** Well-formed strings and sequences of scalar values are in bijection: a string decodes to
      `cs` exactly when it is the encoding of `cs`, so its code points are unique. */
  lemma {:induction false} DecodeIffEncoded(s: bytes, cs: Scalars)
    ensures Decode(s) == Some(cs) <==> EncodeAll(cs) == s
  {
    EncodeDecoded(s);
    DecodeEncoded(cs);
  }

  /** The definition of section 1.5.3 of MQTT 3.1.1. */
  ghost predicate WellFormed(s: bytes) { exists cs: Scalars :: EncodeAll(cs) == s }

  lemma {:induction false} WellFormedIffDecodes(s: bytes)
    ensures WellFormed(s) <==> Decode(s).Some?
  {
    if Decode(s).Some? {
      DecodeIffEncoded(s, Decode(s).value);
    }
    if WellFormed(s) {
      var cs: Scalars :| EncodeAll(cs) == s;
      DecodeIffEncoded(s, cs);
    }
  }

  lemma {:induction false} DecodeStep(s: bytes)
    ensures s == [] ==> Decode(s).Some?
    ensures s != [] && Front(s).None? ==> Decode(s).None?
    ensures s != [] && Front(s).Some? ==>
              1 <= Front(s).value.1 <= |s| && (Decode(s).Some? <==> Decode(s[Front(s).value.1..]).Some?)
  {
    FrontEncodes(s);
  }

  /** Its loop over the continuation bytes of the sequence at i. */
  method AddContinuations(s: bytes, i: nat, continuations: nat, lead: nat) returns (ok: bool, codePoint: nat)
    requires i + continuations < |s| && lead == Accumulated(s[i..], 0)
    ensures ok <==> !exists j :: 1 <= j <= continuations && !IsContinuation(s[i..][j])
    ensures ok ==> codePoint == Accumulated(s[i..], continuations)
  {
    ghost var rest := s[i..];
    codePoint := lead;
    var k := 1;
    while k <= continuations
      invariant 1 <= k <= continuations + 1
      invariant forall j :: 1 <= j < k ==> IsContinuation(rest[j])
      invariant codePoint == Accumulated(rest, k - 1)
    {
      var cont := s[i + k];
      assert cont == rest[k];
      if !(0x80 <= cont < 0xC0) { return false, codePoint; }
      codePoint := codePoint * 64 + Low(cont);
      k := k + 1;
    }
    ok := true;
  }

  /** src/utf8.cpp's validator: accepts exactly the encodings of scalar values other than U+0000. */
  method IsValidMqttString(s: bytes) returns (valid: bool)
    ensures valid <==> WellFormed(s)
  {
    hide EncodeScalar;
    hide Decode;
    hide WellFormed;
    WellFormedIffDecodes(s);
    DecodeStep([]);
    var i := 0;
    while i < |s|
      invariant i <= |s|
      invariant Decode(s).Some? <==> Decode(s[i..]).Some?
    {
      ghost var rest := s[i..];
      DecodeStep(rest);
      var lead := s[i];
      if lead == 0 { return false; }
      var continuations, codePoint := 0, 0;
      if lead < 0x80 {
        codePoint := lead;
      } else if 0xC0 <= lead < 0xE0 {
        continuations, codePoint := 1, lead % 32;
      } else if 0xE0 <= lead < 0xF0 {
        continuations, codePoint := 2, lead % 16;
      } else if 0xF0 <= lead < 0xF8 {
        continuations, codePoint := 3, lead % 8;
      } else {
        return false;
      }
      if |s| - i <= continuations { return false; }
      assert codePoint == Accumulated(rest, 0);
      hide Accumulated, IsContinuation, LeadBits;
      var ok;
      ok, codePoint := AddContinuations(s, i, continuations, codePoint);
      if !ok { return false; }
      if codePoint < SmallestFor(continuations) { return false; }
      if 0xD800 <= codePoint <= 0xDFFF { return false; }
      if codePoint > 0x10FFFF { return false; }
      assert Front(rest) == Some((codePoint, continuations + 1));
      assert rest[continuations + 1..] == s[i + continuations + 1..];
      i := i + continuations + 1;
    }
    assert s[i..] == [];
    return true;
  }

  /** The string "a", and the empty one. */
  lemma LetterDecodes()
    ensures Decode([0x61]) == Some([0x61]) && Decode([]) == Some([])
  {
    assert EncodeAll([]) == [];
    assert [0x61] + EncodeAll([]) == [0x61];
    DecodeIffEncoded([0x61], [0x61]);
    DecodeIffEncoded([], []);
  }
}
