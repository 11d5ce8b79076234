/** Reassembly of packets from a byte stream (drain_rx and pump_rx of include/mqtt/client.hpp):
    the one-shot parse that the receive loop has to agree with, whatever pieces the stream
    arrives in. */
module Framing {
  import opened Types
  import opened Packet
  import opened Codec

  /** `NeedMore` holds the bytes of the packet still arriving; `Broken` is the first framing error. */
  datatype Verdict = NeedMore(rest: bytes) | Broken(error: Error)
  datatype Parsed = Parsed(frames: seq<bytes>, verdict: Verdict)

  /** What one look at the front of the buffer says. */
  datatype Look = Whole(peek: Peek) | Partial | Bad(error: Error)

  function LookAt(s: bytes, cap: nat): Look
  {
    if s == [] then Partial
    else
      match PeekHeader(s)
      case Failure(e) => if e == Incomplete then Partial else Bad(e)
      case Success(p) =>
        if p.totalBytes > cap then Bad(PacketTooLarge)
        else if |s| < p.totalBytes then Partial
        else Whole(p)
  }

  lemma WholeExtent(s: bytes, cap: nat)
    requires LookAt(s, cap).Whole?
    ensures var p := LookAt(s, cap).peek;
            2 <= p.headerBytes <= p.totalBytes <= |s| && p.totalBytes <= cap
            && p.totalBytes == p.headerBytes + p.header.remainingLength
  {
    PeekedIsPacket(s);
  }

  /** The whole stream in one go, with a receive buffer of `cap` bytes. */
  function Parse(s: bytes, cap: nat): Parsed
    decreases |s|
  {
    match LookAt(s, cap)
    case Partial => Parsed([], NeedMore(s))
    case Bad(e) => Parsed([], Broken(e))
    case Whole(p) =>
      WholeExtent(s, cap);
      var more := Parse(s[p.totalBytes..], cap);
      Parsed([s[..p.totalBytes]] + more.frames, more.verdict)
  }

  /** A packet that the receive buffer can hold, complete. */
  predicate IsFrame(f: bytes, cap: nat)
  {
    LookAt(f, cap).Whole? && LookAt(f, cap).peek.totalBytes == |f|
  }

  /** A decided look does not change when more bytes arrive. */
  lemma LookStable(s: bytes, t: bytes, cap: nat)
    requires !LookAt(s, cap).Partial?
    ensures LookAt(s + t, cap) == LookAt(s, cap)
  {
    PeekStable(s, t);
  }

  lemma FrameAtFront(s: bytes, cap: nat)
    requires LookAt(s, cap).Whole?
    ensures var n := LookAt(s, cap).peek.totalBytes;
            n <= |s| && IsFrame(s[..n], cap) && LookAt(s[..n], cap) == LookAt(s, cap)
  {
    hide VbiBytes;
    hide DecodeVbi;
    WholeExtent(s, cap);
    var p := LookAt(s, cap).peek;
    PeekedIsPacket(s);
    var body := s[p.headerBytes..p.totalBytes];
    PeekPacket(p.header, body, []);
    PeekPacket(p.header, body, s[p.totalBytes..]);
    assert s == s[..p.totalBytes] + s[p.totalBytes..];
    assert s[..p.totalBytes] + [] == s[..p.totalBytes];
  }

  lemma LookFrame(f: bytes, rest: bytes, cap: nat)
    requires IsFrame(f, cap)
    ensures LookAt(f + rest, cap) == LookAt(f, cap)
  {
    LookStable(f, rest, cap);
  }

  lemma {:induction false} ParseFrame(f: bytes, rest: bytes, cap: nat)
    requires IsFrame(f, cap)
    ensures Parse(f + rest, cap) == Parsed([f] + Parse(rest, cap).frames, Parse(rest, cap).verdict)
  {
    hide LookAt;
    LookFrame(f, rest, cap);
    assert (f + rest)[..|f|] == f && (f + rest)[|f|..] == rest;
  }

  /** Every byte is accounted for: the frames in order, then what is left. */
  lemma {:induction false} ParseConserves(s: bytes, cap: nat)
    ensures var r := Parse(s, cap);
            && (forall i :: 0 <= i < |r.frames| ==> IsFrame(r.frames[i], cap))
            && (r.verdict.NeedMore? ==> Flatten(r.frames) + r.verdict.rest == s)
            && 2 * |r.frames| <= |s|
    decreases |s|
  {
    hide IsFrame;
    hide LookAt;
    if LookAt(s, cap).Whole? {
      var n := LookAt(s, cap).peek.totalBytes;
      WholeExtent(s, cap);
      FrameAtFront(s, cap);
      ParseConserves(s[n..], cap);
      var more := Parse(s[n..], cap);
      FlattenConcat([s[..n]], more.frames);
      Flatten2(s[..n], []);
      hide Flatten;
      if more.verdict.NeedMore? {
        assert s[..n] + Flatten(more.frames) + more.verdict.rest == s[..n] + (Flatten(more.frames) + more.verdict.rest);
        assert s[..n] + s[n..] == s;
      }
    } else {
      assert [] + s == s;
    }
  }

  /** What is left over always leaves room in the buffer, so the receiver never wedges. */
  lemma {:induction false} LeftoverFits(s: bytes, cap: nat)
    requires Parse(s, cap).verdict.NeedMore? && cap >= 16
    ensures |Parse(s, cap).verdict.rest| < cap
    ensures LookAt(Parse(s, cap).verdict.rest, cap).Partial?
    decreases |s|
  {
    match LookAt(s, cap)
    case Whole(p) =>
      WholeExtent(s, cap);
      LeftoverFits(s[p.totalBytes..], cap);
    case _ => PartialIsShort(s, cap);
  }

  lemma PartialIsShort(s: bytes, cap: nat)
    requires LookAt(s, cap).Partial? && cap >= 16
    ensures |s| < cap
  {
    if s != [] && PeekHeader(s) == Failure(Incomplete) {
      PeekIncompleteShort(s);
    }
  }

  /** Parsing on from what was left over. */
  function Resume(r: Parsed, more: bytes, cap: nat): Parsed
  {
    match r.verdict
    case Broken(_) => r
    case NeedMore(rest) => var next := Parse(rest + more, cap); Parsed(r.frames + next.frames, next.verdict)
  }

  /** Parsing a stream in two parts is parsing it whole. */
  lemma {:induction false} ParseExtends(s: bytes, t: bytes, cap: nat)
    ensures Parse(s + t, cap) == Resume(Parse(s, cap), t, cap)
    decreases |s|
  {
    hide LookAt;
    match LookAt(s, cap)
    case Partial => assert [] + Parse(s + t, cap).frames == Parse(s + t, cap).frames;
    case Bad(e) => LookStable(s, t, cap);
    case Whole(p) =>
      var n := p.totalBytes;
      WholeExtent(s, cap);
      FrameAtFront(s, cap);
      ParseExtends(s[n..], t, cap);
      assert s + t == s[..n] + (s[n..] + t);
      ParseFrame(s[..n], s[n..] + t, cap);
      var more := Parse(s[n..], cap);
      if more.verdict.NeedMore? {
        var next := Parse(more.verdict.rest + t, cap);
        assert [s[..n]] + (more.frames + next.frames) == ([s[..n]] + more.frames) + next.frames;
      }
  }

  /** The receive loop: each piece that arrives is appended to what is held and parsed. */
  function Feed(pieces: seq<bytes>, cap: nat): Parsed
  {
    if pieces == [] then Parsed([], NeedMore([]))
    else Resume(Feed(pieces[..|pieces| - 1], cap), pieces[|pieces| - 1], cap)
  }

  /** Reassembly does not depend on fragmentation: for every stream and every way of cutting it
      into pieces, the frames found and the first framing error are those of the one-shot parse. */
  lemma {:induction false} FeedIsParse(pieces: seq<bytes>, cap: nat)
    ensures Feed(pieces, cap) == Parse(Flatten(pieces), cap)
  {
    if pieces != [] {
      var front, last := pieces[..|pieces| - 1], pieces[|pieces| - 1];
      FeedIsParse(front, cap);
      ParseExtends(Flatten(front), last, cap);
    }
  }

  //
  // A stream of packets seen through a prefix of its bytes
  //

  ghost predicate AllFrames(ps: seq<bytes>, cap: nat) { forall i :: 0 <= i < |ps| ==> IsFrame(ps[i], cap) }

  function FlattenFront(ps: seq<bytes>): bytes
  {
    if ps == [] then [] else ps[0] + FlattenFront(ps[1..])
  }

  lemma {:induction false} FlattenFrontIsFlatten(ps: seq<bytes>)
    ensures FlattenFront(ps) == Flatten(ps)
  {
    if ps != [] {
      FlattenFrontIsFlatten(ps[1..]);
      FlattenConcat([ps[0]], ps[1..]);
      Flatten2(ps[0], []);
      assert [ps[0]] + ps[1..] == ps;
    }
  }

  /** An unfinished frame is never mistaken for anything else. */
  lemma ProperPrefixIsPartial(f: bytes, k: nat, cap: nat)
    requires IsFrame(f, cap) && k < |f|
    ensures LookAt(f[..k], cap).Partial?
  {
    hide LookAt;
    if !LookAt(f[..k], cap).Partial? {
      LookStable(f[..k], f[k..], cap);
      assert f[..k] + f[k..] == f;
      if LookAt(f[..k], cap).Whole? { WholeExtent(f[..k], cap); }
    }
  }

  /** The byte stream is a FIFO of packets: from any prefix of the bytes of a sequence of packets
      the receiver recovers a prefix of that sequence, and all of it from all the bytes. */
  lemma {:induction false} PrefixDelivers(ps: seq<bytes>, n: nat, cap: nat)
    requires AllFrames(ps, cap) && n <= |FlattenFront(ps)|
    ensures var r := Parse(FlattenFront(ps)[..n], cap);
            && r.verdict.NeedMore? && r.frames <= ps
            && (n == |FlattenFront(ps)| ==> r.frames == ps && r.verdict.rest == [])
  {
    hide IsFrame;
    hide LookAt;
    var all := FlattenFront(ps);
    if ps != [] {
      var f, rest := ps[0], FlattenFront(ps[1..]);
      if n < |f| {
        assert all[..n] == f[..n];
        ProperPrefixIsPartial(f, n, cap);
      } else {
        PrefixDelivers(ps[1..], n - |f|, cap);
        assert all[..n] == f + rest[..n - |f|];
        ParseFrame(f, rest[..n - |f|], cap);
        assert [f] + ps[1..] == ps;
      }
    } else {
      assert all[..n] == [];
      EmptyIsPartial(cap);
    }
  }

  lemma EmptyIsPartial(cap: nat)
    ensures LookAt([], cap).Partial?
  {
  }

  /** The packets the client sends are frames for any receiver whose buffer can hold them. */
  lemma ImageIsFrame(o: Outgoing, cap: nat)
    requires Encodable(o) && |Image(o)| <= cap
    ensures IsFrame(Image(o), cap)
  {
    ImageFrames(o, []);
    assert Image(o) + [] == Image(o);
  }
}
