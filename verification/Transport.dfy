/** The transport and clock that the client borrows (include/mqtt/transport.hpp): any behaviour
    that keeps their contracts, and the wrap-safe difference of two clock readings. */
module Transport {
  import opened Types

  const CLOCK_RANGE: nat := 0x1_0000_0000

  /** Unsigned 32-bit subtraction. */
  function ElapsedMs(now: u32, since: u32): u32
  {
    if now >= since then now - since else now - since + CLOCK_RANGE
  }

  /** Over a clock that wraps, the difference of two readings is the true difference modulo 2^32:
      never more than the time that passed, and exactly that as long as less than a full turn did. */
  lemma ElapsedIsTrueTime(now: nat, since: nat)
    requires since <= now
    ensures var e := ElapsedMs(now % CLOCK_RANGE, since % CLOCK_RANGE);
            && e == (now - since) % CLOCK_RANGE && e <= now - since
            && (e == now - since <==> now - since < CLOCK_RANGE)
  {
    var qn, rn, qs, rs := now / CLOCK_RANGE, now % CLOCK_RANGE, since / CLOCK_RANGE, since % CLOCK_RANGE;
    var d := now - since;
    assert d == CLOCK_RANGE * (qn - qs) + (rn - rs);
    if rn >= rs {
      Residue(d, qn - qs, rn - rs);
    } else {
      assert d == CLOCK_RANGE * (qn - qs - 1) + (rn - rs + CLOCK_RANGE);
      Residue(d, qn - qs - 1, rn - rs + CLOCK_RANGE);
    }
  }

  lemma Residue(d: nat, q: int, r: nat)
    requires d == CLOCK_RANGE * q + r && r < CLOCK_RANGE
    ensures d % CLOCK_RANGE == r && r <= d && (r == d <==> d < CLOCK_RANGE)
  {
    assert q >= 0;
  }

  /** A monotonic time source; `now` is the true time, of which callers see 32 bits. */
  class Clock {
    var now: nat

    constructor ()
    {
      now := 0;
    }

    method NowMs() returns (t: u32)
      modifies this
      ensures now >= old(now) && t == now % CLOCK_RANGE
    {
      var passed: int := *;
      if passed > 0 { now := now + passed; }
      t := now % CLOCK_RANGE;
    }
  }

  /** A byte stream that may do anything its contract allows. `open` says whether it is between
      a successful connect() and the next close(). */
  class Link {
    var open: bool

    constructor ()
      ensures !open
    {
      open := false;
    }

    method Connect() returns (e: Error)
      modifies this
      ensures e == Ok || e == WouldBlock || e == TransportFailure
      ensures open == (e == Ok)
    {
      e := *;
      if e != Ok && e != WouldBlock { e := TransportFailure; }
      open := e == Ok;
    }

    /** Only ever called on an open stream. */
    method Send(data: bytes) returns (e: Error, written: nat)
      requires open
      ensures e == Ok || e == WouldBlock || e == TransportClosed || e == TransportFailure
      ensures written <= |data| && (e != Ok ==> written == 0)
    {
      e := *;
      if e != Ok && e != WouldBlock && e != TransportClosed { e := TransportFailure; }
      written := *;
      if e != Ok { written := 0; }
      if written > |data| { written := |data|; }
    }

    /** A stream that has been torn down produces nothing more. */
    method Recv(room: nat) returns (e: Error, data: bytes)
      ensures e == Ok || e == WouldBlock || e == TransportClosed || e == TransportFailure
      ensures |data| <= room && (e != Ok || !open ==> data == [])
    {
      e := *;
      if e != Ok && e != WouldBlock && e != TransportClosed { e := TransportFailure; }
      data := *;
      if e != Ok || !open { data := []; }
      if |data| > room { data := data[..room]; }
    }

    method Close()
      modifies this
      ensures !open
    {
      open := false;
    }
  }
}
