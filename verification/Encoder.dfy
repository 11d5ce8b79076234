/** The routines that write packets into a buffer (src/codec.cpp): size computation first, then
    one pass through a bounded writer that refuses a write for which there is no room. */
module Encoder {
  import opened Types
  import opened Packet
  import opened Utf8
  import opened Codec

  /** A cursor over out[start..end], as the byte stream writer keeps it. */
  class Writer {
    const buf: array<byte>
    const start: nat
    const end: nat
    var pos: nat

    ghost predicate Valid()
      reads this
    {
      start <= pos <= end <= buf.Length
    }

    ghost function Written(): bytes
      requires Valid()
      reads this, buf
    {
      buf[start..pos]
    }

    constructor (buf: array<byte>, start: nat, end: nat)
      requires start <= end <= buf.Length
      ensures this.buf == buf && this.start == start && this.end == end && pos == start
      ensures Valid() && Written() == []
    {
      this.buf, this.start, this.end, this.pos := buf, start, end, start;
    }

    /** Writes all of `data`, or nothing when it does not fit. */
    method Write(data: bytes) returns (ok: bool)
      requires Valid()
      modifies this, buf
      ensures Valid() && ok == (old(pos) + |data| <= end)
      ensures Written() == if ok then old(Written()) + data else old(Written())
      ensures forall k :: 0 <= k < buf.Length && !(old(pos) <= k < pos) ==> buf[k] == old(buf[k])
    {
      ok := |data| <= end - pos;
      if !ok { return; }
      var i := 0;
      while i < |data|
        invariant i <= |data| && pos == old(pos)
        invariant forall k :: 0 <= k < i ==> buf[pos + k] == data[k]
        invariant forall k :: 0 <= k < buf.Length && !(pos <= k < pos + i) ==> buf[k] == old(buf[k])
      {
        buf[pos + i] := data[i];
        i := i + 1;
      }
      pos := pos + |data|;
    }

    /** Writes chunk after chunk, stopping at the first that does not fit. */
    method WriteAll(chunks: seq<bytes>) returns (ok: bool)
      requires Valid()
      modifies this, buf
      ensures Valid() && ok == (old(pos) + |Flatten(chunks)| <= end)
      ensures ok ==> Written() == old(Written()) + Flatten(chunks)
      ensures forall k :: 0 <= k < buf.Length && !(old(pos) <= k < pos) ==> buf[k] == old(buf[k])
      ensures old(pos) <= pos
    {
      hide Flatten;
      var i := 0;
      ghost var text: bytes, was := [], Written();
      FlattenNone();
      assert chunks[..0] == [];
      assert was + text == was;
      while i < |chunks|
        invariant i <= |chunks| && Valid() && text == Flatten(chunks[..i]) && pos == old(pos) + |text|
        invariant Written() == was + text
        invariant forall k :: 0 <= k < buf.Length && !(old(pos) <= k < pos) ==> buf[k] == old(buf[k])
      {
        FlattenPrefixStep(chunks, i);
        ok := Write(chunks[i]);
        if !ok {
          FlattenPrefixLength(chunks, i + 1);
          return;
        }
        Regrouped(was, text, chunks[i]);
        text := text + chunks[i];
        i := i + 1;
      }
      assert chunks[..i] == chunks;
      ok := true;
    }
  }

  lemma FlattenPrefixStep(chunks: seq<bytes>, i: nat)
    requires i < |chunks|
    ensures Flatten(chunks[..i + 1]) == Flatten(chunks[..i]) + chunks[i]
  {
    assert chunks[..i + 1] == chunks[..i] + [chunks[i]];
    FlattenAppend(chunks[..i], chunks[i]);
  }

  lemma {:induction false} FlattenPrefixLength(chunks: seq<bytes>, i: nat)
    requires i <= |chunks|
    ensures |Flatten(chunks[..i])| <= |Flatten(chunks)|
  {
    assert chunks == chunks[..i] + chunks[i..];
    FlattenConcat(chunks[..i], chunks[i..]);
  }

  /** The fixed header: type and flags, then the remaining length from a four-byte scratch buffer. */
  method WriteFixedHeader(w: Writer, h: FixedHeader, remaining: u32) returns (e: Error)
    requires w.Valid()
    modifies w, w.buf
    ensures w.Valid() && old(w.pos) <= w.pos
    ensures e == if old(w.pos) + 1 > w.end then BufferTooSmall
                 else if remaining > MAX_REMAINING_LENGTH then InvalidArgument
                 else if old(w.pos) + 1 + |VbiBytes(remaining)| <= w.end then Ok
                 else BufferTooSmall
    ensures e == Ok ==> w.Written() == old(w.Written()) + ([ToByte(h)] + VbiBytes(remaining))
    ensures forall k :: 0 <= k < w.buf.Length && !(old(w.pos) <= k < w.pos) ==> w.buf[k] == old(w.buf[k])
  {
    hide VbiBytes, ToByte, VbiSize;
    if remaining <= MAX_REMAINING_LENGTH { VbiBytesLength(remaining); }
    var ok := w.Write([ToByte(h)]);
    if !ok { return BufferTooSmall; }
    var vbi := new byte[MAX_VBI_BYTES];
    var n := VbiEncode(vbi, remaining);
    if n.Failure? { return n.error; }
    var size := vbi[..n.value];
    ok := w.Write(size);
    if !ok { return BufferTooSmall; }
    Regrouped(old(w.Written()), [ToByte(h)], size);
    e := Ok;
  }

  //
  // Size computation
  //

  /** Adds to a running length, refusing to pass the largest remaining length. */
  function CheckedAdd(total: nat, add: nat): Option<nat>
  {
    if total + add > MAX_REMAINING_LENGTH then None else Some(total + add)
  }

  method PublishRemainingLength(topic: bytes, payloadLen: nat, qos: QoS) returns (r: Result<nat>)
    ensures r == PublishRemaining(topic, payloadLen, qos)
  {
    if topic == [] || |topic| > MAX_STRING_LEN { return Failure(InvalidArgument); }
    if !ValidQos(qos) { return Failure(InvalidArgument); }
    var ok := CheckString(topic);
    if !ok { return Failure(InvalidArgument); }
    var total := CheckedAdd(0, 2 + |topic|);
    if total.None? { return Failure(InvalidArgument); }
    if qos != AT_MOST_ONCE {
      total := CheckedAdd(total.value, 2);
      if total.None? { return Failure(InvalidArgument); }
    }
    total := CheckedAdd(total.value, payloadLen);
    if total.None? { return Failure(PayloadTooLarge); }
    return Success(total.value);
  }

  method CheckString(s: bytes) returns (ok: bool)
    ensures ok == IsString(s)
  {
    WellFormedIffDecodes(s);
    ok := IsValidMqttString(s);
  }

  lemma NoFilters()
    ensures |Flatten(SubscribeChunks([]))| == |Flatten(UnsubscribeChunks([]))| == 0
  {
  }

  method SubscribeRemainingLength(subs: seq<TopicSubscription>) returns (r: Result<nat>)
    ensures subs == [] || !SubsArgsOk(subs) ==> r == Failure(InvalidArgument)
    ensures subs != [] && SubsArgsOk(subs) ==>
              r == if 2 + |Flatten(SubscribeChunks(subs))| <= MAX_REMAINING_LENGTH
                   then Success(2 + |Flatten(SubscribeChunks(subs))|) else Failure(InvalidArgument)
  {
    hide IsString, Flatten, SubscribeChunks;
    if subs == [] { return Failure(InvalidArgument); }
    var total, i := 2, 0;
    NoFilters();
    assert subs[..0] == [];
    while i < |subs|
      invariant i <= |subs| && SubsArgsOk(subs[..i])
      invariant total == 2 + |Flatten(SubscribeChunks(subs[..i]))| <= MAX_REMAINING_LENGTH
    {
      var s := subs[i];
      if s.filter == [] || |s.filter| > MAX_STRING_LEN {
        assert !FilterArgOk(subs[i].filter);
        return Failure(InvalidArgument);
      }
      var ok := CheckString(s.filter);
      if !ok { assert !FilterArgOk(subs[i].filter); return Failure(InvalidArgument); }
      if !ValidQos(s.qos) { return Failure(InvalidArgument); }
      SubscribeLengthStep(subs, i);
      var sum := CheckedAdd(total, 2 + |s.filter| + 1);
      if sum.None? {
        if SubsArgsOk(subs) { SubscribeLengthMonotone(subs, i + 1); }
        return Failure(InvalidArgument);
      }
      total := sum.value;
      i := i + 1;
    }
    assert subs[..i] == subs;
    return Success(total);
  }

  lemma SubscribeLengthStep(subs: seq<TopicSubscription>, i: nat)
    requires i < |subs| && SubsArgsOk(subs[..i]) && FilterArgOk(subs[i].filter) && ValidQos(subs[i].qos)
    ensures SubsArgsOk(subs[..i + 1])
    ensures |Flatten(SubscribeChunks(subs[..i + 1]))| == |Flatten(SubscribeChunks(subs[..i]))|
            + 2 + |subs[i].filter| + 1
  {
    hide IsString;
    hide FilterArgOk;
    var s := subs[i];
    var before, after := subs[..i], subs[..i + 1];
    assert after[|after| - 1] == s && after[..|after| - 1] == before;
    assert FilterArgOk(s.filter) && |s.filter| <= MAX_STRING_LEN by { FilterLength(s.filter); }
    FlattenConcat(SubscribeChunks(before), [Field(s.filter), [s.qos]]);
    Flatten2(Field(s.filter), [s.qos]);
  }

  lemma FilterLength(f: bytes)
    requires FilterArgOk(f)
    ensures |f| <= MAX_STRING_LEN
  {
  }

  lemma {:induction false} SubscribeLengthMonotone(subs: seq<TopicSubscription>, i: nat)
    requires i <= |subs| && SubsArgsOk(subs)
    ensures |Flatten(SubscribeChunks(subs[..i]))| <= |Flatten(SubscribeChunks(subs))|
    decreases |subs| - i
  {
    hide FilterArgOk;
    hide SubscribeChunks;
    if i == |subs| {
      assert subs[..i] == subs;
    } else {
      assert FilterArgOk(subs[i].filter);
      SubscribeLengthStep(subs, i);
      SubscribeLengthMonotone(subs, i + 1);
    }
  }

  method UnsubscribeRemainingLength(filters: seq<bytes>) returns (r: Result<nat>)
    ensures filters == [] || !FiltersArgsOk(filters) ==> r == Failure(InvalidArgument)
    ensures filters != [] && FiltersArgsOk(filters) ==>
              r == if 2 + |Flatten(UnsubscribeChunks(filters))| <= MAX_REMAINING_LENGTH
                   then Success(2 + |Flatten(UnsubscribeChunks(filters))|) else Failure(InvalidArgument)
  {
    hide IsString, Flatten, UnsubscribeChunks;
    if filters == [] { return Failure(InvalidArgument); }
    var total, i := 2, 0;
    NoFilters();
    assert filters[..0] == [];
    while i < |filters|
      invariant i <= |filters| && FiltersArgsOk(filters[..i])
      invariant total == 2 + |Flatten(UnsubscribeChunks(filters[..i]))| <= MAX_REMAINING_LENGTH
    {
      var f := filters[i];
      if f == [] || |f| > MAX_STRING_LEN { assert !FilterArgOk(filters[i]); return Failure(InvalidArgument); }
      var ok := CheckString(f);
      if !ok { assert !FilterArgOk(filters[i]); return Failure(InvalidArgument); }
      UnsubscribeLengthStep(filters, i);
      var sum := CheckedAdd(total, 2 + |f|);
      if sum.None? {
        if FiltersArgsOk(filters) { UnsubscribeLengthMonotone(filters, i + 1); }
        return Failure(InvalidArgument);
      }
      total := sum.value;
      i := i + 1;
    }
    assert filters[..i] == filters;
    return Success(total);
  }

  lemma UnsubscribeLengthStep(filters: seq<bytes>, i: nat)
    requires i < |filters| && FiltersArgsOk(filters[..i]) && FilterArgOk(filters[i])
    ensures FiltersArgsOk(filters[..i + 1])
    ensures |Flatten(UnsubscribeChunks(filters[..i + 1]))| ==
            |Flatten(UnsubscribeChunks(filters[..i]))| + 2 + |filters[i]|
  {
    hide IsString;
    hide FilterArgOk;
    var f := filters[i];
    var before, after := filters[..i], filters[..i + 1];
    assert after[|after| - 1] == f && after[..|after| - 1] == before;
    FilterLength(f);
    FlattenAppend(UnsubscribeChunks(before), Field(f));
  }

  lemma {:induction false} UnsubscribeLengthMonotone(filters: seq<bytes>, i: nat)
    requires i <= |filters| && FiltersArgsOk(filters)
    ensures |Flatten(UnsubscribeChunks(filters[..i]))| <= |Flatten(UnsubscribeChunks(filters))|
    decreases |filters| - i
  {
    hide FilterArgOk;
    hide UnsubscribeChunks;
    if i == |filters| {
      assert filters[..i] == filters;
    } else {
      assert FilterArgOk(filters[i]);
      UnsubscribeLengthStep(filters, i);
      UnsubscribeLengthMonotone(filters, i + 1);
    }
  }

  /** The length of a CONNECT body; its parts are so bounded that it always fits. */
  function ConnectLength(o: ConnectOptions): nat
  {
    10 + 2 + |o.clientId|
    + (if o.will.Present() then 2 + |o.will.topic| + 2 + |o.will.payload| else 0)
    + (if o.username != [] then 2 + |o.username| else 0)
    + (if o.password != [] then 2 + |o.password| else 0)
  }

  method ConnectRemainingLength(o: ConnectOptions) returns (r: Result<nat>)
    ensures r == if ConnectArgsOk(o) then Success(ConnectLength(o)) else Failure(InvalidArgument)
  {
    hide IsString;
    if |o.clientId| > MAX_STRING_LEN { return Failure(InvalidArgument); }
    var ok := CheckString(o.clientId);
    if !ok { return Failure(InvalidArgument); }
    var total := 6 + 1 + 1 + 2;
    total := total + 2 + |o.clientId|;
    if o.will.Present() {
      if !ValidQos(o.will.qos) { return Failure(InvalidArgument); }
      if |o.will.topic| > MAX_STRING_LEN || |o.will.payload| > MAX_STRING_LEN { return Failure(InvalidArgument); }
      ok := CheckString(o.will.topic);
      if !ok { return Failure(InvalidArgument); }
      total := total + 2 + |o.will.topic| + 2 + |o.will.payload|;
    }
    if o.username != [] {
      if |o.username| > MAX_STRING_LEN { return Failure(InvalidArgument); }
      ok := CheckString(o.username);
      if !ok { return Failure(InvalidArgument); }
      total := total + 2 + |o.username|;
    }
    if o.password != [] {
      if o.username == [] { return Failure(InvalidArgument); }
      if |o.password| > MAX_STRING_LEN { return Failure(InvalidArgument); }
      total := total + 2 + |o.password|;
    }
    assert total <= MAX_REMAINING_LENGTH;
    return Success(total);
  }

  lemma ConnectLengthIsBody(o: ConnectOptions)
    requires ConnectArgsOk(o)
    ensures |Flatten(ConnectChunks(o))| == ConnectLength(o)
  {
    hide IsString;
    hide ConnectFlags;
    var head := [Field(PROTOCOL_NAME), [PROTOCOL_LEVEL], [ConnectFlags(o)], U16(o.keepAliveS), Field(o.clientId)];
    var will := if o.will.Present() then [Field(o.will.topic), Field(o.will.payload)] else [];
    var user := if o.username != [] then [Field(o.username)] else [];
    var pass := if o.password != [] then [Field(o.password)] else [];
    FlattenConcat(head + will + user, pass);
    FlattenConcat(head + will, user);
    FlattenConcat(head, will);
    assert |Flatten(head)| == 12 + |o.clientId| by { HeadLength(head); }
    if o.will.Present() { Flatten2(Field(o.will.topic), Field(o.will.payload)); }
    if o.username != [] { Flatten2(Field(o.username), []); }
    if o.password != [] { Flatten2(Field(o.password), []); }
  }

  lemma {:induction false} HeadLength(head: seq<bytes>)
    requires |head| == 5 && |head[0]| == 6 && |head[1]| == 1 && |head[2]| == 1 && |head[3]| == 2
    ensures |Flatten(head)| == 10 + |head[4]|
  {
    FlattenPrefixStep(head, 0);
    FlattenPrefixStep(head, 1);
    FlattenPrefixStep(head, 2);
    FlattenPrefixStep(head, 3);
    FlattenPrefixStep(head, 4);
    assert head[..0] == [] && head[..5] == head;
  }

  //
  // Encoding
  //

  /** The error for a packet that cannot be encoded. */
  function EncodeError(o: Outgoing): Error
    requires !Encodable(o)
  {
    if o.SendPublish? && (o.qos != AT_MOST_ONCE ==> o.id != 0) && (o.qos == AT_MOST_ONCE ==> !o.dup)
       && PublishRemaining(o.topic, |o.payload|, o.qos) == Failure(PayloadTooLarge) then PayloadTooLarge
    else InvalidArgument
  }

  /** Argument checks and size computation of every encoder. */
  method RemainingLength(o: Outgoing) returns (r: Result<nat>)
    ensures r == if Encodable(o) then Success(|BodyOf(o)|) else Failure(EncodeError(o))
  {
    hide IsString;
    hide Flatten;
    hide ConnectArgsOk;
    hide ConnectChunks;
    hide SubscribeChunks;
    hide UnsubscribeChunks;
    hide SubsArgsOk;
    hide FiltersArgsOk;
    match o
    case SendConnect(opts) =>
      r := ConnectRemainingLength(opts);
      if ConnectArgsOk(opts) { ConnectLengthIsBody(opts); ConnectLengthBounded(opts); }
    case SendPublish(topic, payload, qos, retain, dup, id) =>
      if qos != AT_MOST_ONCE && id == 0 { return Failure(InvalidArgument); }
      if qos == AT_MOST_ONCE && dup { return Failure(InvalidArgument); }
      r := PublishRemainingLength(topic, |payload|, qos);
      if r.Success? {
        PublishImage(topic, payload, qos, retain, dup, id);
        PublishBodyOf(o);
        PublishRemainingIsBodyLength(topic, payload, qos, id);
      }
    case SendAck(kind, id) =>
      if kind != Puback && kind != Pubrec && kind != Pubrel && kind != Pubcomp { return Failure(InvalidArgument); }
      if id == 0 { return Failure(InvalidArgument); }
      Flatten2(U16(id), []);
      r := Success(2);
    case SendSubscribe(id, subs) =>
      if id == 0 { return Failure(InvalidArgument); }
      r := SubscribeRemainingLength(subs);
      if SubsArgsOk(subs) { ChunkLength(id, SubscribeChunks(subs)); }
    case SendUnsubscribe(id, filters) =>
      if id == 0 { return Failure(InvalidArgument); }
      r := UnsubscribeRemainingLength(filters);
      if FiltersArgsOk(filters) { ChunkLength(id, UnsubscribeChunks(filters)); }
    case SendEmpty(kind) =>
      if kind != Pingreq && kind != Disconnect { return Failure(InvalidArgument); }
      FlattenNone();
      r := Success(0);
  }

  lemma FlattenNone()
    ensures Flatten([]) == []
  {
  }

  lemma {:induction false} ChunkLength(id: u16, rest: seq<bytes>)
    ensures |Flatten([U16(id)] + rest)| == 2 + |Flatten(rest)|
  {
    FlattenConcat([U16(id)], rest);
    Flatten2(U16(id), []);
  }

  lemma ConnectLengthBounded(o: ConnectOptions)
    requires ConnectArgsOk(o)
    ensures ConnectLength(o) <= MAX_REMAINING_LENGTH
  {
    hide IsString;
  }

  /** Writes a complete packet into out[lo..hi]. It succeeds exactly when the packet is encodable
      and fits, then writes the packet and nothing beyond it; the length in the header is the
      length of what follows. On failure nothing outside out[lo..hi] is touched. */
  method Encode(out: array<byte>, lo: nat, hi: nat, o: Outgoing) returns (r: Result<nat>)
    requires lo <= hi <= out.Length
    modifies out
    ensures !Encodable(o) ==> r == Failure(EncodeError(o)) && out[..] == old(out[..])
    ensures Encodable(o) ==>
              r == if lo + |Image(o)| <= hi then Success(|Image(o)|) else Failure(BufferTooSmall)
    ensures r.Success? ==> out[lo..lo + r.value] == Image(o)
    ensures forall k :: 0 <= k < out.Length && !(lo <= k < (if r.Success? then lo + r.value else hi)) ==>
                          out[k] == old(out[k])
  {
    var rl := RemainingLength(o);
    if rl.Failure? { return Failure(rl.error); }
    r := EmitPacket(out, lo, hi, HeaderOf(o), rl.value, ChunksOf(o));
  }

  method EmitPacket(out: array<byte>, lo: nat, hi: nat, h: FixedHeader, remaining: nat, chunks: seq<bytes>)
    returns (r: Result<nat>)
    requires lo <= hi <= out.Length && remaining == |Flatten(chunks)| <= MAX_REMAINING_LENGTH
    modifies out
    ensures var p := PacketBytes(h, Flatten(chunks));
            && r == (if lo + |p| <= hi then Success(|p|) else Failure(BufferTooSmall))
            && (r.Success? ==> out[lo..lo + |p|] == p)
    ensures forall k :: 0 <= k < out.Length && !(lo <= k < (if r.Success? then lo + r.value else hi)) ==>
                          out[k] == old(out[k])
  {
    hide VbiBytes;
    hide ToByte;
    var w := new Writer(out, lo, hi);
    var e := WriteFixedHeader(w, h, remaining);
    if e != Ok { return Failure(e); }
    ghost var head := w.Written();
    var ok := w.WriteAll(chunks);
    if !ok { return Failure(BufferTooSmall); }
    assert head + Flatten(chunks) == PacketBytes(h, Flatten(chunks));
    return Success(w.pos - w.start);
  }
}
