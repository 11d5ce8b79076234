/** What the peer reads: an independent reading of CONNECT (section 3.1) and SUBSCRIBE
    (section 3.8) of MQTT 3.1.1, and the proof that it recovers what the client encoded, for
    every mix of will, user name and password and any number of filters. */
module ServerView {
  import opened Types
  import opened Codec
  import Encoder

  function TakeField(s: bytes): Option<(bytes, bytes)>
  {
    if |s| < 2 || |s| < 2 + ReadU16(s[0], s[1]) then None
    else var n := ReadU16(s[0], s[1]); Some((s[2..2 + n], s[2 + n..]))
  }

  lemma TakeFieldOf(f: bytes, rest: bytes)
    requires |f| <= MAX_STRING_LEN
    ensures TakeField(Field(f) + rest) == Some((f, rest))
  {
    var s := Field(f) + rest;
    U16RoundTrip(|f|);
    assert s[0] == U16(|f|)[0] && s[1] == U16(|f|)[1];
    assert s[2..2 + |f|] == f && s[2 + |f|..] == rest;
  }

  //
  // SUBSCRIBE
  //

  /** Filter and requested QoS, repeated to the end of the payload. */
  function ReadSubscriptions(s: bytes): Option<seq<TopicSubscription>>
    decreases |s|
  {
    if s == [] then Some([])
    else
      match TakeField(s)
      case None => None
      case Some((filter, rest)) =>
        if rest == [] then None
        else
          match ReadSubscriptions(rest[1..])
          case None => None
          case Some(more) => Some([TopicSubscription(filter, rest[0])] + more)
  }

  /** The payload front to back, as the peer sees it. */
  function SubscribePayload(subs: seq<TopicSubscription>): bytes
    requires SubsArgsOk(subs)
  {
    if subs == [] then [] else Field(subs[0].filter) + [subs[0].qos] + SubscribePayload(subs[1..])
  }

  lemma {:induction false} PayloadAppend(subs: seq<TopicSubscription>, s: TopicSubscription)
    requires SubsArgsOk(subs) && FilterArgOk(s.filter) && ValidQos(s.qos)
    ensures SubsArgsOk(subs + [s]) && SubscribePayload(subs + [s]) == SubscribePayload(subs) + Field(s.filter) + [s.qos]
  {
    hide FilterArgOk;
    hide Field;
    Encoder.FilterLength(s.filter);
    assert SubsArgsOk(subs + [s]);
    if subs == [] {
      assert subs + [s] == [s] && [s][1..] == [];
      assert SubscribePayload([s]) == Field(s.filter) + [s.qos] + [];
    } else {
      assert (subs + [s])[1..] == subs[1..] + [s];
      PayloadAppend(subs[1..], s);
      assert FilterArgOk(subs[0].filter);
      Encoder.FilterLength(subs[0].filter);
      var a, b := Field(subs[0].filter) + [subs[0].qos], SubscribePayload(subs[1..]);
      assert a + (b + Field(s.filter) + [s.qos]) == a + b + Field(s.filter) + [s.qos];
    }
  }

  lemma {:induction false} PayloadIsFlattened(subs: seq<TopicSubscription>)
    requires SubsArgsOk(subs)
    ensures Flatten(SubscribeChunks(subs)) == SubscribePayload(subs)
  {
    hide FilterArgOk;
    hide Field;
    if subs != [] {
      var front, s := subs[..|subs| - 1], subs[|subs| - 1];
      assert front + [s] == subs;
      assert FilterArgOk(s.filter);
      Encoder.FilterLength(s.filter);
      PayloadIsFlattened(front);
      PayloadAppend(front, s);
      FlattenConcat(SubscribeChunks(front), [Field(s.filter), [s.qos]]);
      Flatten2(Field(s.filter), [s.qos]);
      assert SubscribePayload(front) + (Field(s.filter) + [s.qos]) == SubscribePayload(front)
          + Field(s.filter) + [s.qos];
    }
  }

  lemma {:induction false} ReadPayload(subs: seq<TopicSubscription>)
    requires SubsArgsOk(subs)
    ensures ReadSubscriptions(SubscribePayload(subs)) == Some(subs)
  {
    hide FilterArgOk, Field, ReadSubscriptions;
    if subs == [] {
      NothingRead();
    } else {
      var s, more := subs[0], SubscribePayload(subs[1..]);
      assert FilterArgOk(s.filter);
      Encoder.FilterLength(s.filter);
      ReadPayload(subs[1..]);
      ReadOne(s, more, subs[1..]);
      assert [s] + subs[1..] == subs;
    }
  }

  lemma NothingRead()
    ensures ReadSubscriptions([]) == Some([])
  {
  }

  lemma {:induction false} ReadOne(s: TopicSubscription, more: bytes, rest: seq<TopicSubscription>)
    requires |s.filter| <= MAX_STRING_LEN && ReadSubscriptions(more) == Some(rest)
    ensures ReadSubscriptions(Field(s.filter) + [s.qos] + more) == Some([s] + rest)
  {
    TakeFieldOf(s.filter, [s.qos] + more);
    hide TakeField, Field;
    assert Field(s.filter) + [s.qos] + more == Field(s.filter) + ([s.qos] + more);
    assert ([s.qos] + more)[1..] == more;
    assert |Field(s.filter) + ([s.qos] + more)| > 0;
  }

  /** The peer reads from a SUBSCRIBE exactly the packet id and the subscriptions requested. */
  lemma SubscribeUnderstood(id: u16, subs: seq<TopicSubscription>)
    requires ArgsOk(SendSubscribe(id, subs))
    ensures var body := BodyOf(SendSubscribe(id, subs));
            |body| >= 2 && ReadU16(body[0], body[1]) == id && ReadSubscriptions(body[2..]) == Some(subs)
  {
    U16RoundTrip(id);
    FlattenConcat([U16(id)], SubscribeChunks(subs));
    Flatten2(U16(id), []);
    hide Flatten;
    PayloadIsFlattened(subs);
    ReadPayload(subs);
    var body := BodyOf(SendSubscribe(id, subs));
    assert body == U16(id) + SubscribePayload(subs);
    assert body[2..] == SubscribePayload(subs);
  }

  //
  // CONNECT
  //

  function Bit(flags: byte, weight: nat): bool
    requires weight > 0
  {
    flags / weight % 2 == 1
  }

  const NO_WILL := Will([], [], AT_MOST_ONCE, false)

  function TakeIf(present: bool, s: bytes): Option<(bytes, bytes)> { if present then TakeField(s) else Some(([], s)) }

  datatype Payload = Payload(clientId: bytes, topic: bytes, message: bytes, user: bytes, password: bytes)

  /** The fields after the fixed part, each present as its flag says. */
  function ReadConnectPayload(will: bool, user: bool, password: bool, s: bytes): Option<Payload>
  {
    match TakeField(s)
    case None => None
    case Some((c, r0)) =>
      match TakeIf(will, r0)
      case None => None
      case Some((t, r1)) =>
        match TakeIf(will, r1)
        case None => None
        case Some((m, r2)) =>
          match TakeIf(user, r2)
          case None => None
          case Some((u, r3)) =>
            match TakeIf(password, r3)
            case None => None
            case Some((p, r4)) => if r4 != [] then None else Some(Payload(c, t, m, u, p))
  }

  function ReadConnect(b: bytes): Option<ConnectOptions>
  {
    if |b| < 10 || b[..6] != Field(PROTOCOL_NAME) || b[6] != PROTOCOL_LEVEL then None
    else
      var flags := b[7];
      match ReadConnectPayload(Bit(flags, 4), Bit(flags, 128), Bit(flags, 64), b[10..])
      case None => None
      case Some(p) =>
        var will := if Bit(flags, 4) then Will(p.topic, p.message, flags / 8 % 4, Bit(flags, 32)) else NO_WILL;
        Some(ConnectOptions(p.clientId, p.user, p.password, will, ReadU16(b[8], b[9]), Bit(flags, 2)))
  }

  function One(b: bool): nat { if b then 1 else 0 }

  lemma FlagSum(o: ConnectOptions)
    requires o.will.Present() ==> ValidQos(o.will.qos)
    ensures var w := o.will.Present();
            ConnectFlags(o) == 2 * One(o.cleanSession) + 4 * One(w) + 8 * (if w then o.will.qos else 0)
                               + 32 * One(w && o.will.retain) + 64 * One(o.password != []) + 128 * One(o.username != [])
  {
  }

  lemma FlagBits(o: ConnectOptions)
    requires o.will.Present() ==> ValidQos(o.will.qos)
    ensures var f := ConnectFlags(o);
            && Bit(f, 2) == o.cleanSession && Bit(f, 4) == o.will.Present()
            && (o.will.Present() ==> f / 8 % 4 == o.will.qos && Bit(f, 32) == o.will.retain)
            && Bit(f, 64) == (o.password != []) && Bit(f, 128) == (o.username != [])
  {
    hide ConnectFlags;
    FlagSum(o);
    var w := o.will.Present();
    BitsOf(One(o.cleanSession), One(w), if w then o.will.qos else 0, One(w && o.will.retain), One(o.password != []),
           One(o.username != []));
  }

  lemma BitsOf(clean: nat, will: nat, qos: nat, retain: nat, password: nat, username: nat)
    requires clean < 2 && will < 2 && qos < 4 && retain < 2 && password < 2 && username < 2
    ensures var f := 2 * clean + 4 * will + 8 * qos + 32 * retain + 64 * password + 128 * username;
            && f / 2 % 2 == clean && f / 4 % 2 == will && f / 8 % 4 == qos && f / 32 % 2 == retain
            && f / 64 % 2 == password && f / 128 % 2 == username
  {
    var f := 2 * clean + 4 * will + 8 * qos + 32 * retain + 64 * password + 128 * username;
    assert f / 128 == username && f / 64 == 2 * username + password && f / 32 == 4 * username + 2 * password + retain;
    assert f / 8 == 16 * username + 8 * password + 4 * retain + qos;
    assert f / 4 == 2 * (f / 8) + will && f / 2 == 2 * (f / 4) + clean;
  }

  function Optional(present: bool, f: bytes): bytes
    requires |f| <= MAX_STRING_LEN
  {
    if present then Field(f) else []
  }

  lemma TakeIfOf(present: bool, f: bytes, rest: bytes)
    requires |f| <= MAX_STRING_LEN
    ensures TakeIf(present, Optional(present, f) + rest) == Some((if present then f else [], rest))
  {
    if present { TakeFieldOf(f, rest); } else { assert [] + rest == rest; }
  }

  function ConnectStart(o: ConnectOptions): bytes
  {
    Field(PROTOCOL_NAME) + [PROTOCOL_LEVEL] + [ConnectFlags(o)] + U16(o.keepAliveS)
  }

  /** A will's topic and message, empty when there is no will. */
  function WillTopic(o: ConnectOptions): bytes { if o.will.Present() then o.will.topic else [] }
  function WillMessage(o: ConnectOptions): bytes { if o.will.Present() then o.will.payload else [] }

  /** The payload of a CONNECT, read from the back: each field in front of what follows it. */
  function ConnectNested(o: ConnectOptions): bytes
    requires ConnectArgsOk(o)
  {
    Field(o.clientId) + (Optional(o.will.Present(), WillTopic(o)) + (Optional(o.will.Present(), WillMessage(o))
      + (Optional(o.username != [], o.username) + (Optional(o.password != [], o.password) + []))))
  }

  lemma ConnectBodyNested(o: ConnectOptions)
    requires ConnectArgsOk(o)
    ensures Flatten(ConnectChunks(o)) == ConnectStart(o) + ConnectNested(o)
  {
    hide IsString;
    hide ConnectFlags;
    hide Field;
    hide U16;
    var start := [Field(PROTOCOL_NAME), [PROTOCOL_LEVEL], [ConnectFlags(o)], U16(o.keepAliveS)];
    var head := [Field(PROTOCOL_NAME), [PROTOCOL_LEVEL], [ConnectFlags(o)], U16(o.keepAliveS), Field(o.clientId)];
    var will := if o.will.Present() then [Field(o.will.topic), Field(o.will.payload)] else [];
    var user := if o.username != [] then [Field(o.username)] else [];
    var pass := if o.password != [] then [Field(o.password)] else [];
    FlattenConcat(head + will + user, pass);
    FlattenConcat(head + will, user);
    FlattenConcat(head, will);
    StartFlattened(o);
    assert head == start + [Field(o.clientId)];
    FlattenAppend(start, Field(o.clientId));
    var f1 := if o.will.Present() then Field(o.will.topic) + Field(o.will.payload) else [];
    var f2 := if o.username != [] then Field(o.username) else [];
    var f3 := if o.password != [] then Field(o.password) else [];
    assert Flatten(will) == f1 by { if o.will.Present() { Flatten2(Field(o.will.topic), Field(o.will.payload)); } }
    assert Flatten(user) == f2 by { if o.username != [] { Flatten2(Field(o.username), []); } }
    assert Flatten(pass) == f3 by { if o.password != [] { Flatten2(Field(o.password), []); } }
    hide Flatten;
    assert Flatten(ConnectChunks(o)) == ConnectStart(o) + Field(o.clientId) + f1 + f2 + f3;
    hide ConnectStart;
    hide ConnectChunks;
    Regroup(o, f1, f2, f3);
  }

  lemma StartFlattened(o: ConnectOptions)
    ensures Flatten([Field(PROTOCOL_NAME), [PROTOCOL_LEVEL], [ConnectFlags(o)], U16(o.keepAliveS)]) == ConnectStart(o)
  {
    hide ConnectFlags;
    hide Field;
    hide U16;
    var a, b, c, d: bytes := Field(PROTOCOL_NAME), [PROTOCOL_LEVEL], [ConnectFlags(o)], U16(o.keepAliveS);
    Flatten2(a, b);
    FlattenAppend([a, b], c);
    assert [a, b] + [c] == [a, b, c];
    FlattenAppend([a, b, c], d);
    assert [a, b, c] + [d] == [a, b, c, d];
  }

  lemma Regroup(o: ConnectOptions, f1: bytes, f2: bytes, f3: bytes)
    requires ConnectArgsOk(o)
    requires f1 == if o.will.Present() then Field(o.will.topic) + Field(o.will.payload) else []
    requires f2 == (if o.username != [] then Field(o.username) else []) && f3 == if o.password != []
             then Field(o.password) else []
    ensures ConnectStart(o) + Field(o.clientId) + f1 + f2 + f3 == ConnectStart(o) + ConnectNested(o)
  {
    hide IsString;
    hide Field;
    hide ConnectStart;
    var s, c := ConnectStart(o), Field(o.clientId);
    assert f3 + [] == f3;
    Regrouped(s + c + f1, f2, f3);
    Regrouped(s + c, f1, f2 + f3);
    Regrouped(s, c, f1 + (f2 + f3));
    if o.will.Present() {
      Regrouped(Field(o.will.topic), Field(o.will.payload), f2 + f3);
    } else {
      Regrouped([], [], f2 + f3);
    }
  }

  lemma PayloadUnderstood(o: ConnectOptions)
    requires ConnectArgsOk(o)
    ensures ReadConnectPayload(o.will.Present(), o.username != [], o.password != [], ConnectNested(o)) ==
            Some(Payload(o.clientId, WillTopic(o), WillMessage(o), o.username, o.password))
  {
    hide IsString;
    hide TakeField;
    hide Field;
    var w := o.will.Present();
    var r3 := Optional(o.password != [], o.password) + [];
    var r2 := Optional(o.username != [], o.username) + r3;
    var r1 := Optional(w, WillMessage(o)) + r2;
    var r0 := Optional(w, WillTopic(o)) + r1;
    TakeIfOf(o.password != [], o.password, []);
    TakeIfOf(o.username != [], o.username, r3);
    TakeIfOf(w, WillMessage(o), r2);
    TakeIfOf(w, WillTopic(o), r1);
    TakeFieldOf(o.clientId, r0);
    hide TakeIf;
    hide Optional;
  }

  /** The peer reads from a CONNECT exactly the options it was made from; of a will that is not
      there nothing is sent. */
  lemma ConnectUnderstood(o: ConnectOptions)
    requires ConnectArgsOk(o)
    ensures ReadConnect(BodyOf(SendConnect(o))) == Some(if o.will.Present() then o else o.(will := NO_WILL))
  {
    ConnectBodyNested(o);
    FlagBits(o);
    PayloadUnderstood(o);
    StartFields(o, ConnectNested(o));
    hide IsString;
    hide ConnectFlags;
    hide Bit;
    hide Flatten;
    hide ConnectChunks;
    hide ConnectNested;
    hide ReadConnectPayload;
    hide ConnectStart;
    hide Field;
  }

  lemma StartFields(o: ConnectOptions, rest: bytes)
    ensures var b := ConnectStart(o) + rest;
            && |b| >= 10 && b[..6] == Field(PROTOCOL_NAME) && b[6] == PROTOCOL_LEVEL && b[7] == ConnectFlags(o)
            && ReadU16(b[8], b[9]) == o.keepAliveS && b[10..] == rest
  {
    hide ConnectFlags;
    U16RoundTrip(o.keepAliveS);
    var b := ConnectStart(o) + rest;
    assert |Field(PROTOCOL_NAME)| == 6;
    assert b[8] == U16(o.keepAliveS)[0] && b[9] == U16(o.keepAliveS)[1];
  }
}
