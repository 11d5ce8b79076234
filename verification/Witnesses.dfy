/** States at which properties that one might expect of the client fail, each written as the steps that
    connect(), step(), publish(), subscribe(), unsubscribe() and abort() are proved to take; the
    contracts of Client.dfy say exactly when the properties fail. */
module Witnesses {
  import opened Types
  import opened Codec
  import opened Encoder
  import opened Framing
  import opened Inflight
  import opened Session
  import opened SessionSteps
  import opened ClientContracts
  import opened Utf8
  import Halves
  import ServerView
  import Subscriptions
  import Topic

  /** Buffers of sixteen bytes, the least that the client accepts, and tables with a place or three. */
  const SMALL := Config(16, 16, 1, 1, 1, 2, 1, 8, 1, 1, 3, 1, 0, 0)

  const NAME: bytes := [0x61]

  /** A session that is to be resumed: its CONNECT takes 15 bytes. */
  const PERSISTENT := ConnectOptions(NAME, [], [], ServerView.NO_WILL, 0, false)

  const CONNACK: bytes := [0x20, 2, 0, 0]

  lemma PersistentPacket()
    ensures ConnectPacket(PERSISTENT) && |Image(SendConnect(PERSISTENT))| == 15
  {
    LetterDecodes();
    ConnectPacketIs(PERSISTENT);
  }

  lemma ConnackFrames()
    ensures LookAt(CONNACK, 16).Whole? && LookAt(CONNACK, 16).peek.totalBytes == 4
  {
    assert CONNACK[1..] == [2, 0, 0];
  }

  //
  // A session
  //

  /** connect() has been accepted, the transport is connected, and the CONNECT has gone out. */
  ghost function Asking(): View
  {
    PersistentPacket();
    Sent(Moved(Opened(Fresh(SMALL, 0), Image(SendConnect(PERSISTENT))), AwaitingConnack), 15)
  }

  ghost function Calling(v: View, call: Call): View { v.(log := Called(v.log, call)) }

  ghost function Resting(v: View): View { v.(log := v.log.(resting := true)) }

  /** The CONNACK has come and been handled, and on_connect called. */
  ghost function Connacked(v: View): View
  {
    var w := Moved(Begun(Received(v, CONNACK), 4), Connected);
    Resting(Shifted(Calling(w, OnConnect(ConnackInfo(0, false)))))
  }

  ghost function InSession(): View { Connacked(Asking()) }

  lemma SmallOk()
    ensures ConfigOk(SMALL)
  {
  }

  lemma AskingSound()
    ensures var v := Asking();
            && Sound(SMALL, v) && v.state == AwaitingConnack && v.rx == [] && v.txp == [] && v.log.busy == 0
            && v.outbound == [FREE_SLOT] && v.subs == [] && v.pending == [] && v.now == 0 && !v.pingOutstanding
            && v.log.pubs == [] && v.log.fates == [] && v.log.inflight == map[]
               && v.log.owed == [] && v.log.granted == {}
  {
    hide Image, CompletePacket, IsConnect, Sound, Encodable, ConfigOk;
    PersistentPacket();
    var packet := Image(SendConnect(PERSISTENT));
    SmallOk();
    FreshSound(SMALL, 0);
    var v := Fresh(SMALL, 0);
    OpenedSound(SMALL, v, packet);
    v := Opened(v, packet);
    MovedSound(SMALL, v, AwaitingConnack);
    v := Moved(v, AwaitingConnack);
    SentSound(SMALL, v, 15);
  }

  /** Nothing is queued, in flight, subscribed or requested. */
  ghost predicate Unused(v: View)
  {
    && v.state == Connected && v.txp == [] && v.outbound == [FREE_SLOT] && v.subs == [] && v.pending == [] && v.now == 0
    && v.log.owed == [] && v.log.pubs == [] && v.log.fates == [] && v.log.inflight == map[]
  }

  lemma InSessionSound()
    ensures Sound(SMALL, InSession()) && Unused(InSession())
  {
    AskingSound();
    ConnackFrames();
    hide Sound, Asking, LookAt;
    var v := Asking();
    ReceiveSound(SMALL, v, CONNACK);
    v := Received(v, CONNACK);
    assert v.rx == CONNACK;
    BeginSound(SMALL, v);
    v := Begun(v, 4);
    MovedSound(SMALL, v, Connected);
    v := Moved(v, Connected);
    CalledSound(SMALL, v, OnConnect(ConnackInfo(0, false)));
    v := Calling(v, OnConnect(ConnackInfo(0, false)));
    ShiftSound(SMALL, v);
    v := Shifted(v);
    NothingHeld();
    assert v.rx == [];
    RestSound(SMALL, v);
  }

  lemma NothingHeld()
    ensures LookAt([], 16).Partial?
  {
  }

  //
  // A full transmit queue
  //

  /** A QoS 0 PUBLISH of five bytes. */
  function Small(): bytes
    requires PublishArgsOk(NAME, [], AT_MOST_ONCE, false, 0)
  {
    PublishBytes(NAME, [], AT_MOST_ONCE, false, false, 0)
  }

  lemma SmallPacket()
    ensures PublishArgsOk(NAME, [], AT_MOST_ONCE, false, 0)
    ensures CompletePacket(Small()) && !IsConnect(Small()) && |Small()| == 5
  {
    LetterDecodes();
    assert IsString(NAME);
    hide IsString;
    PublishImageLength(NAME, [], AT_MOST_ONCE, false, false, 0);
    PublishImage(NAME, [], AT_MOST_ONCE, false, false, 0);
    hide PublishBytes, CompletePacket, IsConnect, Encodable, Image;
    ImageKind(SendPublish(NAME, [], AT_MOST_ONCE, false, false, 0));
  }

  /** Three such publications later. */
  ghost function Full(v: View): View
  {
    SmallPacket();
    Queued(Queued(Queued(v, Small()), Small()), Small())
  }

  lemma FullSound(v: View)
    requires Sound(SMALL, v) && Unused(v)
    ensures Sound(SMALL, Full(v)) && Full(v).state == Connected && |Full(v).txp| == 15
  {
    SmallPacket();
    var p := Small();
    hide CompletePacket, IsConnect, Small, Sound;
    QueueSound(SMALL, v, p);
    var w := Queued(v, p);
    QueueSound(SMALL, w, p);
    w := Queued(w, p);
    QueueSound(SMALL, w, p);
  }

  /** No room is left for a DISCONNECT: here a disconnect() closes at once. Client.ReadAfterClose and
      Client.AbortAfterClose go on from here. */
  lemma FullQueue()
    ensures var v := Full(InSession()); Sound(SMALL, v) && v.state == Connected && |v.txp| + 2 > SMALL.txBufferSize
  {
    InSessionSound();
    hide Sound, InSession, Full;
    FullSound(InSession());
  }

  //
  // A refused connect()
  //

  const FIRST := Halves.Anonymous(1, AT_LEAST_ONCE)

  lemma FirstPacket()
    ensures Publishable(FIRST) && |PublishOf(FIRST, false)| == 7
  {
    Halves.AnonymousPublishable(1, AT_LEAST_ONCE);
    PublishImageLength(FIRST.topic, FIRST.payload, FIRST.qos, FIRST.retain, false, FIRST.id);
    hide IsString, PublishBytes;
  }

  /** A QoS 1 publication has been accepted, and then the connection dropped, and on_disconnect called. */
  ghost function Lost(v: View): View
    requires |v.outbound| == 1
  {
    FirstPacket();
    var packet := PublishOf(FIRST, false);
    var w := Closed(Taken(Queued(v, packet), 0, NewSlot(FIRST, packet, 0), FIRST, 0), TransportClosed, 0);
    w.(log := Told(w.log))
  }

  lemma LostSound(v: View)
    requires Sound(SMALL, v) && Unused(v)
    ensures Sound(SMALL, Lost(v)) && Lost(v).state == Idle && Lost(v).log.fates == [InFlight]
  {
    FirstPacket();
    PublishComplete(FIRST);
    NewSlotStores(FIRST, 0);
    var packet := PublishOf(FIRST, false);
    var s := NewSlot(FIRST, packet, 0);
    hide CompletePacket, IsConnect, PublishOf, Stores, Publishable, Sound;
    QueueSound(SMALL, v, packet);
    var w := Queued(v, packet);
    TakenSound(SMALL, w, 0, s, FIRST, 0);
    w := Taken(w, 0, s, FIRST, 0);
    ClosedSound(SMALL, w, TransportClosed, 0);
    w := Closed(w, TransportClosed, 0);
    ToldSound(SMALL, w);
  }

  /** A clean session whose CONNECT takes 21 bytes. */
  const TOO_LONG := ConnectOptions([], NAME, [0, 0], ServerView.NO_WILL, 0, true)

  /** connect() refuses these options, as it has no room for the packet, and yet gives up the
      publication: a refused connect() does not leave everything as it was. */
  lemma RefusedConnectDiscards()
    ensures Unused(InSession())
    ensures var v := Lost(InSession());
            && Sound(SMALL, v) && v.state == Idle && v.log.fates == [InFlight]
            && Cleaned(v, true).log.fates == [Fate.Discarded]
    ensures TOO_LONG.cleanSession && OptionsOk(SMALL, TOO_LONG) && ConnectArgsOk(TOO_LONG)
    ensures PacketSize(ConnectLength(TOO_LONG)) > SMALL.txBufferSize
  {
    TooLong();
    InSessionSound();
    hide Sound, Lost, InSession, Cleaned, OptionsOk, ConnectArgsOk, ConnectLength, PacketSize;
    LostSound(InSession());
    CleanedFates(Lost(InSession()));
  }

  lemma TooLong()
    ensures TOO_LONG.cleanSession && OptionsOk(SMALL, TOO_LONG) && ConnectArgsOk(TOO_LONG)
    ensures PacketSize(ConnectLength(TOO_LONG)) > SMALL.txBufferSize
  {
    LetterDecodes();
  }

  lemma CleanedFates(v: View)
    requires v.log.fates == [InFlight]
    ensures Cleaned(v, true).log.fates == [Fate.Discarded]
  {
    assert AllDiscarded([InFlight]) == [Fate.Discarded];
  }

  //
  // An UNSUBACK after a new subscribe
  //

  const ASKED := [TopicSubscription(NAME, 0)]
  const ROWS := [Subscriptions.Row(1, NAME, 0, 0, false, true)]

  lemma RequestPackets(id: u16)
    requires id != 0
    ensures var p := SendSubscribe(id, ASKED);
            Encodable(p) && CompletePacket(Image(p)) && !IsConnect(Image(p)) && |Image(p)| == 8
    ensures var p := SendUnsubscribe(id, [NAME]);
            Encodable(p) && CompletePacket(Image(p)) && !IsConnect(Image(p)) && |Image(p)| == 7
  {
    LetterDecodes();
    assert IsString(NAME);
    hide IsString;
    assert ASKED[..0] == [] && [NAME][..0] == [];
    assert SubscribeChunks(ASKED) == [Field(NAME), [0]];
    assert UnsubscribeChunks([NAME]) == [Field(NAME)];
    Flatten2(Field(NAME), [0]);
    Flatten2(Field(NAME), []);
    SubscribeImageLength(id, ASKED);
    UnsubscribeImageLength(id, [NAME]);
    ImageKind(SendSubscribe(id, ASKED));
    ImageKind(SendUnsubscribe(id, [NAME]));
  }

  lemma RowsFine()
    ensures Subscriptions.TableOk(ROWS, 1)
  {
    LetterDecodes();
    WellFormedIffDecodes(NAME);
    assert Topic.LevelEnd(NAME, 0) == 1;
    assert Topic.Levels(NAME) == [NAME];
  }

  /** A request is queued, awaited and sent. */
  ghost function Requesting(v: View, packet: bytes, ack: Subscriptions.PendingAck): (w: View)
    requires v.txp == []
    ensures w.txp == [] && w.pending == v.pending + [ack] && w.subs == ROWS && w.state == v.state
    ensures w.log.inflight == v.log.inflight
  {
    assert v.txp + packet == packet;
    Sent(Requested(Queued(v, packet), ROWS, ack), |packet|)
  }

  function SubscribeAck(id: u16): Subscriptions.PendingAck { Subscriptions.PendingAck(id, Suback, [1], 0) }

  function UnsubscribeAck(id: u16): Subscriptions.PendingAck { Subscriptions.PendingAck(id, Unsuback, [1], 0) }

  /** subscribe(), unsubscribe() and again subscribe(), all for the same filter and none answered yet. */
  ghost function AskedAgain(v: View): View
    requires v.txp == []
  {
    RequestPackets(1);
    RequestPackets(2);
    RequestPackets(3);
    Thrice(v, Image(SendSubscribe(1, ASKED)), Image(SendUnsubscribe(2, [NAME])), Image(SendSubscribe(3, ASKED)))
  }

  ghost function Thrice(v: View, p: bytes, q: bytes, r: bytes): View
    requires v.txp == []
  {
    Requesting(Requesting(Requesting(v, p, SubscribeAck(1)), q, UnsubscribeAck(2)), r, SubscribeAck(3))
  }

  lemma RequestingSound(v: View, packet: bytes, ack: Subscriptions.PendingAck)
    requires Sound(SMALL, v) && v.state == Connected && v.txp == [] && |v.pending| < 3
             && (v.subs == [] || v.subs == ROWS)
    requires CompletePacket(packet) && !IsConnect(packet) && |packet| <= 16 && v.log.inflight == map[]
    requires ack == SubscribeAck(ack.packetId) || (ack == UnsubscribeAck(ack.packetId) && SubscribeAck(1) in v.pending)
    requires ack.packetId != 0 && forall k :: 0 <= k < |v.pending| ==> v.pending[k].packetId != ack.packetId
    ensures Sound(SMALL, Requesting(v, packet, ack))
  {
    RowsFine();
    hide CompletePacket, IsConnect, Sound, Subscriptions.TableOk;
    QueueSound(SMALL, v, packet);
    var w := Queued(v, packet);
    if ack.expected == Unsuback {
      var k :| 0 <= k < |v.pending| && v.pending[k] == SubscribeAck(1);
      assert v.pending[k].subs[0] == 1;
      assert Subscriptions.Named(v.pending, 1);
    }
    RequestedSound(SMALL, w, ROWS, ack);
    SentSound(SMALL, Requested(w, ROWS, ack), |packet|);
  }

  ghost predicate Sendable(packet: bytes) { CompletePacket(packet) && !IsConnect(packet) && |packet| <= 16 }

  lemma ThriceSound(v: View, p: bytes, q: bytes, r: bytes)
    requires Sound(SMALL, v) && Unused(v) && Sendable(p) && Sendable(q) && Sendable(r)
    ensures var w := Thrice(v, p, q, r);
            Sound(SMALL, w) && w.subs == ROWS && w.pending == [SubscribeAck(1), UnsubscribeAck(2), SubscribeAck(3)]
  {
    hide CompletePacket, IsConnect, Sound, Requesting;
    RequestingSound(v, p, SubscribeAck(1));
    var w := Requesting(v, p, SubscribeAck(1));
    assert w.pending == [SubscribeAck(1)];
    RequestingSound(w, q, UnsubscribeAck(2));
    w := Requesting(w, q, UnsubscribeAck(2));
    assert w.pending == [SubscribeAck(1), UnsubscribeAck(2)];
    RequestingSound(w, r, SubscribeAck(3));
  }

  lemma AskedAgainSound(v: View)
    requires Sound(SMALL, v) && Unused(v)
    ensures var w := AskedAgain(v);
            Sound(SMALL, w) && w.subs == ROWS && w.pending == [SubscribeAck(1), UnsubscribeAck(2), SubscribeAck(3)]
  {
    RequestPackets(1);
    RequestPackets(2);
    RequestPackets(3);
    hide CompletePacket, IsConnect, Sound, Image, Encodable, Thrice;
    ThriceSound(v, Image(SendSubscribe(1, ASKED)), Image(SendUnsubscribe(2, [NAME])), Image(SendSubscribe(3, ASKED)));
  }

  /** The UNSUBACK for the second request erases the row that the third, still outstanding, asked for. */
  lemma UnsubackForgets()
    ensures Unused(InSession())
    ensures var v := AskedAgain(InSession());
            && Sound(SMALL, v) && v.subs == ROWS && v.pending == [SubscribeAck(1), UnsubscribeAck(2), SubscribeAck(3)]
            && var b := Drop(Tables(v.log, v.subs, v.pending), 1);
               b.subs == [] && b.pending == [SubscribeAck(1), SubscribeAck(3)]
  {
    InSessionSound();
    hide Sound, InSession, AskedAgain;
    AskedAgainSound(InSession());
    assert Subscriptions.Without(ROWS[1..], [1]) == [];
  }
}
