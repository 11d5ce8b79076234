/** The MQTT client (include/mqtt/client.hpp): one object whose operations update its tables,
    buffers and timers, driven by step() and by the application, whose handlers may call back
    into it. The ghost `log` records what happened; `Valid` ties it to the fields. */
module Client {
  import opened Types
  import opened Codec
  import opened Encoder
  import opened Framing
  import opened Transport
  import opened ExactlyOnce
  import opened Inflight
  import opened Session
  import opened SessionSteps
  import opened ClientContracts
  import Halves
  import Inbound
  import Outbound
  import Subscriptions
  import IdAllocator
  import TxQueue
  import Topic

  /** A call by the application, from inside a handler or from its main loop. */
  datatype Act =
    | DoNothing
    | DoPublish(topic: bytes, payload: bytes, qos: QoS, retain: bool)
    | DoSubscribe(subs: seq<TopicSubscription>, handler: bool)
    | DoUnsubscribe(filters: seq<bytes>)
    | DoDisconnect
    | DoAbort
    | DoConnect(options: ConnectOptions)
    | DoStep

  class Client {
    const cfg: Config
    const link: Link
    const clock: Clock
    const tx: TxQueue.Queue
    const rx: array<byte>
    var rxLen: nat

    var outbound: seq<Slot>
    var inboundIds: seq<u16>
    var subscriptions: Subscriptions.Table
    var pending: seq<Subscriptions.PendingAck>

    var connack: ConnackInfo
    var state: State
    var lastError: Error
    var inStep: bool

    var keepAliveMs: u32
    var lastSentMs: u32
    var lastReceivedMs: u32
    var pingSentMs: u32
    var connectStartedMs: u32
    var inboundOverflowCount: nat
    var txBackpressureCount: nat
    var nextPacketId: u16
    var nextSubId: u16
    var pingOutstanding: bool
    var cleanSession: bool
    var retransmitNow: bool

    ghost var log: Log

    ghost predicate Shapes()
      reads this`rxLen, tx
    {
      && tx.Valid() && tx.buffer.Length == cfg.txBufferSize
      && rx.Length == cfg.rxBufferSize && tx.buffer != rx && rxLen <= rx.Length
    }

    lemma QueueOk()
      requires Valid()
      ensures tx.Valid()
    {
    }

    lemma Shaped()
      requires Valid()
      ensures Shapes()
    {
    }

    ghost function Snapshot(): View
      requires Shapes()
      reads this`state, this`rxLen, this`outbound, this`inboundIds, this`subscriptions, this`pending,
            this`pingOutstanding, this`pingSentMs, this`log, tx, tx.buffer, rx, clock
    {
      View(state, rx[..rxLen], tx.Pending(), outbound, inboundIds, subscriptions, pending,
           pingOutstanding, pingSentMs, clock.now, log)
    }

    /** What holds also when a handler is yet to be called. */
    ghost predicate Consistent()
      reads this`state, this`rxLen, this`outbound, this`inboundIds, this`subscriptions, this`pending,
            this`pingOutstanding, this`pingSentMs, this`log, this`inStep, tx, tx.buffer, rx, link, clock
    {
      Shapes() && Sound(cfg, Snapshot()) && link.open == Online(state) && (inStep || log.resting)
    }

    /** The object invariant: between any two calls, and whenever a handler runs. */
    ghost predicate Valid()
      reads this`state, this`rxLen, this`outbound, this`inboundIds, this`subscriptions, this`pending,
            this`pingOutstanding, this`pingSentMs, this`log, this`inStep, tx, tx.buffer, rx, link, clock
    {
      Consistent() && log.owed == []
    }

    lemma NothingOwed()
      requires Consistent() && log.owed == []
      ensures Valid()
    {
    }

    ghost function Here(): Mark
      reads this`state, this`rxLen, this`lastError, this`log
    {
      Mark(log.connects, log.notices, state, rxLen, log.received, log.frames, log.busy, lastError,
          log.late, log.counts.hardCloses)
    }

    constructor (cfg: Config, link: Link, clock: Clock)
      requires ConfigOk(cfg) && !link.open
      ensures Valid() && this.cfg == cfg && this.link == link && this.clock == clock
      ensures state == Idle && !inStep && log == NEW_LOG
      ensures fresh(tx) && fresh(tx.buffer) && fresh(rx)
    {
      this.cfg, this.link, this.clock := cfg, link, clock;
      tx := new TxQueue.Queue(cfg.txBufferSize);
      rx := new byte[cfg.rxBufferSize];
      rxLen := 0;
      outbound := seq(cfg.maxInflightOut, i => FREE_SLOT);
      inboundIds, subscriptions, pending := [], [], [];
      connack, state, lastError, inStep := ConnackInfo(0, false), Idle, Ok, false;
      keepAliveMs, lastSentMs, lastReceivedMs, pingSentMs, connectStartedMs := 0, 0, 0, 0, 0;
      inboundOverflowCount, txBackpressureCount, nextPacketId, nextSubId := 0, 0, 0, 0;
      pingOutstanding, cleanSession, retransmitNow := false, true, false;
      log := NEW_LOG;
      new;
      FreshSound(cfg, clock.now);
      assert Snapshot() == Fresh(cfg, clock.now);
    }

    //
    // Transmit path
    //

    method Enqueue(data: bytes) returns (e: Error)
      requires Valid() && state != Idle && CompletePacket(data) && !IsConnect(data)
      modifies this`log, tx, tx.buffer
      ensures Valid()
      ensures Quiet(old(log), log)
      ensures e == if |data| <= cfg.txBufferSize - |old(Snapshot()).txp| then Ok else TxQueueFull
      ensures Snapshot() == if e == Ok then Queued(old(Snapshot()), data) else old(Snapshot())
    {
      hide Sound;
      hide CompletePacket;
      e := tx.Enqueue(data);
      if e == Ok {
        log := log.(wire := log.wire + [data]);
        QueueSound(cfg, old(Snapshot()), data);
      }
    }

    /** Encodes straight into the queue; `size` is the packet's size. */
    method EnqueueSized(size: nat, o: Outgoing) returns (e: Error)
      requires Valid() && state != Idle && !o.SendConnect?
      requires Encodable(o) ==> size == |Image(o)|
      modifies this`log, tx, tx.buffer
      ensures Valid()
      ensures Quiet(old(log), log)
      ensures Encodable(o) ==> (e == Ok <==> size <= cfg.txBufferSize - |old(Snapshot()).txp|)
      ensures e == Ok ==> Encodable(o) && Snapshot() == Queued(old(Snapshot()), Image(o))
      ensures e != Ok ==> Snapshot() == old(Snapshot())
      ensures Here() == old(Here())
      ensures log == if e == Ok then old(log).(wire := old(log.wire) + [Image(o)]) else old(log)
    {
      hide Sound, Encodable, Image, CompletePacket, IsConnect;
      e := tx.EnqueueSized(size, o);
      if e == Ok {
        ImageKind(o);
        log := log.(wire := log.wire + [Image(o)]);
        QueueSound(cfg, old(Snapshot()), Image(o));
      }
    }

    method QueueAck(kind: PacketType, id: u16) returns (e: Error)
      requires Valid() && state != Idle && ArgsOk(Outgoing.SendAck(kind, id))
      modifies this`log, tx, tx.buffer
      ensures Valid()
      ensures Quiet(old(log), log)
      ensures Snapshot() == if e == Ok then Queued(old(Snapshot()), AckBytes(kind, id)) else old(Snapshot())
      ensures log == if e == Ok then old(log).(wire := old(log.wire) + [AckBytes(kind, id)]) else old(log)
      ensures e == Ok <==> old(Room(4))
    {
      hide Sound;
      AckImage(kind, id);
      hide Encodable;
      hide Image;
      hide AckBytes;
      e := EnqueueSized(PacketSize(2), Outgoing.SendAck(kind, id));
    }

    /** A reading of the clock. */
    method NowMs() returns (t: u32)
      requires Valid()
      modifies clock
      ensures Valid() && t == clock.now % CLOCK_RANGE && clock.now >= old(clock.now)
      ensures Snapshot() == old(Snapshot()).(now := clock.now)
    {
      hide Sound;
      t := clock.NowMs();
      LaterSound(cfg, old(Snapshot()), clock.now);
    }

    /** One send() and what follows from it. */
    method SendSome() returns (e: Error, more: bool)
      requires Valid() && state != Connecting && tx.Pending() != []
      modifies this`log, this`lastSentMs, tx, clock
      ensures Valid() && clock.now >= old(clock.now)
      ensures Quiet(old(log), log)
      ensures Snapshot() == old(Snapshot()).(txp := tx.Pending(), now := clock.now, log := old(log).(sent := log.sent))
      ensures e != WouldBlock && e != KeepAliveTimeout && (more ==> e == Ok && |tx.Pending()| < |old(tx.Pending())|)
              && state != Idle
      ensures lastSentMs == if more then clock.now % CLOCK_RANGE else old(lastSentMs)
      ensures !more ==> tx.Pending() == old(tx.Pending()) && clock.now == old(clock.now)
    {
      hide Sound, Snapshot, Quiet;
      QuietRefl(log);
      var out := tx.Peek();
      NotIdleWithPending();
      SnapshotParts();
      var err, written := link.Send(out);
      if err == WouldBlock { return Ok, false; }
      if err != Ok { return err, false; }
      if written == 0 { return Ok, false; }
      AcceptBytes(written);
      return Ok, true;
    }

    method AcceptBytes(n: nat)
      requires Valid() && 0 < n <= |tx.Pending()|
      modifies this`log, this`lastSentMs, tx, clock
      ensures Valid() && clock.now >= old(clock.now) && lastSentMs == clock.now % CLOCK_RANGE
              && |tx.Pending()| < |old(tx.Pending())|
      ensures Quiet(old(log), log)
      ensures Snapshot() == old(Snapshot()).(txp := tx.Pending(), now := clock.now, log := old(log).(sent := log.sent))
    {
      hide Sound, Snapshot, Sent;
      Consumed(n);
      lastSentMs := NowMs();
    }

    lemma SnapshotParts()
      requires Valid()
      ensures Snapshot() == Snapshot().(txp := tx.Pending(), now := clock.now, log := log.(sent := log.sent))
    {
      hide Sound;
    }

    /** The transport has accepted n bytes. */
    method Consumed(n: nat)
      requires Valid() && 0 < n <= |tx.Pending()|
      modifies this`log, tx
      ensures Valid() && Snapshot() == Sent(old(Snapshot()), n) && |tx.Pending()| < |old(tx.Pending())|
      ensures Quiet(old(log), log)
      ensures Snapshot() == old(Snapshot()).(txp := tx.Pending(), log := old(log).(sent := log.sent))
    {
      hide Sound;
      SentSound(cfg, Snapshot(), n);
      ghost var out := tx.Pending()[..n];
      tx.Consume(n);
      log := log.(sent := log.sent + out);
    }

    /** Hands queued bytes to the transport until it blocks or there are none. */
    method PumpTx() returns (e: Error)
      requires Valid() && state != Connecting
      modifies this`log, this`lastSentMs, tx, clock
      ensures Valid() && clock.now >= old(clock.now)
      ensures Quiet(old(log), log)
      ensures Snapshot() == old(Snapshot()).(txp := tx.Pending(), now := clock.now, log := old(log).(sent := log.sent))
      ensures e != WouldBlock && e != KeepAliveTimeout && (e != Ok ==> state != Idle)
      ensures lastSentMs == if |tx.Pending()| < |old(tx.Pending())| then clock.now % CLOCK_RANGE else old(lastSentMs)
    {
      hide Sound;
      while !tx.Empty()
        invariant Valid() && clock.now >= old(clock.now)
        invariant Snapshot() ==
                  old(Snapshot()).(txp := tx.Pending(), now := clock.now, log := old(log).(sent := log.sent))
        invariant |tx.Pending()| <= |old(tx.Pending())|
        invariant lastSentMs == if |tx.Pending()| < |old(tx.Pending())|
                  then clock.now % CLOCK_RANGE else old(lastSentMs)
        decreases |tx.Pending()|
      {
        var err, more := SendSome();
        if !more { return err; }
      }
      return Ok;
    }

    lemma NotIdleWithPending()
      requires Valid() && tx.Pending() != []
      ensures state != Idle
    {
      var v := Snapshot();
      assert WireOk(v.state, v.log.wire, v.log.sent, v.txp);
    }

    //
    // Lifecycle
    //

    /** Argument checks of connect(). */
    method CheckOptions(o: ConnectOptions) returns (e: Error)
      ensures e == Ok || e == InvalidArgument
      ensures e == Ok <==> OptionsOk(cfg, o)
    {
      if |o.clientId| > cfg.maxClientIdLen { return InvalidArgument; }
      if |o.username| > cfg.maxUsernameLen { return InvalidArgument; }
      if |o.password| > cfg.maxPasswordLen { return InvalidArgument; }
      if o.will.Present() {
        var ok := Topic.IsValidTopicName(o.will.topic);
        if !ok { return InvalidArgument; }
      }
      if o.clientId == [] && !o.cleanSession { return InvalidArgument; }
      return Ok;
    }

    /** The length of the CONNECT packet, if the arguments are acceptable. */
    method CheckConnect(o: ConnectOptions) returns (r: Result<nat>)
      ensures r != Failure(Ok) && (r.Success? <==> OptionsOk(cfg, o) && ConnectArgsOk(o))
              && (r.Success? ==> r.value == ConnectLength(o))
    {
      var e := CheckOptions(o);
      if e != Ok { return Failure(e); }
      r := ConnectRemainingLength(o);
    }

    /** Gives up what is in flight in either direction. */
    method DiscardInflight()
      requires Consistent()
      modifies this`outbound, this`inboundIds, this`log
      ensures Consistent() && Snapshot() == Discard(old(Snapshot()))
      ensures Quiet(old(log), log) && log.owed == old(log.owed)
    {
      hide Sound;
      DiscardSound(cfg, Snapshot());
      outbound := AllReleased(outbound);
      inboundIds := [];
      log := log.(inflight := map[], fates := AllDiscarded(log.fates), out := log.out + [Outbound.GivenUp],
                  inbound := log.inbound + [Inbound.Forgotten]);
    }

    /** Forgets what a clean session must not resume. The subscription table stays. */
    method ResetSessionState()
      requires Valid() && state == Idle
      modifies this`outbound, this`inboundIds, this`pending, this`nextPacketId, this`subscriptions, this`log
      ensures Valid() && Snapshot() == Discard(old(Snapshot()))
      ensures Quiet(old(log), log)
    {
      hide Sound, Discard, Quiet;
      DiscardInflight();
      IdleHasNoPending();
      pending := [];
      nextPacketId := 0;
      FlaggedAgain(cfg, Snapshot());
      subscriptions := Subscriptions.Flagged(subscriptions);
    }

    lemma IdleHasNoPending()
      requires Valid() && !Established(state)
      ensures pending == []
    {
    }

    lemma IdleIsEmpty()
      requires Valid() && state == Idle
      ensures tx.Pending() == [] && log.busy == 0 && rxLen == 0
    {
      var v := Snapshot();
      assert WireOk(v.state, v.log.wire, v.log.sent, v.txp);
      assert |v.rx| == rxLen;
    }

    /** Starts a session: queues its CONNECT and waits for the transport. */
    method Connect(o: ConnectOptions) returns (e: Error)
      requires Valid()
      modifies this, tx, tx.buffer, clock
      ensures Valid() && inStep == old(inStep) && Kept(old(Here()), Here())
      ensures Quiet(old(log), log)
      ensures old(state) != Idle ==> e == AlreadyConnected && Snapshot() == old(Snapshot()) && Here() == old(Here())
      ensures e == Ok <==>
                && old(state) == Idle && OptionsOk(cfg, o) && ConnectArgsOk(o)
                && PacketSize(ConnectLength(o)) <= cfg.txBufferSize
      ensures e == Ok ==> old(state) == Idle && state == Connecting && lastError == Ok && rxLen == 0
      ensures e != Ok && old(state) == Idle ==> state == Idle && lastError == old(lastError) && rxLen == 0
      ensures log.notices == old(log.notices) && log.connects == old(log.connects) + (if e == Ok then 1 else 0)
      ensures log.counts == old(log.counts) && log.late == (old(log.late) && e != Ok) && log.calls == old(log.calls)
      ensures subscriptions == old(subscriptions)
      ensures e == Ok ==>
                && ConnectPacket(o)
                && Snapshot() ==
                   Opened(Cleaned(old(Snapshot()), o.cleanSession), Image(SendConnect(o))).(now := clock.now)
      ensures e == Ok ==> SessionSet(o)
      ensures e != Ok && old(state) == Idle ==>
                Snapshot() == Cleaned(old(Snapshot()), o.cleanSession && OptionsOk(cfg, o) && ConnectArgsOk(o))
    {
      hide Sound, Consistent, Valid, Shapes, Snapshot, OptionsOk, ConnectArgsOk, ConnectLength, PacketSize,
           ConnectPacket, Opened, Cleaned, Image, SessionSet;
      if state != Idle { return AlreadyConnected; }
      IdleIsBare();
      e := ConnectIdle(o);
    }

    method ConnectIdle(o: ConnectOptions) returns (e: Error)
      requires Valid() && state == Idle && rxLen == 0
      modifies this, tx, tx.buffer, clock
      ensures Valid() && inStep == old(inStep)
      ensures Quiet(old(log), log)
      ensures e == Ok <==> OptionsOk(cfg, o) && ConnectArgsOk(o) && PacketSize(ConnectLength(o)) <= cfg.txBufferSize
      ensures state == (if e == Ok then Connecting else Idle)
              && lastError == (if e == Ok then Ok else old(lastError)) && rxLen == 0
      ensures log.notices == old(log.notices) && log.connects == old(log.connects) + (if e == Ok then 1 else 0)
      ensures log.counts == old(log.counts) && log.late == (old(log.late) && e != Ok) && log.calls == old(log.calls)
      ensures subscriptions == old(subscriptions)
      ensures e == Ok ==>
                && ConnectPacket(o)
                && Snapshot() ==
                   Opened(Cleaned(old(Snapshot()), o.cleanSession), Image(SendConnect(o))).(now := clock.now)
      ensures e == Ok ==> SessionSet(o)
      ensures e != Ok ==>
                Snapshot() == Cleaned(old(Snapshot()), o.cleanSession && OptionsOk(cfg, o) && ConnectArgsOk(o))
    {
      hide Sound, Consistent, Valid, Shapes, Snapshot, Here, Quiet, OptionsOk, ConnectArgsOk, ConnectLength, PacketSize,
           ConnectPacket, Opened, Discard, Image, SessionSet;
      QuietRefl(log);
      var rl := CheckConnect(o);
      if rl.Failure? { return rl.error; }
      e := OpenSession(o, rl.value);
      if e == Ok { SetSession(o); }
    }

    /** The parameters and timers of the session just started. */
    ghost predicate SessionSet(o: ConnectOptions)
      reads this`cleanSession, this`keepAliveMs, this`connack, this`connectStartedMs, this`lastSentMs,
            this`lastReceivedMs, clock
    {
      && cleanSession == o.cleanSession && keepAliveMs == o.keepAliveS * 1000 && connack == ConnackInfo(0, false)
      && connectStartedMs == lastSentMs == lastReceivedMs == clock.now % CLOCK_RANGE
    }

    method SetSession(o: ConnectOptions)
      requires Valid()
      modifies this`cleanSession, this`keepAliveMs, this`connack, this`lastError, this`connectStartedMs,
               this`lastSentMs, this`lastReceivedMs, clock
      ensures Valid() && lastError == Ok && SessionSet(o) && Snapshot() == old(Snapshot()).(now := clock.now)
    {
      hide Sound, Consistent, Valid, Shapes, Snapshot;
      StartTimers();
      cleanSession := o.cleanSession;
      keepAliveMs := o.keepAliveS * 1000;
      connack := ConnackInfo(0, false);
      lastError := Ok;
    }

    method StartTimers()
      requires Valid()
      modifies this`connectStartedMs, this`lastSentMs, this`lastReceivedMs, clock
      ensures Valid() && clock.now >= old(clock.now) && Snapshot() == old(Snapshot()).(now := clock.now)
      ensures connectStartedMs == lastSentMs == lastReceivedMs == clock.now % CLOCK_RANGE
    {
      hide *;
      var now := NowMs();
      connectStartedMs, lastSentMs, lastReceivedMs := now, now, now;
    }

    /** Clears the buffers, drops the old session if a clean one was asked for, queues the CONNECT. */
    method OpenSession(o: ConnectOptions, remaining: nat) returns (e: Error)
      requires Valid() && state == Idle && ConnectArgsOk(o) && remaining == ConnectLength(o)
      modifies this`outbound, this`inboundIds, this`pending, this`nextPacketId, this`subscriptions,
               this`state, this`pingOutstanding, this`log, this`rxLen, tx, tx.buffer
      ensures Valid() && subscriptions == old(subscriptions) && rxLen == 0
      ensures Quiet(old(log), log)
      ensures e == Ok <==> PacketSize(remaining) <= cfg.txBufferSize
      ensures state == if e == Ok then Connecting else Idle
      ensures log.notices == old(log.notices) && log.connects == old(log.connects) + (if e == Ok then 1 else 0)
      ensures log.counts == old(log.counts) && log.late == (old(log.late) && e != Ok) && log.calls == old(log.calls)
      ensures e == Ok ==>
                && ConnectPacket(o)
                && Snapshot() == Opened(Cleaned(old(Snapshot()), o.cleanSession), Image(SendConnect(o)))
      ensures e != Ok ==> Snapshot() == Cleaned(old(Snapshot()), o.cleanSession)
    {
      hide Sound, PacketSize, ConnectLength, ConnectArgsOk, Image, ConnectPacket;
      IdleIsEmpty();
      tx.Clear();
      rxLen := 0;
      assert Snapshot() == old(Snapshot());
      if o.cleanSession { ResetSessionState(); }
      e := QueueConnect(o, remaining);
    }

    /** The CONNECT packet goes into the empty queue and the session is under way. */
    method QueueConnect(o: ConnectOptions, remaining: nat) returns (e: Error)
      requires Valid() && state == Idle && ConnectArgsOk(o) && remaining == ConnectLength(o)
      modifies this`state, this`pingOutstanding, this`log, tx, tx.buffer
      ensures Valid()
      ensures Quiet(old(log), log)
      ensures e == Ok <==> PacketSize(remaining) <= cfg.txBufferSize
      ensures e == Ok ==> ConnectPacket(o) && Snapshot() == Opened(old(Snapshot()), Image(SendConnect(o)))
      ensures e != Ok ==> Snapshot() == old(Snapshot())
    {
      hide Sound, Shapes, Snapshot, ConnectArgsOk, Encodable, CompletePacket, IsConnect, Image, ConnectLength,
           PacketSize, Opened, Quiet;
      QuietRefl(log);
      IdleIsEmpty();
      ConnectPacketIs(o);
      e := EnqueueFirst(o, remaining);
      if e == Ok { MarkOpened(old(Snapshot()), Image(SendConnect(o))); }
    }

    /** The CONNECT packet alone in the queue. */
    method EnqueueFirst(o: ConnectOptions, remaining: nat) returns (e: Error)
      requires Valid() && tx.Pending() == [] && Encodable(SendConnect(o))
               && |Image(SendConnect(o))| == PacketSize(remaining)
      modifies tx, tx.buffer
      ensures Shapes() && (e == Ok <==> PacketSize(remaining) <= cfg.txBufferSize)
      ensures Snapshot() == if e == Ok then old(Snapshot()).(txp := Image(SendConnect(o))) else old(Snapshot())
    {
      hide Sound, Encodable, Image, PacketSize;
      e := tx.EnqueueSized(PacketSize(remaining), SendConnect(o));
    }

    method MarkOpened(ghost before: View, ghost p: bytes)
      requires Shapes() && Snapshot() == before.(txp := p) && Sound(cfg, before) && state == Idle && log.owed == []
               && rxLen == 0 && !link.open
      requires CompletePacket(p) && IsConnect(p) && |p| <= cfg.txBufferSize
      modifies this`state, this`pingOutstanding, this`log
      ensures Valid() && Snapshot() == Opened(before, p)
      ensures Quiet(old(log), log)
    {
      hide Sound;
      hide CompletePacket;
      hide IsConnect;
      OpenedSound(cfg, before, p);
      state := Connecting;
      pingOutstanding := false;
      log := log.(path := log.path + [Connecting], connects := log.connects + 1, late := false, resting := true,
                  wire := [p], sent := [], received := [], frames := [], busy := 0, granted := {}, pings := []);
    }

    /** The buffers and tables of the session that ends. */
    method CloseSession(reason: Error)
      requires Valid() && (reason == KeepAliveTimeout ==> TimedOut(Snapshot(), keepAliveMs))
      modifies this`state, this`rxLen, this`pingOutstanding, this`pending, this`subscriptions, this`log, tx, link
      ensures Consistent() && Snapshot() == Closed(old(Snapshot()), reason, keepAliveMs) && rxLen == 0
      ensures Quiet(old(log), log)
    {
      hide Sound, Closed, TimedOut, Quiet;
      ghost var before := Snapshot();
      link.Close();
      ClearBuffers();
      MarkClosed(before, reason);
    }

    method ClearBuffers()
      requires Shapes()
      modifies this`rxLen, tx
      ensures Shapes() && tx.Pending() == [] && rxLen == 0 && Snapshot() == old(Snapshot()).(rx := [], txp := [])
    {
      tx.Clear();
      rxLen := 0;
    }

    method MarkClosed(ghost before: View, reason: Error)
      requires Shapes() && Snapshot() == before.(rx := [], txp := []) && Sound(cfg, before) && !link.open && rxLen == 0
      requires reason == KeepAliveTimeout ==> TimedOut(before, keepAliveMs)
      modifies this`state, this`pingOutstanding, this`pending, this`subscriptions, this`log
      ensures Consistent() && Snapshot() == Closed(before, reason, keepAliveMs) && Quiet(old(log), log)
    {
      hide Sound, Closed, Quiet, TimedOut;
      ClosedSound(cfg, before, reason, keepAliveMs);
      ClosedIs(before, reason, keepAliveMs);
      log := Closed(before, reason, keepAliveMs).log;
      pingOutstanding := false;
      state := Idle;
      pending := [];
      subscriptions := Subscriptions.Flagged(subscriptions);
    }

    /** Everything shutdown() does before it notifies. */
    method EndSession(reason: Error)
      requires Valid() && (reason == KeepAliveTimeout ==> TimedOut(Snapshot(), keepAliveMs))
      modifies this`state, this`rxLen, this`pingOutstanding, this`pending, this`subscriptions, this`outbound,
               this`inboundIds, this`lastError, this`log, tx, link
      ensures Consistent() && Snapshot() == Ended(old(Snapshot()), reason, keepAliveMs, cleanSession)
      ensures lastError == reason && rxLen == 0
      ensures Quiet(old(log), log)
    {
      hide Sound, Consistent, Shapes, Snapshot, Quiet, Closed, Discard, TimedOut;
      CloseSession(reason);
      ghost var closed := log;
      lastError := reason;
      if cleanSession {
        DiscardInflight();
        QuietTrans(old(log), closed, log);
      }
    }

    /** on_disconnect is called: the application may start a new session, and nothing that ends it again. */
    method DisconnectHandler(reason: Error)
      requires Consistent() && log.owed == [OnDisconnect(reason)] && state == Idle && rxLen == 0
      modifies this, tx, tx.buffer, clock
      ensures Valid() && (state == Idle || state == Connecting) && rxLen == 0 && inStep == old(inStep)
      ensures Quiet(old(log), log)
      ensures lastError == if state == Idle then old(lastError) else Ok
      ensures log.notices == old(log.notices) && log.connects >= old(log.connects)
              && subscriptions == old(subscriptions)
      ensures log.counts == old(log.counts) && log.late == (old(log.late) && state == Idle)
      ensures log.calls == old(log.calls) + [OnDisconnect(reason)]
    {
      hide Sound, Consistent, Valid, Shapes, Snapshot, Kept, Quiet, OptionsOk, ConnectArgsOk, ConnectPacket, Opened,
           Cleaned, Image, SessionSet;
      CallOwed();
      var tries: int := *;
      while tries > 0
        invariant Valid() && (state == Idle || state == Connecting) && rxLen == 0 && inStep == old(inStep)
        invariant lastError == if state == Idle then old(lastError) else Ok
        invariant log.notices == old(log.notices) && log.connects >= old(log.connects)
                  && subscriptions == old(subscriptions)
        invariant log.counts == old(log.counts) && log.late == (old(log.late) && state == Idle)
        invariant Quiet(old(log), log) && log.calls == old(log.calls) + [OnDisconnect(reason)]
      {
        var o: ConnectOptions := *;
        ghost var past := log;
        var e := Connect(o);
        QuietTrans(old(log), past, log);
        tries := tries - 1;
      }
    }

    /** The handler that is owed a call is called. */
    ghost method CallOwed()
      requires Consistent()
      modifies this`log
      ensures Valid() && Here() == old(Here()) && log == Told(old(log))
      ensures |old(log.owed)| == 1 && old(log.owed)[0].OnDisconnect? ==> Quiet(old(log), log)
    {
      hide Sound;
      ToldSound(cfg, Snapshot());
      log := Told(log);
    }

    /** Another handler is called. */
    ghost method NoteCall(call: Call)
      requires Valid() && !call.OnDisconnect? && !call.OnDelivery?
      modifies this`log
      ensures Valid() && Here() == old(Here()) && log == Called(old(log), call)
    {
      hide Sound;
      CalledSound(cfg, Snapshot(), call);
      log := Called(log, call);
    }

    lemma EndedHere(was: View, reason: Error)
      requires Consistent() && Snapshot() == Ended(was, reason, keepAliveMs, cleanSession)
      ensures state == Idle && log.connects == was.log.connects && Subscriptions.SameRows(was.subs, subscriptions)
      ensures log.calls == was.log.calls && log.resting && log.counts == was.log.counts
              && log.late == (was.state == Idle && was.log.late)
      ensures if was.state == Idle then log.notices == was.log.notices && log.owed == was.log.owed
              else && Notified(was.log.notices, log.notices, reason, was.log.received, was.log.frames)
                   && log.owed == was.log.owed + [OnDisconnect(reason)]
    {
      hide Sound, Notified;
      EndedIs(was, reason, keepAliveMs, cleanSession);
    }

    /** Ends the session, if there is one, calls on_disconnect, once, exactly if there was one, and returns
        the reason. */
    method Shutdown(reason: Error) returns (e: Error)
      requires Valid() && (reason == KeepAliveTimeout ==> TimedOut(Snapshot(), keepAliveMs))
      modifies this, tx, tx.buffer, link, clock
      ensures Valid() && e == reason && inStep == old(inStep)
      ensures Quiet(old(log), log) && log.resting
      ensures (state == Idle || state == Connecting) && rxLen == 0
      ensures lastError == if state == Idle then reason else Ok
      ensures if old(state) == Idle then log.notices == old(log.notices)
              else Notified(old(log.notices), log.notices, reason, old(log.received), old(log.frames))
      ensures log.calls == if old(state) == Idle then old(log.calls) else old(log.calls) + [OnDisconnect(reason)]
      ensures log.counts == old(log.counts) && log.late == (old(state) == Idle && old(log.late))
      ensures log.connects >= old(log.connects)
              && (old(state) == Idle ==> state == Idle && log.connects == old(log.connects))
      ensures Subscriptions.SameRows(old(subscriptions), subscriptions)
    {
      hide Sound, Shapes, Snapshot, Quiet, Ended, TimedOut, Notified, Subscriptions.SameRows;
      Fields();
      var notify := state != Idle;
      EndSession(reason);
      EndedHere(old(Snapshot()), reason);
      ghost var ended := log;
      if notify {
        DisconnectHandler(reason);
        QuietTrans(old(log), ended, log);
        QuietSince(ended, log);
      }
      return reason;
    }

    /** The session closes once a DISCONNECT has gone out, or at once if it cannot be queued: then
        on_disconnect is notified with reason Ok. */
    method Disconnect() returns (e: Error)
      requires Valid()
      modifies this, tx, tx.buffer, link, clock
      ensures Valid() && inStep == old(inStep) && Kept(old(Here()), Here())
      ensures Quiet(old(log), log)
      ensures e == if old(state) == Idle then NotConnected else Ok
      ensures old(state) == Idle ==> Here() == old(Here())
      ensures Subscriptions.SameRows(old(subscriptions), subscriptions)
      ensures state == Disconnecting <==> old(state) == Connected && old(Room(2))
      ensures state == Disconnecting ==>
                && log.notices == old(log.notices) && log.counts == old(log.counts)
                && log.wire == old(log.wire) + [EmptyBytes(PacketType.Disconnect)]
      ensures old(state) != Idle && state != Disconnecting ==>
                && Notified(old(log.notices), log.notices, Ok, old(log.received), old(log.frames))
                && log.counts.hardCloses == old(log.counts.hardCloses) + 1 && !log.late
    {
      hide Sound, Consistent, Valid, Shapes, Snapshot, Moved, Queued, EmptyBytes, Kept, Quiet, Subscriptions.SameRows;
      KeptRefl(Here());
      QuietRefl(log);
      Subscriptions.SameRowsRefl(subscriptions);
      if state == Idle { return NotConnected; }
      if state == Connected {
        e := QueueDisconnect();
        if e == Ok {
          KeptMoved(old(Here()), Here());
          return;
        }
      }
      ghost var before := log;
      CountHardClose();
      QuietTrans(old(log), before, log);
      before := log;
      e := Shutdown(Ok);
      QuietTrans(old(log), before, log);
      KeptEnded(old(Here()), Here(), Ok);
      return Ok;
    }

    ghost method CountHardClose()
      requires Valid()
      modifies this`log
      ensures Valid() && Here() == old(Here()).(hardCloses := old(log.counts.hardCloses) + 1) && Quiet(old(log), log)
      ensures log == old(log).(counts := old(log.counts).(hardCloses := old(log.counts.hardCloses) + 1))
    {
      hide Sound;
      CountSound(cfg, Snapshot(), log.counts.(hardCloses := log.counts.hardCloses + 1));
      log := log.(counts := log.counts.(hardCloses := log.counts.hardCloses + 1));
    }

    method QueueDisconnect() returns (e: Error)
      requires Valid() && state == Connected
      modifies this`state, this`log, tx, tx.buffer
      ensures Valid()
      ensures Quiet(old(log), log)
      ensures e == Ok ==> Snapshot() == Moved(Queued(old(Snapshot()), EmptyBytes(PacketType.Disconnect)), Disconnecting)
      ensures e == Ok <==> old(Room(2))
      ensures e == Ok ==>
                && Here() == old(Here()).(state := Disconnecting) && log.counts == old(log.counts)
                && log.wire == old(log.wire) + [EmptyBytes(PacketType.Disconnect)]
      ensures e != Ok ==> Snapshot() == old(Snapshot()) && Here() == old(Here())
    {
      hide Sound, Consistent, Valid, Shapes, Snapshot, Here, Quiet, Queued, Moved, EmptyBytes;
      e := QueueEmpty(PacketType.Disconnect);
      if e != Ok { return; }
      ghost var queued := log;
      MoveOn(Disconnecting);
      QuietTrans(old(log), queued, log);
    }

    /** Forward within a session that has its transport. */
    method MoveOn(s: State)
      requires Valid() && Online(state) && Online(s) && Transition(state, s)
      modifies this`state, this`log
      ensures Valid() && Here() == old(Here()).(state := s) && Snapshot() == Moved(old(Snapshot()), s)
      ensures Quiet(old(log), log) && log == old(log).(path := old(log.path) + [s])
    {
      hide Sound, Here, Quiet;
      MoveTo(s);
    }

    /** Forward to the next state of the session. */
    method MoveTo(s: State)
      requires Shapes() && Sound(cfg, Snapshot()) && state != Idle && s != Idle && Transition(state, s)
      requires link.open == Online(s) && (inStep || log.resting) && log.owed == []
      modifies this`state, this`log
      ensures Valid() && Here() == old(Here()).(state := s) && Snapshot() == Moved(old(Snapshot()), s)
      ensures Quiet(old(log), log) && log == old(log).(path := old(log.path) + [s])
    {
      hide Sound;
      MovedSound(cfg, Snapshot(), s);
      log := log.(path := log.path + [s]);
      state := s;
    }

    /** PINGREQ or DISCONNECT. */
    method QueueEmpty(kind: PacketType) returns (e: Error)
      requires Valid() && state != Idle && (kind == Pingreq || kind == PacketType.Disconnect)
      modifies this`log, tx, tx.buffer
      ensures Valid() && Here() == old(Here())
      ensures Quiet(old(log), log)
      ensures e == Ok ==> Snapshot() == Queued(old(Snapshot()), EmptyBytes(kind))
      ensures log == if e == Ok then old(log).(wire := old(log.wire) + [EmptyBytes(kind)]) else old(log)
      ensures e != Ok ==> Snapshot() == old(Snapshot())
      ensures e == Ok <==> old(Room(2))
    {
      hide Sound;
      EmptyImage(kind);
      hide Encodable, Image, EmptyBytes, Quiet;
      e := EnqueueSized(PacketSize(0), SendEmpty(kind));
    }

    /** Drops the session without a DISCONNECT. */
    method Abort()
      requires Valid()
      modifies this, tx, tx.buffer, link, clock
      ensures Valid() && inStep == old(inStep) && Kept(old(Here()), Here())
      ensures Quiet(old(log), log)
      ensures if old(state) == Idle then log.notices == old(log.notices)
              else Notified(old(log.notices), log.notices, TransportClosed, old(log.received), old(log.frames))
      ensures log.counts == old(log.counts) && log.late == (old(state) == Idle)
      ensures Subscriptions.SameRows(old(subscriptions), subscriptions)
    {
      hide Sound, Consistent, Valid, Shapes, Snapshot, Kept, Quiet, Subscriptions.SameRows;
      QuietRefl(log);
      IdleIsBare();
      if state == Idle { MarkLate(); }
      ghost var before := log;
      var e := Shutdown(TransportClosed);
      QuietTrans(old(log), before, log);
      if old(state) == Idle {
        KeptLate(old(Here()), Here());
      } else {
        KeptEnded(old(Here()), Here(), TransportClosed);
      }
    }

    ghost method MarkLate()
      requires Valid() && state == Idle
      modifies this`log
      ensures Valid() && log == old(log).(late := true) && Quiet(old(log), log)
    {
      hide Sound;
      LateSound(cfg, Snapshot());
      log := log.(late := true);
    }

    lemma IdleIsBare()
      requires Valid()
      ensures state == Idle ==> rxLen == 0
    {
      hide *;
      if state == Idle { IdleIsEmpty(); }
    }

    //
    // Publishing
    //

    /** free_outbound_slot: the first slot not in use. */
    method FreeSlot() returns (i: nat)
      ensures i <= |outbound| && (i < |outbound| ==> !outbound[i].Live()) && (i < |outbound| <==> SlotFree(outbound))
    {
      i := 0;
      while i < |outbound|
        invariant i <= |outbound| && forall k :: 0 <= k < i ==> outbound[k].Live()
      {
        if !outbound[i].Live() { return; }
        i := i + 1;
      }
    }

    /** The next packet id in the cycle that nothing outstanding uses. There always is one. */
    method AllocPacketId() returns (id: u16)
      requires Valid()
      modifies this`nextPacketId
      ensures Valid() && Snapshot() == old(Snapshot()) && Here() == old(Here()) && nextPacketId == id != 0
      ensures id !in log.inflight && id !in old(Snapshot()).log.inflight
      ensures forall k :: 0 <= k < |pending| ==> pending[k].packetId != id
      ensures IdAllocator.FirstFree(old(nextPacketId), UsedIds(outbound, pending), id)
    {
      hide *;
      IdToSpare();
      var next;
      id, next := IdAllocator.Alloc(nextPacketId, UsedIds(outbound, pending));
      IdIsNew(id);
      nextPacketId := next;
    }

    lemma Fields()
      requires Valid()
      ensures var v := Snapshot();
              && v.state == state && v.txp == tx.Pending() && v.outbound == outbound && v.subs == subscriptions
                 && v.pending == pending
              && v.log == log && |outbound| == cfg.maxInflightOut
    {
      hide WireOk, StreamOk, SlotsOk, FatesOk, SubsOk;
    }

    lemma IdToSpare()
      requires Valid()
      ensures |UsedIds(outbound, pending)| < 65535
    {
      UsedIdsFew(outbound, pending);
      hide UsedIds;
    }

    lemma IdIsNew(id: u16)
      requires Valid() && IdAllocator.FirstFree(nextPacketId, UsedIds(outbound, pending), id)
      ensures id !in log.inflight && id !in Snapshot().log.inflight
      ensures forall k :: 0 <= k < |pending| ==> pending[k].packetId != id
    {
      hide UsedIds;
      UnusedIsNew(outbound, log.inflight, log.pubs, pending, id);
    }

    method Publish(topic: bytes, payload: bytes, qos: QoS, retain: bool) returns (e: Error, id: u16)
      requires Valid()
      modifies this`outbound, this`nextPacketId, this`log, tx, tx.buffer, clock
      ensures Valid() && Here() == old(Here())
      ensures Quiet(old(log), log)
      ensures e == Ok <==> CanPublish(cfg, old(Snapshot()), topic, |payload|, qos)
      ensures state != Connected ==> e == NotConnected
      ensures state == Connected && !Topic.ValidName(topic) ==> e == InvalidArgument
      ensures state == Connected && Topic.ValidName(topic) && |topic| > cfg.maxTopicLen ==> e == TopicTooLong
      ensures e == Ok ==> PublishArgsOk(topic, payload, qos, false, id)
      ensures e == Ok && qos == AT_MOST_ONCE ==>
                Snapshot() == Queued(old(Snapshot()), PublishBytes(topic, payload, qos, retain, false, id))
      ensures e == Ok && qos != AT_MOST_ONCE ==>
                Accepted(old(Snapshot()), Snapshot(), Publication(topic, payload, qos, retain, id))
      ensures e != Ok ==> Snapshot() == old(Snapshot())
    {
      hide Sound, Consistent, Valid, Shapes, Snapshot, Here, Quiet, Topic.ValidName, PublishFits, PublishArgsOk,
           PublishBytes, Queued, Accepted;
      QuietRefl(log);
      Fields();
      id := 0;
      if state != Connected { return NotConnected, 0; }
      var ok := Topic.IsValidTopicName(topic);
      if !ok { return InvalidArgument, 0; }
      if |topic| > cfg.maxTopicLen { return TopicTooLong, 0; }
      if qos == AT_MOST_ONCE {
        e := PublishUntracked(topic, payload, retain);
      } else if cfg.maxInflightOut == 0 {
        NoSlotFits(topic, |payload|, qos);
        e := NotSupported;
      } else {
        e, id := PublishTracked(topic, payload, qos, retain);
      }
    }

    lemma NoSlotFits(topic: bytes, payloadLen: nat, qos: QoS)
      requires Valid() && qos != AT_MOST_ONCE && cfg.maxInflightOut == 0
      ensures !PublishFits(cfg, Snapshot(), topic, payloadLen, qos)
    {
      hide WireOk, StreamOk, SlotsOk, FatesOk, SubsOk, PublishRemaining, PacketSize;
    }

    method PublishUntracked(topic: bytes, payload: bytes, retain: bool) returns (e: Error)
      requires Valid() && state == Connected
      modifies this`log, tx, tx.buffer
      ensures Valid() && Here() == old(Here())
      ensures Quiet(old(log), log)
      ensures e == Ok <==> PublishFits(cfg, old(Snapshot()), topic, |payload|, AT_MOST_ONCE)
      ensures e == Ok ==> PublishArgsOk(topic, payload, AT_MOST_ONCE, false, 0)
      ensures e == Ok ==>
                Snapshot() == Queued(old(Snapshot()), PublishBytes(topic, payload, AT_MOST_ONCE, retain, false, 0))
      ensures e != Ok ==> Snapshot() == old(Snapshot())
    {
      hide Sound, Consistent, Valid, Shapes, Snapshot, Here, Quiet, Queued, IsString;
      QuietRefl(log);
      var rl := PublishRemainingLength(topic, |payload|, AT_MOST_ONCE);
      if rl.Failure? { return rl.error; }
      assert PublishArgsOk(topic, payload, AT_MOST_ONCE, false, 0);
      PublishImage(topic, payload, AT_MOST_ONCE, retain, false, 0);
      PublishImageLength(topic, payload, AT_MOST_ONCE, retain, false, 0);
      hide Encodable, Image, PublishBytes, PublishArgsOk, PublishRemaining, PacketSize;
      e := EnqueueSized(PacketSize(rl.value), SendPublish(topic, payload, AT_MOST_ONCE, retain, false, 0));
    }

    /** QoS 1 or 2: the packet is stored in a slot, queued, and only then does the slot count. */
    method PublishTracked(topic: bytes, payload: bytes, qos: QoS, retain: bool) returns (e: Error, id: u16)
      requires Valid() && state == Connected && qos != AT_MOST_ONCE
      modifies this`outbound, this`nextPacketId, this`log, tx, tx.buffer, clock
      ensures Valid() && Here() == old(Here())
      ensures Quiet(old(log), log)
      ensures e == Ok <==> PublishFits(cfg, old(Snapshot()), topic, |payload|, qos)
      ensures e == Ok ==> PublishArgsOk(topic, payload, qos, false, id)
      ensures e == Ok ==> Accepted(old(Snapshot()), Snapshot(), Publication(topic, payload, qos, retain, id))
      ensures e != Ok ==> Snapshot() == old(Snapshot())
      ensures !SlotFree(old(outbound)) ==> e == NoInflightSlot
    {
      hide Sound, Consistent, Valid, Shapes, Snapshot, Here, Quiet, PublishBytes, PublishOf, Accepted, Publishable,
           PublishArgsOk, PacketSize, PublishRemaining, SlotFree, UsedIds, IdAllocator.FirstFree;
      QuietRefl(log);
      Fields();
      id := 0;
      var i := FreeSlot();
      if i == |outbound| { return NoInflightSlot, 0; }
      id := AllocPacketId();
      var stored := EncodePublish(topic, payload, qos, retain, id);
      StoredSize(topic, payload, qos, retain, id);
      if stored.Failure? { return if stored.error == BufferTooSmall then PayloadTooLarge else stored.error, id; }
      e := FillSlot(i, Publication(topic, payload, qos, retain, id), stored.value);
    }

    lemma StoredSize(topic: bytes, payload: bytes, qos: QoS, retain: bool, id: u16)
      requires qos != AT_MOST_ONCE && id != 0
      ensures PublishArgsOk(topic, payload, qos, false, id) <==> PublishRemaining(topic, |payload|, qos).Success?
      ensures PublishArgsOk(topic, payload, qos, false, id) ==>
                && |PublishBytes(topic, payload, qos, retain, false, id)| ==
                   PacketSize(PublishRemaining(topic, |payload|, qos).value)
                && Publishable(Publication(topic, payload, qos, retain, id))
                && PublishBytes(topic, payload, qos, retain, false, id) ==
                   PublishOf(Publication(topic, payload, qos, retain, id), false)
    {
      if PublishArgsOk(topic, payload, qos, false, id) {
        PublishImageLength(topic, payload, qos, retain, false, id);
        hide PublishBytes, IsString, PacketSize;
      }
    }

    /** Serialises into a slot's storage. */
    method EncodePublish(topic: bytes, payload: bytes, qos: QoS, retain: bool, id: u16) returns (r: Result<bytes>)
      requires qos != AT_MOST_ONCE && id != 0
      ensures r != Failure(Ok)
      ensures r.Success? ==>
                && PublishArgsOk(topic, payload, qos, false, id)
                && Publishable(Publication(topic, payload, qos, retain, id))
                               && r.value == PublishOf(Publication(topic, payload, qos, retain, id), false)
                               && |r.value| <= cfg.maxPersistedMsgSize
      ensures PublishArgsOk(topic, payload, qos, false, id) ==>
                r == if |PublishBytes(topic, payload, qos, retain, false, id)| <= cfg.maxPersistedMsgSize
                     then Success(PublishBytes(topic, payload, qos, retain, false, id)) else Failure(BufferTooSmall)
    {
      var o := SendPublish(topic, payload, qos, retain, false, id);
      var storage := new byte[cfg.maxPersistedMsgSize];
      if PublishArgsOk(topic, payload, qos, false, id) { PublishImage(topic, payload, qos, retain, false, id); }
      hide IsString, BodyOf, Image, PublishBytes;
      var n := Encode(storage, 0, storage.Length, o);
      if n.Failure? { return Failure(n.error); }
      r := Success(storage[0..n.value]);
    }

    method FillSlot(i: nat, p: Publication, packet: bytes) returns (e: Error)
      requires Valid() && state == Connected && i < |outbound| && !outbound[i].Live()
      requires Publishable(p) && packet == PublishOf(p, false)
      requires p.id !in log.inflight && forall k :: 0 <= k < |pending| ==> pending[k].packetId != p.id
      modifies this`outbound, this`log, tx, tx.buffer, clock
      ensures Valid() && Here() == old(Here())
      ensures Quiet(old(log), log)
      ensures e == Ok <==> |packet| <= cfg.txBufferSize - |old(Snapshot()).txp|
      ensures e == Ok ==> Accepted(old(Snapshot()), Snapshot(), p)
      ensures e != Ok ==> Snapshot() == old(Snapshot())
    {
      hide Sound, Publishable, PublishOf, CompletePacket, IsConnect, Accepted, Taken, NewSlot, Stores, ValidPhase;
      PublishComplete(p);
      e := Enqueue(packet);
      if e != Ok { return; }
      var now := NowMs();
      NewSlotStores(p, now);
      TakeSlotFor(i, NewSlot(p, packet, now), p);
      AcceptedBy(old(Snapshot()), Snapshot(), p, i, NewSlot(p, packet, now));
    }

    method TakeSlotFor(i: nat, s: Slot, ghost p: Publication)
      requires Valid() && i < |outbound| && !outbound[i].Live() && s.Live() && Stores(s, p)
               && ValidPhase(p.qos, s.phase)
      requires p.id !in log.inflight && forall k :: 0 <= k < |pending| ==> pending[k].packetId != p.id
      requires s.lastSentMs == clock.now % CLOCK_RANGE
      modifies this`outbound, this`log
      ensures Valid() && Here() == old(Here()) && Snapshot() == Taken(old(Snapshot()), i, s, p, clock.now)
      ensures Quiet(old(log), log)
    {
      hide Sound, Stores;
      TakenSound(cfg, Snapshot(), i, s, p, clock.now);
      outbound := outbound[i := s];
      log := log.(pubs := log.pubs + [p], inflight := log.inflight[p.id := Entry(|log.pubs|, StageFor(p.qos))],
                  fates := log.fates + [InFlight], stamps := log.stamps[p.id := clock.now],
                  out := log.out + [Outbound.Accepted(p)] + [Outbound.Issued(p.id, s.packet)]);
    }

    //
    // Subscribing
    //

    /** Every filter of a request must be valid and short enough to store. */
    method CheckFilters(subs: seq<TopicSubscription>) returns (e: Error)
      ensures e == Ok || e == InvalidArgument || e == TopicTooLong
      ensures e == Ok <==> FiltersOk(cfg, subs)
    {
      hide Topic.ValidFilter;
      var j := 0;
      while j < |subs|
        invariant j <= |subs|
        invariant forall k :: 0 <= k < j ==> Topic.ValidFilter(subs[k].filter) && |subs[k].filter| <= cfg.maxTopicLen
      {
        var ok := Topic.IsValidFilter(subs[j].filter);
        if !ok { return InvalidArgument; }
        if |subs[j].filter| > cfg.maxTopicLen { return TopicTooLong; }
        j := j + 1;
      }
      return Ok;
    }

    lemma RowsSound()
      requires Valid() && Established(state)
      ensures cfg.maxTopicsPerRequest > 0 && cfg.maxSubscriptions < 65535
              && Subscriptions.TableOk(subscriptions, cfg.maxSubscriptions)
      ensures Subscriptions.Covered(subscriptions, pending, log.granted, [])
              && Subscriptions.GrantedOk(subscriptions, log.granted)
      ensures Subscriptions.RowsOk(log.rows, subscriptions) && Snapshot().subs == subscriptions
    {
    }

    /** The filters are registered and requested in one SUBSCRIBE, or nothing changes. */
    method Subscribe(subs: seq<TopicSubscription>, handler: bool) returns (e: Error, id: u16)
      requires Valid()
      modifies this`subscriptions, this`pending, this`nextPacketId, this`nextSubId, this`log, tx, tx.buffer, clock
      ensures Valid() && Here() == old(Here()) && Subscriptions.Extends(old(subscriptions), subscriptions)
      ensures Quiet(old(log), log)
      ensures state != Connected ==> e == NotConnected
      ensures e == Ok <==> CanSubscribe(cfg, old(Snapshot()), subs)
      ensures e == Ok ==> Subscribed(old(Snapshot()), Snapshot(), subs, id, handler)
      ensures e != Ok ==> Snapshot() == old(Snapshot())
    {
      hide Sound, Consistent, Valid, Shapes, Snapshot, Here, Quiet, Queued, Registered, Encodable, Image, FiltersOk,
           SubscribeFits, Subscriptions.NewCount;
      QuietRefl(log);
      Fields();
      Subscriptions.ExtendsRefl(subscriptions);
      id := 0;
      if state != Connected { return NotConnected, 0; }
      if subs == [] || |subs| > cfg.maxTopicsPerRequest { return InvalidArgument, 0; }
      e := CheckFilters(subs);
      if e != Ok { return; }
      if |pending| >= cfg.maxPendingAcks { return NoPendingAckSlot, 0; }
      var added := Subscriptions.CountNew(subscriptions, subs);
      if |subscriptions| + added > cfg.maxSubscriptions { return NoSubscriptionSlot, 0; }
      e, id := QueueSubscribe(subs);
      if e != Ok { return; }
      ghost var before := log;
      RegisterRequest(subs, handler, id);
      QuietTrans(old(log), before, log);
    }

    /** A SUBSCRIBE under a fresh id goes into the queue. */
    method QueueSubscribe(subs: seq<TopicSubscription>) returns (e: Error, id: u16)
      requires Valid() && state == Connected
      modifies this`nextPacketId, this`log, tx, tx.buffer
      ensures Valid() && Here() == old(Here()) && log.inflight == old(log.inflight) && log.granted == old(log.granted)
      ensures Quiet(old(log), log)
      ensures e == Ok <==> SubscribeFits(cfg, old(Snapshot()), subs)
      ensures e == Ok ==>
                && Encodable(SendSubscribe(id, subs))
                && Snapshot() == Queued(old(Snapshot()), Image(SendSubscribe(id, subs)))
      ensures e == Ok ==>
                && id != 0 && id !in log.inflight && id !in old(Snapshot()).log.inflight
                && forall k :: 0 <= k < |pending| ==> pending[k].packetId != id
      ensures e != Ok ==> Snapshot() == old(Snapshot())
    {
      hide Sound, Consistent, Valid, Shapes, Snapshot, Here, Quiet, Queued, Encodable, Image, SubscribeChunks,
           SubsArgsOk, PacketSize, UsedIds, IdAllocator.FirstFree;
      QuietRefl(log);
      id := 0;
      var rl := SubscribeRemainingLength(subs);
      if rl.Failure? { return rl.error, 0; }
      id := AllocPacketId();
      SubscribeImageLength(id, subs);
      e := EnqueueSized(PacketSize(rl.value), SendSubscribe(id, subs));
    }

    method RegisterRequest(subs: seq<TopicSubscription>, handler: bool, id: u16)
      requires Valid() && state == Connected && |pending| < cfg.maxPendingAcks && 0 < |subs| <= cfg.maxTopicsPerRequest
      requires |subscriptions| + Subscriptions.NewCount(subscriptions, subs) <= cfg.maxSubscriptions
      requires FiltersOk(cfg, subs)
      requires id != 0 && id !in log.inflight && forall k :: 0 <= k < |pending| ==> pending[k].packetId != id
      modifies this`subscriptions, this`pending, this`nextSubId, this`log, clock
      ensures Valid() && Subscriptions.Extends(old(subscriptions), subscriptions) && Here() == old(Here())
              && Quiet(old(log), log)
      ensures Registered(old(Snapshot()), Snapshot(), subs, id, handler)
    {
      hide Sound, Consistent, Valid, Shapes, Snapshot, Here, Quiet, Registered, Subscriptions.TableOk,
           Subscriptions.Covered, Subscriptions.GrantedOk, Subscriptions.RowsOk, Subscriptions.NewCount,
           Subscriptions.HasRow, Subscriptions.LastQos, Subscriptions.Extends, Topic.ValidFilter, Requested;
      Shaped();
      RowsSound();
      var now := NowMs();
      Shaped();
      ghost var mid := Snapshot();
      var t, ids, next := Subscriptions.Register(subscriptions, nextSubId, subs, handler,
          cfg.maxSubscriptions, pending, log.granted);
      nextSubId := next;
      PushRequest(t, Subscriptions.PendingAck(id, Suback, ids, now));
      Shaped();
      RegisteredBy(old(Snapshot()), mid, Snapshot(), subs, id, handler, t, ids, now);
    }

    method PushRequest(t: Subscriptions.Table, ack: Subscriptions.PendingAck)
      requires Valid() && Established(state) && |pending| < cfg.maxPendingAcks
               && Subscriptions.TableOk(t, cfg.maxSubscriptions)
      requires Subscriptions.Extends(subscriptions, t)
      requires Subscriptions.Covered(t, pending, log.granted, if ack.expected == Suback then ack.subs else [])
      requires ack.packetId != 0 && ack.packetId !in log.inflight && |ack.subs| <= cfg.maxTopicsPerRequest
      requires forall k :: 0 <= k < |pending| ==> pending[k].packetId != ack.packetId
      modifies this`subscriptions, this`pending, this`log
      ensures Valid() && Snapshot() == Requested(old(Snapshot()), t, ack) && subscriptions == t && Here() == old(Here())
      ensures Quiet(old(log), log)
    {
      hide Sound, Subscriptions.TableOk, Subscriptions.Covered, Subscriptions.Extends;
      RequestedSound(cfg, Snapshot(), t, ack);
      log := log.(rows := Additions(log.rows, subscriptions, t));
      subscriptions := t;
      pending := pending + [ack];
    }

    /** An UNSUBSCRIBE is queued; the rows it names stay until its UNSUBACK. */
    method Unsubscribe(filters: seq<bytes>) returns (e: Error, id: u16)
      requires Valid()
      modifies this`subscriptions, this`pending, this`nextPacketId, this`log, tx, tx.buffer, clock
      ensures Valid() && Here() == old(Here()) && subscriptions == old(subscriptions)
      ensures Quiet(old(log), log)
      ensures state != Connected ==> e == NotConnected
      ensures e == Ok <==> CanUnsubscribe(cfg, old(Snapshot()), filters)
      ensures e == Ok ==> Unsubscribed(old(Snapshot()), Snapshot(), filters, id)
      ensures e != Ok ==> Snapshot() == old(Snapshot())
    {
      hide Sound, Consistent, Valid, Shapes, Snapshot, Here, Quiet, Queued, Encodable, Image, UnsubscribeFits;
      QuietRefl(log);
      Fields();
      id := 0;
      if state != Connected { return NotConnected, 0; }
      if filters == [] || |filters| > cfg.maxTopicsPerRequest { return InvalidArgument, 0; }
      if |pending| >= cfg.maxPendingAcks { return NoPendingAckSlot, 0; }
      e, id := QueueUnsubscribe(filters);
      if e != Ok { return; }
      ghost var before := log;
      AwaitUnsuback(filters, id);
      QuietTrans(old(log), before, log);
    }

    method QueueUnsubscribe(filters: seq<bytes>) returns (e: Error, id: u16)
      requires Valid() && state == Connected
      modifies this`nextPacketId, this`log, tx, tx.buffer
      ensures Valid() && Here() == old(Here()) && log.inflight == old(log.inflight) && log.granted == old(log.granted)
      ensures Quiet(old(log), log)
      ensures e == Ok <==> UnsubscribeFits(cfg, old(Snapshot()), filters)
      ensures e == Ok ==>
                && Encodable(SendUnsubscribe(id, filters))
                && Snapshot() == Queued(old(Snapshot()), Image(SendUnsubscribe(id, filters)))
      ensures e == Ok ==>
                && id != 0 && id !in log.inflight && id !in old(Snapshot()).log.inflight
                && forall k :: 0 <= k < |pending| ==> pending[k].packetId != id
      ensures e != Ok ==> Snapshot() == old(Snapshot())
    {
      hide Sound, Consistent, Valid, Shapes, Snapshot, Here, Quiet, Queued, Encodable, Image, UnsubscribeChunks,
           FiltersArgsOk, PacketSize, UsedIds, IdAllocator.FirstFree;
      QuietRefl(log);
      id := 0;
      var rl := UnsubscribeRemainingLength(filters);
      if rl.Failure? { return rl.error, 0; }
      id := AllocPacketId();
      UnsubscribeImageLength(id, filters);
      e := EnqueueSized(PacketSize(rl.value), SendUnsubscribe(id, filters));
    }

    method AwaitUnsuback(filters: seq<bytes>, id: u16)
      requires Valid() && state == Connected && |pending| < cfg.maxPendingAcks
               && 0 < |filters| <= cfg.maxTopicsPerRequest
      requires id != 0 && id !in log.inflight && forall k :: 0 <= k < |pending| ==> pending[k].packetId != id
      modifies this`subscriptions, this`pending, this`log, clock
      ensures Valid() && subscriptions == old(subscriptions) && Here() == old(Here()) && Quiet(old(log), log)
      ensures Awaited(old(Snapshot()), Snapshot(), filters, id)
    {
      RowsDistinct();
      hide Sound, Shapes, Snapshot, Awaited, Subscriptions.TableOk, Subscriptions.Covered, Subscriptions.Knows,
           Subscriptions.DistinctFilters;
      RowsSound();
      Subscriptions.ExtendsRefl(subscriptions);
      var now := NowMs();
      var ids := Subscriptions.Collect(subscriptions, filters);
      PushRequest(subscriptions, Subscriptions.PendingAck(id, Unsuback, ids, now));
      AwaitedBy(old(Snapshot()), Snapshot(), filters, id, old(subscriptions), ids, now);
    }

    lemma RowsDistinct()
      requires Valid() && Established(state)
      ensures Subscriptions.DistinctFilters(subscriptions)
    {
    }

    /** Requests the rows that wait for it, as many as one SUBSCRIBE takes, whenever that can be queued. */
    method PumpResubscribe()
      requires Valid() && state == Connected
      modifies this`subscriptions, this`pending, this`nextPacketId, this`log, tx, tx.buffer, clock
      ensures Valid() && Here() == old(Here()) && Subscriptions.Extends(old(subscriptions), subscriptions)
      ensures Quiet(old(log), log)
      ensures if CanResubscribe(cfg, old(Snapshot()))
              then Resubscribed(old(Snapshot()), Snapshot(), cfg.maxTopicsPerRequest)
              else Snapshot() == old(Snapshot())
    {
      hide Sound, Consistent, Valid, Shapes, Snapshot, Here, Quiet, Resubscribed, Subscriptions.TableOk,
           Subscriptions.Covered, Subscriptions.GrantedOk, Subscriptions.RowsOk, Subscriptions.IsFlagged,
           Subscriptions.Waiting, Subscriptions.Asked, Subscriptions.IdsOf, SubscribeFits;
      QuietRefl(log);
      Fields();
      Subscriptions.ExtendsRefl(subscriptions);
      if |pending| >= cfg.maxPendingAcks { return; }
      RowsSound();
      var subs, ids := Subscriptions.Batch(subscriptions, cfg.maxTopicsPerRequest);
      if subs == [] { return; }
      RequestBatch(subs, ids);
    }

    method RequestBatch(subs: seq<TopicSubscription>, ids: seq<u16>)
      requires Valid() && state == Connected && |pending| < cfg.maxPendingAcks
               && 0 < |subs| == |ids| <= cfg.maxTopicsPerRequest
      requires var rows := Subscriptions.NextBatch(subscriptions, cfg.maxTopicsPerRequest);
               subs == Subscriptions.Asked(rows) && ids == Subscriptions.IdsOf(rows)
      requires |ids| < cfg.maxTopicsPerRequest ==>
                 forall i :: 0 <= i < |subscriptions| && subscriptions[i].needsResub ==> subscriptions[i].subId in ids
      modifies this`subscriptions, this`pending, this`nextPacketId, this`log, tx, tx.buffer, clock
      ensures Valid() && Here() == old(Here()) && Subscriptions.Extends(old(subscriptions), subscriptions)
      ensures Quiet(old(log), log)
      ensures if SubscribeFits(cfg, old(Snapshot()), subs)
              then Resubscribed(old(Snapshot()), Snapshot(), cfg.maxTopicsPerRequest)
              else Snapshot() == old(Snapshot())
    {
      hide Sound, Shapes, Snapshot, Here, Quiet, Resubscribed, Encodable, Image, SubscribeFits, Subscriptions.TableOk,
           Subscriptions.Covered, Subscriptions.GrantedOk, Subscriptions.RowsOk, Subscriptions.Unflagged,
           Subscriptions.NextBatch, Subscriptions.Asked, Subscriptions.IdsOf;
      Subscriptions.ExtendsRefl(subscriptions);
      RowsSound();
      var e, id := QueueSubscribe(subs);
      if e != Ok { return; }
      ghost var before := log;
      UnflagRequest(ids, id);
      QuietTrans(old(log), before, log);
      ResubscribedBy(old(Snapshot()), Snapshot(), id, cfg.maxTopicsPerRequest);
    }

    method UnflagRequest(ids: seq<u16>, id: u16)
      requires Valid() && state == Connected && |pending| < cfg.maxPendingAcks && |ids| <= cfg.maxTopicsPerRequest
      requires id != 0 && id !in log.inflight && forall k :: 0 <= k < |pending| ==> pending[k].packetId != id
      modifies this`subscriptions, this`pending, this`log, clock
      ensures Valid() && Subscriptions.Extends(old(subscriptions), subscriptions) && Here() == old(Here())
              && Quiet(old(log), log)
      ensures Subscriptions.Unflagged(old(Snapshot()).subs, Snapshot().subs, ids)
      ensures Requests(old(Snapshot()), Snapshot(), id, Suback, ids)
    {
      hide Sound, Shapes, Subscriptions.TableOk, Subscriptions.Covered, Subscriptions.GrantedOk, Subscriptions.RowsOk,
           Subscriptions.Unflagged, Subscriptions.Extends, Additions, Quiet;
      RowsSound();
      var now := NowMs();
      var t := Subscriptions.ClearFlags(subscriptions, ids, cfg.maxSubscriptions);
      Subscriptions.UnflaggedCovered(subscriptions, t, ids, pending, log.granted);
      PushRequest(t, Subscriptions.PendingAck(id, Suback, ids, now));
    }

    //
    // Acknowledgements of outbound publications
    //

    /** find_outbound: the live slot with this id. */
    method FindOutbound(id: u16) returns (i: nat)
      ensures i <= |outbound| && (i < |outbound| ==> outbound[i].Live() && outbound[i].packetId == id)
      ensures i == |outbound| ==> forall k :: 0 <= k < |outbound| && outbound[k].Live() ==> outbound[k].packetId != id
    {
      i := 0;
      while i < |outbound|
        invariant i <= |outbound| && forall k :: 0 <= k < i && outbound[k].Live() ==> outbound[k].packetId != id
      {
        if outbound[i].Live() && outbound[i].packetId == id { return; }
        i := i + 1;
      }
    }

    lemma SlotIsEntry(i: nat)
      requires Valid() && i < |outbound| && outbound[i].Live()
      ensures var id := outbound[i].packetId;
              && id != 0 && id in log.inflight && log.inflight[id].stage == StageOf(outbound[i].phase)
              && log.inflight[id].uid < |log.pubs| == |log.fates| && Stores(outbound[i], log.pubs[log.inflight[id].uid])
    {
      hide Stores, WireOk, StreamOk, FatesOk, SubsOk;
      LiveIffEntry(outbound, log.inflight, log.pubs, i);
    }

    lemma NoSlotNoEntry(id: u16)
      requires Valid() && forall k :: 0 <= k < |outbound| && outbound[k].Live() ==> outbound[k].packetId != id
      ensures id !in log.inflight
    {
      hide Stores, WireOk, StreamOk, FatesOk, SubsOk, StampsOk;
      assert SlotsOk(outbound, log.inflight, log.pubs);
    }

    /** An acknowledgement without effect. */
    ghost method HearAck(p: Backward)
      requires Valid() && SenderSlots(log.inflight, p) == log.inflight && SenderCompletes(log.inflight, p).None?
      modifies this`log
      ensures Valid() && Here() == old(Here()) && log == old(log).(out := old(log.out) + [Outbound.Got(p)])
    {
      hide Sound, SenderSlots, SenderCompletes;
      HeardSound(cfg, Snapshot(), p);
      log := log.(out := log.out + [Outbound.Got(p)]);
    }

    /** PUBACK (`last` is WaitPuback) and PUBCOMP (`last` is WaitPubcomp): a slot in that phase is
        released and its publication completes; anything else is tolerated. */
    method CompleteSlot(id: u16, last: Phase) returns (done: bool)
      requires Valid() && (last == WaitPuback || last == WaitPubcomp)
      modifies this`outbound, this`log
      ensures Consistent() && Here() == old(Here())
      ensures Grown(old(log), log)
      ensures var p := if last == WaitPuback then Ack(id) else Comp(id);
              && Acks(old(log), Told(log), p, false) && done == SenderCompletes(old(log.inflight), p).Some?
              && log.owed == if done then [OnDelivery(SenderCompletes(old(log.inflight), p).value, id)] else []
    {
      hide Sound, Consistent, Valid, Shapes, Snapshot, Here, Stores;
      ghost var p := if last == WaitPuback then Ack(id) else Comp(id);
      Unowed();
      var i := FindOutbound(id);
      if i == |outbound| {
        NoSlotNoEntry(id);
        HearAck(p);
        Unowed();
        return false;
      }
      SlotIsEntry(i);
      if outbound[i].phase != last {
        HearAck(p);
        Unowed();
        return false;
      }
      FinishSlot(i);
      return true;
    }

    lemma Unowed()
      requires Valid()
      ensures Consistent() && log.owed == [] && Told(log) == log
    {
      hide Consistent;
      ToldNothing(log);
    }

    /** release_slot, and what it means. */
    method FinishSlot(i: nat)
      requires Valid() && i < |outbound| && outbound[i].Live() && outbound[i].phase != WaitPubrec
      modifies this`outbound, this`log
      ensures Consistent() && Here() == old(Here()) && old(outbound)[i].packetId in old(log.inflight)
      ensures var id := old(outbound)[i].packetId;
              var uid := old(log.inflight)[id].uid;
              log == old(log).(inflight := old(log.inflight) - {id}, fates := log.fates,
                               completed := old(log.completed) + [uid], owed := [OnDelivery(uid, id)],
                               out := old(log.out) + [Outbound.Got(LastAck(old(outbound)[i]))])
    {
      hide Sound;
      FinishedSound(cfg, Snapshot(), i);
      ghost var finished := Finished(Snapshot(), i);
      outbound := outbound[i := Released(outbound[i])];
      log := finished.log;
    }

    /** PUBREC: the slot turns to PUBREL, which is sent if there is room, again if it was before. */
    method TakePubrec(id: u16)
      requires Valid() && state != Idle
      modifies this`outbound, this`log, this`txBackpressureCount, tx, tx.buffer, clock
      ensures Valid() && Here() == old(Here())
      ensures Grown(old(log), log)
      ensures Acks(old(log), log, Rec(id), old(Room(4)))
      ensures log.stamps == if SenderAnswers(old(log.inflight), Rec(id), old(Room(4)))
              then old(log.stamps)[id := clock.now] else old(log.stamps)
    {
      hide Sound, Consistent, Valid, Shapes, Snapshot, Here, Stores, AckBytes;
      var i := FindOutbound(id);
      if i == |outbound| {
        NoSlotNoEntry(id);
        HearAck(Rec(id));
        return;
      }
      SlotIsEntry(i);
      if outbound[i].phase == WaitPubrec { TurnToPubrel(i); } else { HearAck(Rec(id)); }
      if outbound[i].phase == WaitPubcomp {
        PubrelStored(i);
        Repeat(i);
      }
    }

    /** Room for n more bytes in the transmit queue. */
    ghost predicate Room(n: nat)
      requires tx.Valid()
      reads tx, tx.buffer
    {
      |tx.Pending()| + n <= tx.buffer.Length
    }

    ghost predicate NoRoom(n: nat)
      reads tx, tx.buffer
    {
      tx.Valid() && !Room(n)
    }

    lemma PubrelStored(i: nat)
      requires Valid() && i < |outbound| && outbound[i].phase == WaitPubcomp
      ensures outbound[i].packet == AckBytes(Pubrel, outbound[i].packetId) && |outbound[i].packet| == 4
    {
      SlotIsEntry(i);
      hide Sound;
      AckImage(Pubrel, outbound[i].packetId);
    }

    method TurnToPubrel(i: nat)
      requires Valid() && i < |outbound| && outbound[i].phase == WaitPubrec
      modifies this`outbound, this`log
      ensures Valid() && Here() == old(Here()) && |outbound| == |old(outbound)|
      ensures outbound[i].phase == WaitPubcomp && outbound[i].packetId == old(outbound)[i].packetId
      ensures var id := outbound[i].packetId;
              && id in old(log.inflight)
              && log == old(log).(inflight := old(log.inflight)[id := Entry(old(log.inflight)[id].uid, AwaitPubcomp)],
                                  out := old(log.out) + [Outbound.Got(Rec(id))])
    {
      hide Sound, Stores, AckBytes;
      SlotIsEntry(i);
      var id := outbound[i].packetId;
      var packet := EncodePubrel(id);
      var s := outbound[i].(phase := WaitPubcomp, packet := packet);
      PubrelStores(outbound[i], log.pubs[log.inflight[id].uid]);
      TurnedSound(cfg, Snapshot(), i, s);
      log := log.(inflight := log.inflight[id := Entry(log.inflight[id].uid, AwaitPubcomp)],
          out := log.out + [Outbound.Got(Rec(id))]);
      outbound := outbound[i := s];
    }

    /** The PUBREL overwrites the PUBLISH in the slot's storage, where it always fits. */
    method EncodePubrel(id: u16) returns (packet: bytes)
      requires Valid() && outbound != [] && id != 0
      ensures packet == AckBytes(Pubrel, id)
    {
      StorageSuffices();
      hide Sound, Consistent, Valid;
      var storage := new byte[cfg.maxPersistedMsgSize];
      AckImage(Pubrel, id);
      hide Encodable, Image, AckBytes;
      var n := Encode(storage, 0, storage.Length, Outgoing.SendAck(Pubrel, id));
      packet := storage[0..n.value];
    }

    lemma StorageSuffices()
      requires Valid() && outbound != []
      ensures cfg.maxPersistedMsgSize >= 8
    {
    }

    /** Queues a slot's packet once more; the clock is stamped only on success. */
    method Repeat(i: nat)
      requires Valid() && state != Idle && i < |outbound| && outbound[i].Live()
      modifies this`outbound, this`log, this`txBackpressureCount, tx, tx.buffer, clock
      ensures Valid() && Here() == old(Here())
      ensures Quiet(old(log), log)
      ensures var s := old(outbound)[i];
              log == if old(Room(|outbound[i].packet|))
                     then old(log).(wire := old(log.wire) + [s.packet],
                         stamps := old(log.stamps)[s.packetId := clock.now],
                                    out := old(log.out) + [Outbound.Issued(s.packetId, s.packet)])
                     else old(log)
      ensures txBackpressureCount == old(txBackpressureCount) + if old(Room(|outbound[i].packet|)) then 0 else 1
    {
      hide Sound, CompletePacket, IsConnect;
      StoredComplete(i);
      var e := Enqueue(outbound[i].packet);
      if e == Ok {
        var now := NowMs();
        Stamp(i, now);
      } else {
        txBackpressureCount := txBackpressureCount + 1;
      }
    }

    lemma StoredComplete(i: nat)
      requires Valid() && i < |outbound| && outbound[i].Live()
      ensures CompletePacket(outbound[i].packet) && !IsConnect(outbound[i].packet)
    {
      SlotIsEntry(i);
      hide Sound, CompletePacket, IsConnect, AckBytes, PublishOf;
      StoredPacket(outbound[i], log.pubs[log.inflight[outbound[i].packetId].uid]);
    }

    method Stamp(i: nat, now: u32)
      requires Valid() && i < |outbound| && outbound[i].Live() && now == clock.now % CLOCK_RANGE
      modifies this`outbound, this`log
      ensures Valid() && Here() == old(Here()) && Snapshot() == Stamped(old(Snapshot()), i, clock.now)
      ensures Quiet(old(log), log)
    {
      hide Sound;
      StampedSound(cfg, Snapshot(), i, clock.now);
      log := log.(stamps := log.stamps[outbound[i].packetId := clock.now],
                  out := log.out + [Outbound.Issued(outbound[i].packetId, outbound[i].packet)]);
      outbound := outbound[i := outbound[i].(lastSentMs := now)];
    }

    //
    // Inbound messages
    //

    /** The inbound packet ids under way. */
    ghost function Tracked(): set<u16>
      reads this`log
    {
      Inbound.Tracked(log.inbound)
    }

    lemma TableTracks(id: u16)
      requires Valid()
      ensures (id in inboundIds <==> id in Tracked()) && |Tracked()| == |inboundIds|
    {
      hide WireOk, StreamOk, SlotsOk, FatesOk, SubsOk, StampsOk;
      Inbound.InTable(inboundIds, log.inbound, cfg.maxInflightIn, id);
      Inbound.ElementsSize(inboundIds);
    }

    /** Records an event that neither takes up nor frees an id. */
    ghost method NoteEvent(e: Inbound.Event)
      requires Valid() && !e.RecQueued? && !e.Released? && !e.Forgotten?
      requires Inbound.DisciplinedAt(log.inbound + [e], |log.inbound|)
      modifies this`log
      ensures Valid() && Here() == old(Here()) && Tracked() == old(Tracked())
      ensures Grown(old(log), log)
      ensures log == old(log).(inbound := old(log.inbound) + [e])
    {
      hide Sound, Inbound.Tracked, Inbound.Remove;
      NotedSound(cfg, Snapshot(), e);
      Inbound.TrackedAppend(log.inbound, e);
      log := log.(inbound := log.inbound + [e]);
    }

    /** QoS 1: the PUBACK is queued first; without room for it the message is not delivered. */
    method AcknowledgeFirst(id: u16) returns (deliver: bool)
      requires Valid() && state != Idle && id != 0
      modifies this`txBackpressureCount, this`log, tx, tx.buffer
      ensures Valid() && Here() == old(Here()) && Tracked() == old(Tracked()) && deliver == old(Room(4))
      ensures Grown(old(log), log)
      ensures txBackpressureCount == old(txBackpressureCount) + if deliver then 0 else 1
      ensures log == if deliver then Replied(old(log), AckBytes(Puback, id), Inbound.AckQueued(id)) else old(log)
    {
      hide Sound, Consistent, Valid, Shapes, Snapshot, Queued, AckBytes;
      var e := QueueAck(Puback, id);
      if e != Ok {
        txBackpressureCount := txBackpressureCount + 1;
        return false;
      }
      NoteEvent(Inbound.AckQueued(id));
      return true;
    }

    /** QoS 2: an id under way is acknowledged again and not delivered; a new one is delivered if it
        can be tracked and its PUBREC queued. */
    method ReceiveFirst(id: u16) returns (deliver: bool)
      requires Valid() && state != Idle && id != 0
      modifies this`inboundIds, this`inboundOverflowCount, this`txBackpressureCount, this`log, tx, tx.buffer
      ensures Valid() && Here() == old(Here())
      ensures Grown(old(log), log)
      ensures deliver == (old(Room(4)) && id !in old(Tracked()) && |old(Tracked())| < cfg.maxInflightIn)
      ensures Tracked() == if deliver then old(Tracked()) + {id} else old(Tracked())
      ensures log == if deliver then Replied(old(log), AckBytes(Pubrec, id), Inbound.RecQueued(id))
                     else if old(Room(4)) && id in old(Tracked())
                         then Replied(old(log), AckBytes(Pubrec, id), Inbound.RecRepeated(id))
                     else old(log)
      ensures var full := id !in old(Tracked()) && |old(Tracked())| >= cfg.maxInflightIn;
              && inboundOverflowCount == old(inboundOverflowCount) + (if full then 1 else 0)
              && txBackpressureCount == old(txBackpressureCount) + (if full || old(Room(4)) then 0 else 1)
    {
      hide Sound, Consistent, Valid, Shapes, Snapshot, Queued, AckBytes;
      TableTracks(id);
      var known := InboundContains(id);
      if known {
        AcknowledgeAgain(id);
        return false;
      }
      deliver := TakeUp(id);
    }

    /** An id that is not under way. */
    method TakeUp(id: u16) returns (deliver: bool)
      requires Valid() && state != Idle && id != 0 && id !in Tracked()
      modifies this`inboundIds, this`inboundOverflowCount, this`txBackpressureCount, this`log, tx, tx.buffer
      ensures Valid() && Here() == old(Here())
      ensures Grown(old(log), log)
      ensures deliver == (old(Room(4)) && |old(Tracked())| < cfg.maxInflightIn)
      ensures Tracked() == if deliver then old(Tracked()) + {id} else old(Tracked())
      ensures log == if deliver then Replied(old(log), AckBytes(Pubrec, id), Inbound.RecQueued(id)) else old(log)
      ensures var full := |old(Tracked())| >= cfg.maxInflightIn;
              && inboundOverflowCount == old(inboundOverflowCount) + (if full then 1 else 0)
              && txBackpressureCount == old(txBackpressureCount) + (if full || old(Room(4)) then 0 else 1)
    {
      hide Sound, Consistent, Valid, Shapes, Snapshot, Queued, AckBytes;
      TableTracks(id);
      if |inboundIds| >= cfg.maxInflightIn {
        inboundOverflowCount := inboundOverflowCount + 1;
        return false;
      }
      var e := QueueAck(Pubrec, id);
      if e != Ok {
        txBackpressureCount := txBackpressureCount + 1;
        return false;
      }
      TrackInbound(id);
      return true;
    }

    method AcknowledgeAgain(id: u16)
      requires Valid() && state != Idle && id != 0 && id in Tracked()
      modifies this`txBackpressureCount, this`log, tx, tx.buffer
      ensures Valid() && Here() == old(Here()) && Tracked() == old(Tracked())
      ensures Grown(old(log), log)
      ensures log == if old(Room(4)) then Replied(old(log), AckBytes(Pubrec, id), Inbound.RecRepeated(id)) else old(log)
      ensures txBackpressureCount == old(txBackpressureCount) + if old(Room(4)) then 0 else 1
    {
      hide Sound, Consistent, Valid, Shapes, Snapshot, Queued, AckBytes;
      var e := QueueAck(Pubrec, id);
      if e == Ok { NoteEvent(Inbound.RecRepeated(id)); } else { txBackpressureCount := txBackpressureCount + 1; }
    }

    method InboundContains(id: u16) returns (found: bool)
      ensures found == (id in inboundIds)
    {
      for i := 0 to |inboundIds|
        invariant id !in inboundIds[..i]
      {
        if inboundIds[i] == id { return true; }
      }
      return false;
    }

    method TrackInbound(id: u16)
      requires Valid() && id !in inboundIds && |inboundIds| < cfg.maxInflightIn
      modifies this`inboundIds, this`log
      ensures Valid() && Here() == old(Here()) && Tracked() == old(Tracked()) + {id}
      ensures Grown(old(log), log)
      ensures log == old(log).(inbound := old(log.inbound) + [Inbound.RecQueued(id)])
    {
      hide Sound, Inbound.Tracked, Inbound.Remove;
      TakenInSound(cfg, Snapshot(), id);
      Inbound.TrackedAppend(log.inbound, Inbound.RecQueued(id));
      inboundIds := inboundIds + [id];
      log := log.(inbound := log.inbound + [Inbound.RecQueued(id)]);
    }

    /** What a PUBLISH does before any handler runs: the receiver's half of the protocol. */
    method TakePublish(m: Message) returns (deliver: bool)
      requires Valid() && state != Idle && ValidQos(m.qos) && (m.qos != AT_MOST_ONCE ==> m.packetId != 0)
      modifies this`inboundIds, this`inboundOverflowCount, this`txBackpressureCount, this`log, tx, tx.buffer
      ensures Valid() && Here() == old(Here())
      ensures Grown(old(log), log)
      ensures Acknowledged(old(log), log, m, cfg.maxInflightIn, old(Room(4)), deliver)
      ensures deliver ==> Inbound.DisciplinedAt(log.inbound + [Inbound.Dispatched(m.qos, m.packetId)], |log.inbound|)
    {
      hide Sound, Consistent, Valid, Shapes, Snapshot, Here, AckBytes, Inbound.Tracked;
      if m.qos == AT_MOST_ONCE { return true; }
      if m.qos == AT_LEAST_ONCE {
        deliver := AcknowledgeFirst(m.packetId);
      } else {
        deliver := ReceiveFirst(m.packetId);
      }
    }

    /** PUBREL: the id is released once its PUBCOMP is queued, and kept otherwise. */
    method TakePubrel(id: u16)
      requires Valid() && state != Idle && id != 0
      modifies this`inboundIds, this`txBackpressureCount, this`log, tx, tx.buffer
      ensures Valid() && Here() == old(Here())
      ensures Grown(old(log), log)
      ensures Tracked() == ReceiverTracks(old(Tracked()), cfg.maxInflightIn, Rel(id), old(Room(4)))
      ensures log == Receipt(old(log), Rel(id), cfg.maxInflightIn, old(Room(4)))
      ensures txBackpressureCount == old(txBackpressureCount) + if old(Room(4)) then 0 else 1
    {
      hide Sound, Consistent, Valid, Shapes, Snapshot, Queued, AckBytes;
      var e := QueueAck(Pubcomp, id);
      if e != Ok {
        txBackpressureCount := txBackpressureCount + 1;
        assert old(log.inbound) + [] == old(log.inbound);
        return;
      }
      ReleaseInbound(id);
    }

    method ReleaseInbound(id: u16)
      requires Valid()
      modifies this`inboundIds, this`log
      ensures Valid() && Here() == old(Here()) && Tracked() == old(Tracked()) - {id}
      ensures Grown(old(log), log)
      ensures log == old(log).(inbound := old(log.inbound) + [Inbound.Event.Released(id)])
    {
      hide Sound, Inbound.Tracked, Inbound.Remove;
      LetGoSound(cfg, Snapshot(), id);
      Inbound.TrackedAppend(log.inbound, Inbound.Event.Released(id));
      var rest := Inbound.RemoveFirst(inboundIds, id);
      inboundIds := rest;
      log := log.(inbound := log.inbound + [Inbound.Event.Released(id)]);
    }

    //
    // Acknowledgements of requests
    //

    /** find_pending. */
    method FindPending(id: u16, expected: PacketType) returns (k: nat)
      ensures k <= |pending| && (k < |pending| ==> pending[k].packetId == id && pending[k].expected == expected)
      ensures k == |pending| <==> Unknown(pending, id, expected)
    {
      k := 0;
      while k < |pending|
        invariant k <= |pending|
        invariant forall j :: 0 <= j < k ==> !(pending[j].packetId == id && pending[j].expected == expected)
      {
        if pending[k].packetId == id && pending[k].expected == expected { return; }
        k := k + 1;
      }
    }

    ghost function Now(): Tables
      reads this`log, this`subscriptions, this`pending
    {
      Tables(log, subscriptions, pending)
    }

    /** SUBACK: the request it answers is retired, the rows it refuses go, those it grants are
        updated, and no other row is touched. */
    method TakeSuback(v: SubackView) returns (e: Error, known: bool)
      requires Valid()
      modifies this`subscriptions, this`pending, this`log
      ensures Valid() && Here() == old(Here()) && (e == Ok || e == ProtocolViolation)
      ensures Grown(old(log), log)
      ensures known <==> Expects(old(pending), v)
      ensures e == ProtocolViolation <==> !Unknown(old(pending), v.packetId, Suback) && !Expects(old(pending), v)
      ensures if known then Settled(old(Now()), Now(), v) else Now() == old(Now())
    {
      hide Sound, Consistent, Valid, Shapes, Snapshot, Here, Settle, Grown, Subscriptions.Survivors;
      GrownRefl(log);
      var k := FindPending(v.packetId, Suback);
      if k == |pending| { return Ok, false; }
      OneRequest(k);
      if |v.returnCodes| != |pending[k].subs| { return ProtocolViolation, false; }
      AnswerSuback(k, v.returnCodes);
      return Ok, true;
    }

    /** No other request has the id of request k. */
    lemma OneRequest(k: nat)
      requires Valid() && k < |pending|
      ensures forall j :: 0 <= j < |pending| && pending[j].packetId == pending[k].packetId ==> j == k
    {
      hide WireOk, StreamOk, SlotsOk, FatesOk, SubsOk;
      assert PendingOk(pending, log.inflight, cfg);
    }

    lemma PendingMeansEstablished()
      requires Valid() && pending != []
      ensures Established(state)
    {
    }

    method AnswerSuback(k: nat, codes: bytes)
      requires Valid() && k < |pending| && pending[k].expected == Suback && |codes| == |pending[k].subs|
      modifies this`subscriptions, this`pending, this`log
      ensures Valid() && Here() == old(Here()) && Now() == Settle(old(Now()), k, codes)
      ensures Grown(old(log), log)
    {
      hide Sound, Consistent, Valid, Shapes, Snapshot, Here, Subscriptions.Survivors, Subscriptions.TableOk,
           Subscriptions.Covered, Subscriptions.GrantedOk, Subscriptions.RowsOk, Subscriptions.RefusedRows,
           Subscriptions.GrantedThen, Subscriptions.RowIds;
      PendingMeansEstablished();
      RowsSound();
      var sids := pending[k].subs;
      var t := Subscriptions.SettleRows(subscriptions, sids, codes, cfg.maxSubscriptions);
      Subscriptions.SettledCovered(subscriptions, sids, codes, pending, log.granted);
      Subscriptions.DistinctOf(subscriptions, cfg.maxSubscriptions);
      Subscriptions.RowsSettled(log.rows, subscriptions, sids, codes);
      Answer(k, t, Subscriptions.GrantedThen(t, log.granted, sids, codes),
             Subscriptions.RefusedAll(Subscriptions.RefusedRows(subscriptions, sids, codes)));
    }

    /** The request is retired; `granted` is what this session has been granted by now, `gone` the rows
        that the acknowledgement removed. */
    method Answer(k: nat, t: Subscriptions.Table, ghost granted: set<u16>, ghost gone: seq<Subscriptions.Change>)
      requires Valid() && k < |pending|
      requires Subscriptions.TableOk(t, cfg.maxSubscriptions) && Subscriptions.GrantedOk(t, granted)
      requires Subscriptions.Covered(t, pending, granted, []) && Subscriptions.RowsOk(log.rows + gone, t)
      requires pending[k].expected == Suback ==>
                 forall x :: x in pending[k].subs && x in Subscriptions.RowIds(t) ==> x in granted
      modifies this`subscriptions, this`pending, this`log
      ensures Valid() && Here() == old(Here())
      ensures Now() == Tables(old(log).(granted := granted, rows := old(log.rows) + gone), t,
              old(pending)[..k] + old(pending)[k + 1..])
      ensures Grown(old(log), log)
    {
      hide Sound, Subscriptions.TableOk, Subscriptions.Covered, Subscriptions.GrantedOk, Subscriptions.RowsOk,
           Subscriptions.RowIds;
      AnsweredSound(cfg, Snapshot(), t, granted, k, gone);
      subscriptions := t;
      pending := pending[..k] + pending[k + 1..];
      log := log.(granted := granted, rows := log.rows + gone);
    }

    /** UNSUBACK: the rows its request names go. */
    method TakeUnsuback(id: u16)
      requires Valid()
      modifies this`subscriptions, this`pending, this`log
      ensures Valid() && Here() == old(Here())
      ensures Grown(old(log), log)
      ensures if Unknown(old(pending), id, Unsuback) then Now() == old(Now()) else Dropped(old(Now()), Now(), id)
    {
      hide Sound, Consistent, Valid, Shapes, Snapshot, Here, Drop, Grown;
      GrownRefl(log);
      var k := FindPending(id, Unsuback);
      if k == |pending| { return; }
      AnswerUnsuback(k);
    }

    method AnswerUnsuback(k: nat)
      requires Valid() && k < |pending| && pending[k].expected == Unsuback
      modifies this`subscriptions, this`pending, this`log
      ensures Valid() && Here() == old(Here()) && Now() == Drop(old(Now()), k)
      ensures Grown(old(log), log)
    {
      hide Sound, Consistent, Valid, Shapes, Snapshot, Here, Subscriptions.Without, Subscriptions.TableOk,
           Subscriptions.Covered, Subscriptions.GrantedOk, Subscriptions.RowsOk, Subscriptions.NamedRows,
           Subscriptions.RowIds;
      PendingMeansEstablished();
      RowsSound();
      var sids := pending[k].subs;
      var t := Subscriptions.EraseRows(subscriptions, sids, cfg.maxSubscriptions);
      Subscriptions.DroppedCovered(subscriptions, sids, pending, log.granted);
      Subscriptions.DistinctOf(subscriptions, cfg.maxSubscriptions);
      Subscriptions.RowsDropped(log.rows, subscriptions, sids);
      Answer(k, t, log.granted * Subscriptions.RowIds(t),
          Subscriptions.UnsubscribedAll(Subscriptions.NamedRows(subscriptions, sids)));
    }

    //
    // CONNACK, PINGRESP
    //

    method TakeConnack(body: bytes) returns (e: Error)
      requires Valid()
      modifies this`connack, this`state, this`pingOutstanding, this`retransmitNow, this`subscriptions, this`log
      ensures Valid() && subscriptions == old(subscriptions)
      ensures Quiet(old(log), log)
      ensures e == Ok <==> old(state) == AwaitingConnack && ConnackAccepts(body)
      ensures e == Ok ==> Here() == old(Here()).(state := Connected) && retransmitNow
      ensures log == if e == Ok then old(log).(path := old(log.path) + [Connected]) else old(log)
      ensures e == Ok || e == ConnectionRefused ==> DecodeConnack(body) == Success(connack)
      ensures e != Ok ==> Here() == old(Here()) && e != KeepAliveTimeout
    {
      OtherErrors(body);
      hide Sound, Consistent, Valid, Shapes, Snapshot, Here, Quiet, DecodeConnack;
      QuietRefl(log);
      if state != AwaitingConnack { return ProtocolViolation; }
      var info := DecodeConnack(body);
      if info.Failure? { return info.error; }
      connack := info.value;
      if connack.code != 0 { return ConnectionRefused; }
      BecomeConnected();
      retransmitNow := true;
      return Ok;
    }

    method BecomeConnected()
      requires Valid() && state == AwaitingConnack
      modifies this`state, this`pingOutstanding, this`subscriptions, this`log
      ensures Valid() && subscriptions == old(subscriptions) && Here() == old(Here()).(state := Connected)
      ensures log == old(log).(path := old(log.path) + [Connected])
      ensures Quiet(old(log), log)
    {
      hide Sound;
      FlaggedAgain(cfg, Snapshot());
      NoPingYet();
      if !connack.sessionPresent { subscriptions := Subscriptions.Flagged(subscriptions); }
      pingOutstanding := false;
      MoveTo(Connected);
    }

    lemma NoPingYet()
      requires Valid() && !Established(state)
      ensures !pingOutstanding
    {
    }

    method TakePingresp()
      requires Valid()
      modifies this`pingOutstanding, this`log
      ensures Valid() && Here() == old(Here()) && !pingOutstanding
              && log == old(log).(pings := old(log.pings) + [Response])
      ensures Quiet(old(log), log)
    {
      hide Sound;
      PongedSound(cfg, Snapshot());
      pingOutstanding := false;
      log := log.(pings := log.pings + [Response]);
    }

    //
    // Handlers
    //

    /** An application handler: any number of calls back into the client, in any order. A message
        handler may not subscribe or unsubscribe (`mayRequest`), so it leaves the table that is being
        walked alone. A nested step() is refused, so the stack stays bounded. */
    method Callback(mayRequest: bool)
      requires Valid() && inStep
      modifies this, tx, tx.buffer, link, clock
      ensures Valid() && inStep && Kept(old(Here()), Here())
      ensures Quiet(old(log), log)
      ensures !mayRequest ==> Subscriptions.SameRows(old(subscriptions), subscriptions)
      ensures Subscriptions.Extends(old(subscriptions), subscriptions)
      decreases 1, 3
    {
      hide Sound, Consistent, Valid, Shapes, Snapshot, Here, Kept, Quiet, Subscriptions.SameRows, Subscriptions.Extends;
      var calls: int := *;
      KeptRefl(Here());
      QuietRefl(log);
      Subscriptions.SameRowsRefl(subscriptions);
      Subscriptions.ExtendsRefl(subscriptions);
      while calls > 0
        invariant Valid() && inStep && Kept(old(Here()), Here()) && Quiet(old(log), log)
        invariant !mayRequest ==> Subscriptions.SameRows(old(subscriptions), subscriptions)
        invariant Subscriptions.Extends(old(subscriptions), subscriptions)
      {
        var act: Act := *;
        ghost var before, past, rows := Here(), log, subscriptions;
        if mayRequest || !(act.DoSubscribe? || act.DoUnsubscribe?) {
          Perform(act);
          QuietTrans(old(log), past, log);
          Subscriptions.ExtendsTrans(old(subscriptions), rows, subscriptions);
          KeptTrans(old(Here()), before, Here());
          if !mayRequest { Subscriptions.SameRowsTrans(old(subscriptions), rows, subscriptions); }
        }
        calls := calls - 1;
      }
    }

    method Perform(act: Act)
      requires Valid() && inStep
      modifies this, tx, tx.buffer, link, clock
      ensures Valid() && inStep && Kept(old(Here()), Here())
      ensures Quiet(old(log), log)
      ensures !act.DoSubscribe? ==> Subscriptions.SameRows(old(subscriptions), subscriptions)
      ensures Subscriptions.Extends(old(subscriptions), subscriptions)
      decreases 1, 2
    {
      hide Sound, Consistent, Valid, Shapes, Snapshot, Here, Kept, Quiet, Subscriptions.Extends,
           Subscriptions.SameRows, Accepted, Subscribed, Unsubscribed, CanPublish, CanSubscribe, CanUnsubscribe,
           Cleaned, Opened;
      KeptRefl(Here());
      QuietRefl(log);
      Subscriptions.SameRowsRefl(subscriptions);
      Subscriptions.ExtendsRefl(subscriptions);
      match act
      case DoNothing =>
      case DoPublish(topic, payload, qos, retain) => var e, id := Publish(topic, payload, qos, retain);
      case DoSubscribe(subs, handler) => var e, id := Subscribe(subs, handler);
      case DoUnsubscribe(filters) => var e, id := Unsubscribe(filters);
      case DoDisconnect => var e := Disconnect(); Subscriptions.SameRowsExtend(old(subscriptions), subscriptions);
      case DoAbort => Abort(); Subscriptions.SameRowsExtend(old(subscriptions), subscriptions);
      case DoConnect(options) => var e := Connect(options);
      case DoStep =>
        var e;
        ghost var rounds;
        e, rounds := Step();
    }

    /** on_connect is called. */
    method ConnectHandler()
      requires Valid() && inStep
      modifies this, tx, tx.buffer, link, clock
      ensures Valid() && inStep && Kept(old(Here()), Here())
      ensures Quiet(Called(old(log), OnConnect(old(connack))), log)
      ensures Subscriptions.Extends(old(subscriptions), subscriptions)
      decreases 1, 4
    {
      hide Sound, Consistent, Valid, Shapes, Snapshot, Here, Kept, Quiet, Subscriptions.Extends;
      NoteCall(OnConnect(connack));
      Callback(true);
    }

    /** on_delivery is called, with the packet id of publication `uid`. */
    method DeliveryHandler(id: u16, ghost uid: nat)
      requires Consistent() && inStep && log.owed == [OnDelivery(uid, id)]
      modifies this, tx, tx.buffer, link, clock
      ensures Valid() && inStep && Kept(old(Here()), Here())
      ensures Quiet(Told(old(log)), log)
      ensures Subscriptions.Extends(old(subscriptions), subscriptions)
      decreases 1, 4
    {
      hide Sound, Consistent, Valid, Shapes, Snapshot, Here, Kept, Quiet, Subscriptions.Extends;
      CallOwed();
      Callback(true);
    }

    /** on_suback is called. */
    method SubackHandler(id: u16, codes: bytes)
      requires Valid() && inStep
      modifies this, tx, tx.buffer, link, clock
      ensures Valid() && inStep && Kept(old(Here()), Here())
      ensures Quiet(Called(old(log), OnSuback(id, codes)), log)
      ensures Subscriptions.Extends(old(subscriptions), subscriptions)
      decreases 1, 4
    {
      hide Sound, Consistent, Valid, Shapes, Snapshot, Here, Kept, Quiet, Subscriptions.Extends;
      NoteCall(OnSuback(id, codes));
      Callback(true);
    }

    /** A message handler is called: that of a row, or the fallback. */
    method MessageHandler(row: Option<u16>, m: Message)
      requires Valid() && inStep
      modifies this, tx, tx.buffer, link, clock
      ensures Valid() && inStep && Kept(old(Here()), Here())
      ensures Quiet(old(log).(heard := log.heard), log) && log.heard == old(log.heard) + [Hearing(row, m)]
      ensures Subscriptions.SameRows(old(subscriptions), subscriptions)
      decreases 1, 4, 0
    {
      hide Sound, Consistent, Valid, Shapes, Snapshot, Here, Kept, Subscriptions.SameRows;
      NoteHearing(Hearing(row, m));
      Callback(false);
    }

    ghost method NoteHearing(h: Hearing)
      requires Valid()
      modifies this`log
      ensures Valid() && Here() == old(Here()) && log == old(log).(heard := old(log.heard) + [h])
    {
      hide Sound;
      HearingSound(cfg, Snapshot(), log.heard + [h]);
      log := log.(heard := log.heard + [h]);
    }

    //
    // Dispatch
    //

    /** Hands a message to the handler of every row whose filter matches, in table order, until one of
        them ends the session; to the fallback if there is no such row. `called` are the rows called. */
    method Dispatch(m: Message) returns (ghost called: seq<nat>, ghost fallback: bool)
      requires Valid() && inStep && state == Connected
      requires Inbound.DisciplinedAt(log.inbound + [Inbound.Dispatched(m.qos, m.packetId)], |log.inbound|)
      modifies this, tx, tx.buffer, link, clock
      ensures Valid() && inStep && Kept(old(Here()), Here())
      ensures Quiet(Dispatches(old(log), m).(heard := log.heard), log)
      ensures Subscriptions.SameRows(old(subscriptions), subscriptions)
      ensures var hits := Hits(old(subscriptions), m.topic, |old(subscriptions)|);
              && (called == hits || (called != [] && called <= hits && state != Connected))
              && (fallback <==> hits == [])
      ensures Inside(called, |old(subscriptions)|)
      ensures log.heard == old(log.heard) + if fallback then [Hearing(None, m)]
              else Hearings(old(subscriptions), called, m)
      decreases 1, 5
    {
      hide Sound, Consistent, Valid, Shapes, Snapshot, Here, Kept, Quiet, Subscriptions.SameRows, Hearings, Hits,
           Inside, Inbound.DisciplinedAt;
      var handled;
      NoteEvent(Inbound.Dispatched(m.qos, m.packetId));
      ghost var noted := log;
      handled, called := OfferToRows(m);
      fallback := !handled;
      if !handled {
        ghost var before, past, t := Here(), log, subscriptions;
        MessageHandler(None, m);
        Subscriptions.SameRowsTrans(old(subscriptions), t, subscriptions);
        KeptTrans(old(Here()), before, Here());
        QuietHearings(noted, past, log);
        HearingsNone(old(subscriptions), m, noted.heard);
      }
    }

    method OfferToRows(m: Message) returns (handled: bool, ghost called: seq<nat>)
      requires Valid() && inStep && state == Connected
      modifies this, tx, tx.buffer, link, clock
      ensures Valid() && inStep && Kept(old(Here()), Here())
      ensures Quiet(old(log).(heard := log.heard), log) && Subscriptions.SameRows(old(subscriptions), subscriptions)
      ensures var hits := Hits(old(subscriptions), m.topic, |old(subscriptions)|);
              called == hits || (called != [] && called <= hits && state != Connected)
      ensures handled == (called != []) && Inside(called, |old(subscriptions)|)
      ensures log.heard == old(log.heard) + Hearings(old(subscriptions), called, m)
      decreases 1, 4, 2
    {
      hide Sound, Consistent, Valid, Shapes, Snapshot, Here, Kept, Quiet, Subscriptions.SameRows, Topic.Matches,
           Hearings, Hits, Inside;
      ghost var rows, first := subscriptions, log;
      called := [];
      var n, i := |subscriptions|, 0;
      handled := false;
      KeptRefl(Here());
      QuietRefl(log);
      Subscriptions.SameRowsRefl(rows);
      HearingsNone(rows, m, log.heard);
      HitsStart(rows, m.topic);
      while i < n
        invariant i <= n == |rows| && Valid() && inStep && state == Connected && Kept(old(Here()), Here())
        invariant Quiet(first.(heard := log.heard), log)
        invariant Subscriptions.SameRows(rows, subscriptions) && called == Hits(rows, m.topic, i)
        invariant handled == (called != []) && Inside(called, |rows|)
        invariant log.heard == first.heard + Hearings(rows, called, m)
      {
        Subscriptions.SameRowsAt(rows, subscriptions, i);
        ghost var before, past, t := Here(), log, subscriptions;
        var matched := OfferToRow(i, m);
        KeptTrans(old(Here()), before, Here());
        QuietHearings(first, past, log);
        Subscriptions.SameRowsTrans(rows, t, subscriptions);
        HitsNext(rows, called, i, m, first.heard);
        if matched {
          handled, called := true, called + [i];
          if state != Connected { return; }
        }
        i := i + 1;
      }
    }

    /** The handler of row i is called, once, exactly if the row has one and its filter matches. */
    method OfferToRow(i: nat, m: Message) returns (matched: bool)
      requires Valid() && inStep && state == Connected && i < |subscriptions|
      modifies this, tx, tx.buffer, link, clock
      ensures Valid() && inStep && Kept(old(Here()), Here()) && (!matched ==> state == Connected)
      ensures Quiet(old(log).(heard := log.heard), log) && Subscriptions.SameRows(old(subscriptions), subscriptions)
      ensures matched <==> old(subscriptions)[i].hasHandler && Topic.Matches(old(subscriptions)[i].filter, m.topic)
      ensures log.heard == if matched then old(log.heard) + [Hearing(Some(old(subscriptions)[i].subId), m)]
                           else old(log.heard)
      decreases 1, 4, 1
    {
      hide Sound, Consistent, Valid, Shapes, Snapshot, Here, Kept, Quiet, Subscriptions.SameRows, Topic.Matches,
           Topic.InnerHash, Topic.Levels;
      KeptRefl(Here());
      QuietRefl(log);
      Subscriptions.SameRowsRefl(subscriptions);
      if !subscriptions[i].hasHandler { return false; }
      RowMatchesExactly(i, |Topic.Levels(m.topic)|);
      matched := Topic.TopicMatches(subscriptions[i].filter, m.topic);
      if matched { MessageHandler(Some(subscriptions[i].subId), m); }
    }

    lemma RowMatchesExactly(i: nat, n: nat)
      requires Valid() && Established(state) && i < |subscriptions|
      ensures !Topic.InnerHash(Topic.Levels(subscriptions[i].filter), n)
    {
      hide Sound, Topic.ValidFilter;
      RowsSound();
      Topic.ValidFilterMatchesExactly(subscriptions[i].filter, n);
    }

    //
    // Packets
    //

    /** `mid` is the state of the tables just before a handler runs, here and below: the message has
        been acknowledged, and its dispatch recorded exactly if it is to be delivered. */
    method HandlePublish(h: FixedHeader, body: bytes) returns (e: Error, ghost mid: Tables)
      requires Valid() && inStep && state != Idle && ValidQos(h.qos)
      modifies this, tx, tx.buffer, link, clock
      ensures Valid() && inStep && Kept(old(Here()), Here())
              && (e != Ok ==> Here() == old(Here()) && Now() == old(Now()))
      ensures Grown(old(log), log) && Quiet(mid.log, log) && Subscriptions.Extends(mid.subs, subscriptions)
      ensures e == Ok <==> old(state) == Connected && DecodePublish(h, body).Success?
      ensures e == Ok ==> PublishHandled(old(Now()), mid, DecodePublish(h, body).value, cfg.maxInflightIn, old(Room(4)))
      ensures SameReads(old(log.counts), log.counts) && e != KeepAliveTimeout
      decreases 1, 6, 1
    {
      hide Sound, Consistent, Valid, Shapes, Snapshot, Here, Kept, Quiet, Grown, PublishHandled, Subscriptions.Extends;
      KeptRefl(Here());
      QuietRefl(log);
      GrownRefl(log);
      Subscriptions.ExtendsRefl(subscriptions);
      mid := Now();
      if state != Connected { return ProtocolViolation, mid; }
      var msg := DecodePublish(h, body);
      DecodedPublish(h, body);
      hide DecodePublish;
      if msg.Failure? { return msg.error, mid; }
      mid := HandleMessage(msg.value);
      return Ok, mid;
    }

    method HandleMessage(m: Message) returns (ghost mid: Tables)
      requires Valid() && inStep && state == Connected && ValidQos(m.qos) && (m.qos != AT_MOST_ONCE ==> m.packetId != 0)
      modifies this, tx, tx.buffer, link, clock
      ensures Valid() && inStep && Kept(old(Here()), Here())
      ensures Grown(old(log), log) && Quiet(mid.log, log) && Subscriptions.Extends(mid.subs, subscriptions)
      ensures PublishHandled(old(Now()), mid, m, cfg.maxInflightIn, old(Room(4)))
      ensures SameReads(old(log.counts), log.counts)
      decreases 1, 6, 0
    {
      hide Sound, Consistent, Valid, Shapes, Snapshot, Here, Kept, Hits, Audience, Quiet, Grown, Inbound.DisciplinedAt,
           Subscriptions.Extends, Subscriptions.SameRows, Arrived, Delivers;
      KeptRefl(Here());
      var deliver := TakeMessage(m);
      mid := Now();
      QuietRefl(log);
      Subscriptions.ExtendsRefl(subscriptions);
      if deliver {
        ghost var taken, rows := log, subscriptions;
        ghost var called, fallback := Dispatch(m);
        mid := mid.(log := Dispatches(taken, m).(heard := log.heard));
        AudienceHeard(rows, m, called, fallback);
        GrownDispatches(old(log), taken, m, log.heard);
        QuietSince(mid.log, log);
        GrownTrans(old(log), mid.log, log);
        Subscriptions.SameRowsExtend(mid.subs, subscriptions);
      }
    }

    /** TakePublish, as a step of the protocol. */
    method TakeMessage(m: Message) returns (deliver: bool)
      requires Valid() && state != Idle && ValidQos(m.qos) && (m.qos != AT_MOST_ONCE ==> m.packetId != 0)
      modifies this`inboundIds, this`inboundOverflowCount, this`txBackpressureCount, this`log, tx, tx.buffer
      ensures Valid() && Here() == old(Here()) && Grown(old(log), log) && log.counts == old(log.counts)
      ensures Arrived(old(log), m, cfg.maxInflightIn, old(Room(4))) == (if deliver then Dispatches(log, m) else log)
      ensures deliver == Delivers(old(log), m, cfg.maxInflightIn, old(Room(4))) && log.heard == old(log.heard)
      ensures deliver ==> Inbound.DisciplinedAt(log.inbound + [Inbound.Dispatched(m.qos, m.packetId)], |log.inbound|)
    {
      hide Sound, Consistent, Valid, Shapes, Snapshot, Here, Grown, Acknowledged, Arrived, Delivers,
           Inbound.DisciplinedAt;
      QueueOk();
      ghost var room := Room(4);
      deliver := TakePublish(m);
      ArrivalIsReceipt(old(log), log, m, cfg.maxInflightIn, room, deliver);
      ArrivedCounts(old(log), m, cfg.maxInflightIn, room);
    }

    method HandleConnack(body: bytes) returns (e: Error, ghost mid: Tables)
      requires Valid() && inStep && state != Idle
      modifies this, tx, tx.buffer, link, clock
      ensures Valid() && inStep && Kept(old(Here()), Here())
              && (e != Ok ==> Here() == old(Here()) && Now() == old(Now()))
      ensures Grown(old(log), log) && Quiet(mid.log, log) && Subscriptions.Extends(mid.subs, subscriptions)
      ensures e == Ok <==> old(state) == AwaitingConnack && ConnackAccepts(body)
      ensures e == Ok ==> mid == old(Now()).(log := Connects(old(log), DecodeConnack(body).value))
      ensures SameReads(old(log.counts), log.counts) && e != KeepAliveTimeout
      decreases 1, 6, 1
    {
      hide Sound, Consistent, Valid, Shapes, Snapshot, ConnackAccepts, DecodeConnack, Quiet, Subscriptions.Extends;
      Subscriptions.ExtendsRefl(subscriptions);
      e := TakeConnack(body);
      mid := Now();
      QuietRefl(log);
      if e != Ok { return; }
      ghost var before := Here();
      KeptMoved(old(Here()), before);
      hide Here, Kept;
      mid := mid.(log := Called(log, OnConnect(connack)));
      ConnectHandler();
      KeptTrans(old(Here()), before, Here());
      QuietSince(mid.log, log);
    }

    /** The packets that carry only a packet id. */
    method HandleById(kind: PacketType, body: bytes) returns (e: Error, ghost mid: Tables)
      requires Valid() && inStep && state != Idle
      requires kind == Puback || kind == Pubrec || kind == Pubrel || kind == Pubcomp || kind == Unsuback
      modifies this, tx, tx.buffer, link, clock
      ensures Valid() && inStep && Kept(old(Here()), Here())
              && (e != Ok ==> Here() == old(Here()) && Now() == old(Now()))
      ensures Grown(old(log), log) && Quiet(mid.log, log) && Subscriptions.Extends(mid.subs, subscriptions)
      ensures (e == Ok <==> DecodePacketId(body).Success?) && (e != Ok ==> DecodePacketId(body) == Failure(e))
      ensures e == Ok ==> IdHandled(kind, old(Now()), mid, DecodePacketId(body).value, cfg.maxInflightIn, old(Room(4)))
      ensures kind == Pubrec || kind == Pubrel || kind == Unsuback ==> Now() == mid
      ensures SameReads(old(log.counts), log.counts) && e != KeepAliveTimeout
      decreases 1, 6, 1
    {
      OtherErrors(body);
      hide Sound, Consistent, Valid, Shapes, Snapshot, Here, Kept, Quiet, Grown, IdHandled, Subscriptions.Extends;
      KeptRefl(Here());
      QuietRefl(log);
      GrownRefl(log);
      Subscriptions.ExtendsRefl(subscriptions);
      mid := Now();
      var id := DecodePacketId(body);
      if id.Failure? { return id.error, mid; }
      if kind == Puback || kind == Pubcomp {
        mid := HandleLastAck(kind, id.value);
        return Ok, mid;
      }
      TakeById(kind, id.value);
      mid := Now();
      QuietRefl(log);
      Subscriptions.ExtendsRefl(subscriptions);
      return Ok, mid;
    }

    /** PUBACK and PUBCOMP; on_delivery is called, once, exactly if a publication completes. */
    method HandleLastAck(kind: PacketType, id: u16) returns (ghost mid: Tables)
      requires Valid() && inStep && (kind == Puback || kind == Pubcomp)
      modifies this, tx, tx.buffer, link, clock
      ensures Valid() && inStep && Kept(old(Here()), Here())
      ensures Grown(old(log), log) && Quiet(mid.log, log) && Subscriptions.Extends(mid.subs, subscriptions)
      ensures IdHandled(kind, old(Now()), mid, id, cfg.maxInflightIn, old(Room(4)))
      ensures SameReads(old(log.counts), log.counts)
      decreases 1, 6, 0
    {
      hide Sound, Consistent, Valid, Shapes, Snapshot, Here, Kept, Quiet, Grown, IdHandled, Subscriptions.Extends;
      KeptRefl(Here());
      Subscriptions.ExtendsRefl(subscriptions);
      var done;
      ghost var uid;
      done, uid := TakeLastAck(kind, id);
      mid := Now().(log := Told(log));
      GrownTold(old(log), log);
      if done {
        DeliveryHandler(id, uid);
        QuietSince(mid.log, log);
        GrownTrans(old(log), mid.log, log);
      } else {
        NothingOwed();
        ToldNothing(log);
        QuietRefl(log);
      }
    }

    method TakeLastAck(kind: PacketType, id: u16) returns (done: bool, ghost uid: nat)
      requires Valid() && (kind == Puback || kind == Pubcomp)
      modifies this`outbound, this`log
      ensures Consistent() && Here() == old(Here()) && Grown(old(log), log) && log.counts == old(log.counts)
      ensures IdHandled(kind, old(Now()), Now().(log := Told(log)), id, cfg.maxInflightIn, old(Room(4)))
      ensures done == SenderCompletes(old(log.inflight), if kind == Puback then Ack(id) else Comp(id)).Some?
      ensures log.owed == if done then [OnDelivery(uid, id)] else []
    {
      hide Sound, Consistent, Valid, Shapes, Snapshot, Here, Grown, Acks, SenderCompletes;
      ghost var p := if kind == Puback then Ack(id) else Comp(id);
      ghost var reported := SenderCompletes(log.inflight, p);
      uid := if reported.Some? then reported.value else 0;
      done := CompleteSlot(id, if kind == Puback then WaitPuback else WaitPubcomp);
      AcksAnyRoom(old(log), Told(log), p);
      AcksCounts(old(log), Told(log), p);
    }

    /** Those after which no handler runs. */
    method TakeById(kind: PacketType, id: u16)
      requires Valid() && state != Idle && id != 0 && (kind == Pubrec || kind == Pubrel || kind == Unsuback)
      modifies this`outbound, this`inboundIds, this`subscriptions, this`pending, this`log, this`txBackpressureCount,
               tx, tx.buffer, clock
      ensures Valid() && Here() == old(Here()) && Grown(old(log), log) && log.counts == old(log.counts)
      ensures IdHandled(kind, old(Now()), Now(), id, cfg.maxInflightIn, old(Room(4)))
    {
      hide Sound, Consistent, Valid, Shapes, Snapshot, Here, Grown, SenderSlots, SenderCompletes, SenderAnswers,
           ReceiverTracks, ReceiverAnswers, Inbound.Tracked, Unknown, AckBytes;
      if kind == Pubrec {
        TakePubrec(id);
      } else if kind == Pubrel {
        TakePubrel(id);
      } else {
        TakeUnsuback(id);
      }
    }

    /** Refused if it cannot be decoded, or if it does not answer each filter of the request it names. */
    method HandleSuback(body: bytes) returns (e: Error, ghost mid: Tables)
      requires Valid() && inStep
      modifies this, tx, tx.buffer, link, clock
      ensures Valid() && inStep && Kept(old(Here()), Here())
              && (e != Ok ==> Here() == old(Here()) && Now() == old(Now()))
      ensures Grown(old(log), log) && Quiet(mid.log, log) && Subscriptions.Extends(mid.subs, subscriptions)
      ensures DecodeSuback(body).Failure? ==> DecodeSuback(body) == Failure(e)
      ensures DecodeSuback(body).Success? ==>
                var v := DecodeSuback(body).value;
                e == if Unknown(old(pending), v.packetId, Suback) || Expects(old(pending), v)
                    then Ok else ProtocolViolation
      ensures e == Ok ==> DecodeSuback(body).Success? && SubackHandled(old(Now()), mid, DecodeSuback(body).value)
      ensures SameReads(old(log.counts), log.counts) && e != KeepAliveTimeout
      decreases 1, 6, 1
    {
      hide Sound, Consistent, Valid, Shapes, Snapshot, Here, Kept, Quiet, Grown, Unknown, Expects,
           Subscriptions.Extends;
      KeptRefl(Here());
      QuietRefl(log);
      GrownRefl(log);
      Subscriptions.ExtendsRefl(subscriptions);
      mid := Now();
      var view := DecodeSuback(body);
      SubackErrors(body);
      hide DecodeSuback;
      if view.Failure? { return view.error, mid; }
      var known;
      e, known := TakeSuback(view.value);
      SettledUnknown(old(Now()), Now(), view.value);
      hide Settled;
      mid := Now();
      QuietRefl(log);
      Subscriptions.ExtendsRefl(subscriptions);
      if known {
        GrownCalled(old(log), log, OnSuback(view.value.packetId, view.value.returnCodes));
        mid := mid.(log := Called(log, OnSuback(view.value.packetId, view.value.returnCodes)));
        SubackHandler(view.value.packetId, view.value.returnCodes);
        QuietSince(mid.log, log);
        GrownTrans(old(log), mid.log, log);
      }
    }

    /** A complete packet. An error never comes with a session that ended meanwhile. */
    method HandlePacket(h: FixedHeader, body: bytes) returns (e: Error, ghost mid: Tables)
      requires Valid() && inStep && state != Idle && ValidQos(h.qos)
      modifies this, tx, tx.buffer, link, clock
      ensures Valid() && inStep && Kept(old(Here()), Here())
              && (e != Ok ==> Here() == old(Here()) && Now() == old(Now()))
      ensures Grown(old(log), log) && Quiet(mid.log, log) && Subscriptions.Extends(mid.subs, subscriptions)
      ensures e == Ok ==> PacketHandled(old(Now()), mid, h, body, cfg.maxInflightIn, old(Room(4)))
      ensures SameReads(old(log.counts), log.counts) && e != KeepAliveTimeout
      decreases 1, 6, 3
    {
      hide Sound, Consistent, Valid, Shapes, Snapshot, Here, Kept, Grown, Quiet, DecodePublish, DecodePacketId,
           DecodeSuback, DecodeConnack, ConnackAccepts, Connects, IdHandled, SubackHandled, PublishHandled,
           Subscriptions.Extends;
      match h.kind
      case Connack => e, mid := HandleConnack(body);
      case Publish => e, mid := HandlePublish(h, body);
      case Suback => e, mid := HandleSuback(body);
      case Pingresp => e, mid := HandlePingresp(body);
      case _ => e, mid := HandleRest(h.kind, body);
    }

    method HandlePingresp(body: bytes) returns (e: Error, ghost mid: Tables)
      requires Valid() && inStep
      modifies this`pingOutstanding, this`log
      ensures Valid() && inStep && Kept(old(Here()), Here()) && (e != Ok ==> Now() == old(Now()))
      ensures Grown(old(log), log) && Quiet(mid.log, log) && Subscriptions.Extends(mid.subs, subscriptions)
      ensures e == (if body == [] then Ok else MalformedPacket) && Here() == old(Here())
      ensures e == Ok ==> mid == old(Now()).(log := old(log).(pings := old(log.pings) + [Response])) && !pingOutstanding
      ensures SameReads(old(log.counts), log.counts)
    {
      hide Sound, Consistent, Valid, Shapes, Snapshot, Here, Kept, Grown, Quiet, Subscriptions.Extends;
      KeptRefl(Here());
      GrownRefl(log);
      QuietRefl(log);
      Subscriptions.ExtendsRefl(subscriptions);
      mid := Now();
      if body != [] { return MalformedPacket, mid; }
      TakePingresp();
      mid := Now();
      QuietGrows(old(log), log);
      QuietRefl(log);
      return Ok, mid;
    }

    /** What is neither of the packets above: an acknowledgement, or nothing that a server may send. */
    method HandleRest(kind: PacketType, body: bytes) returns (e: Error, ghost mid: Tables)
      requires Valid() && inStep && state != Idle
      modifies this, tx, tx.buffer, link, clock
      ensures Valid() && inStep && Kept(old(Here()), Here())
              && (e != Ok ==> Here() == old(Here()) && Now() == old(Now()))
      ensures Grown(old(log), log) && Quiet(mid.log, log) && Subscriptions.Extends(mid.subs, subscriptions)
      ensures e == Ok ==> DecodePacketId(body).Success?
                          && IdHandled(kind, old(Now()), mid, DecodePacketId(body).value,
                             cfg.maxInflightIn, old(Room(4)))
      ensures SameReads(old(log.counts), log.counts) && e != KeepAliveTimeout
      decreases 1, 6, 2
    {
      hide Sound, Consistent, Valid, Shapes, Snapshot, Here, Kept, Grown, Quiet, DecodePacketId, IdHandled,
           Subscriptions.Extends;
      KeptRefl(Here());
      GrownRefl(log);
      QuietRefl(log);
      Subscriptions.ExtendsRefl(subscriptions);
      mid := Now();
      if kind == Puback || kind == Pubrec || kind == Pubrel || kind == Pubcomp || kind == Unsuback {
        e, mid := HandleById(kind, body);
      } else {
        e := ProtocolViolation;
      }
    }

    //
    // Receiving
    //

    /** A packet of n bytes at the front of the buffer is about to be handled. */
    ghost method BeginPacket(p: Peek)
      requires Valid() && inStep && log.busy == 0 && LookAt(rx[..rxLen], cfg.rxBufferSize) == Whole(p)
      modifies this`log
      ensures Valid() && p.totalBytes <= rxLen && log == TakenUp(old(log), rx[..p.totalBytes])
      ensures Here() == old(Here()).(frames := old(log.frames) + [rx[..p.totalBytes]], busy := p.totalBytes)
    {
      hide Sound, LookAt;
      BeginSound(cfg, Snapshot());
      assert rx[..rxLen][..p.totalBytes] == rx[..p.totalBytes];
      log := TakenUp(log, rx[..p.totalBytes]);
    }

    /** The packet handled leaves the buffer; the rest moves to the front. */
    method ShiftDown(n: nat)
      requires Valid() && inStep && log.busy == n <= rxLen
      modifies this`rxLen, this`log, rx
      ensures Valid() && Here() == old(Here()).(rxLen := old(rxLen) - n, busy := 0)
      ensures Quiet(old(log), log) && log == old(log).(busy := 0)
    {
      hide Sound;
      ShiftSound(cfg, Snapshot());
      var leftover := rxLen - n;
      forall k | 0 <= k < leftover { rx[k] := rx[n + k]; }
      rxLen := leftover;
      log := log.(busy := 0);
      assert rx[..rxLen] == old(rx[..rxLen])[n..];
    }

    lemma BusyFits()
      requires Valid()
      ensures log.busy <= rxLen && rxLen <= cfg.rxBufferSize == rx.Length && cfg.rxBufferSize > 0
              && (rxLen > 0 ==> state != Idle)
    {
      var v := Snapshot();
      assert |v.rx| == rxLen;
    }

    /** Handles the packet at the front and drops it. If a handler ended the session meanwhile, the
        buffer is already empty and there is nothing to drop: the reason is reported instead. */
    method DrainOne(p: Peek) returns (e: Error, over: bool, ghost mid: Tables)
      requires Valid() && inStep && log.busy == 0 && LookAt(rx[..rxLen], cfg.rxBufferSize) == Whole(p)
      modifies this, tx, tx.buffer, link, clock, rx
      ensures Valid() && inStep && log.busy == 0 && over == !SameSession(old(Here()), Here())
      ensures Grown(old(log), log)
      ensures DrainedOne(old(Here()), Here(), p.totalBytes, e)
      ensures log.counts ==
              old(log.counts).(handled := old(log.counts.handled) + 1, hardCloses := log.counts.hardCloses)
      ensures p.headerBytes <= p.totalBytes <= old(rxLen) <= rx.Length
      ensures var input := old(rx[..rxLen]);
              Outcome(old(Now()).(log := TakenUp(old(log), input[..p.totalBytes])), mid, Now(), p.header,
                      input[p.headerBytes..p.totalBytes], cfg.maxInflightIn, old(Room(4)), over || e == Ok)
      decreases 1, 7, 2
    {
      hide Sound, Consistent, Valid, Shapes, Snapshot, Here, Quiet, Grown, SameSession, DrainedOne, TakenUp, Outcome,
           LookAt, Room;
      BusyFits();
      var err;
      err, mid := HandleFront(p);
      ghost var past, there := log, Now();
      ghost var here := Here();
      HereIs();
      if rxLen < p.totalBytes { SameMark(here); }
      e, over := DropPacket(p.totalBytes, err);
      assert Now() == Tables(past.(busy := 0), there.subs, there.pending);
      QuietGrows(past, log);
      GrownTrans(old(log), past, log);
    }

    /** The packet at the front has been handled: its bytes are still there, or the session is over. */
    method HandleFront(p: Peek) returns (e: Error, ghost mid: Tables)
      requires Valid() && inStep && log.busy == 0 && LookAt(rx[..rxLen], cfg.rxBufferSize) == Whole(p)
               && rxLen <= rx.Length
      modifies this, tx, tx.buffer, link, clock
      ensures Valid() && inStep && Grown(old(log), log) && p.headerBytes <= p.totalBytes <= old(rxLen)
      ensures if rxLen < p.totalBytes then
                && e == Ok && rxLen == 0 && log.busy == 0 && !SameSession(old(Here()), Here())
                && DrainedOne(old(Here()), Here(), p.totalBytes, lastError)
              else
                && log.busy == p.totalBytes
                && SameSession(old(Here()), Here().(rxLen := rxLen - p.totalBytes, busy := 0))
                && DrainedOne(old(Here()), Here().(rxLen := rxLen - p.totalBytes, busy := 0), p.totalBytes, e)
      ensures log.counts ==
              old(log.counts).(handled := old(log.counts.handled) + 1, hardCloses := log.counts.hardCloses)
      ensures var input := old(rx[..rxLen]);
              Outcome(old(Now()).(log := TakenUp(old(log), input[..p.totalBytes])), mid,
                      Tables(log.(busy := 0), subscriptions, pending), p.header,
                      input[p.headerBytes..p.totalBytes], cfg.maxInflightIn, old(Room(4)), e == Ok)
      decreases 1, 7, 1
    {
      hide Sound, Consistent, Valid, Shapes, Snapshot, Quiet, Grown, Kept, DrainedOne, TakenUp, Outcome, LookAt;
      ghost var input := rx[..rxLen];
      e, mid := TakeUpPacket(p);
      HandledOne(old(Here()), Here(), input[..p.totalBytes], e);
      BusyFits();
    }

    /** What follows the handler: the packet leaves the buffer, unless the buffer was emptied meanwhile. */
    method DropPacket(n: nat, err: Error) returns (e: Error, over: bool)
      requires Valid() && inStep && (if rxLen < n then rxLen == 0 else log.busy == n)
      modifies this`rxLen, this`log, rx
      ensures Valid() && log.busy == 0 && log == old(log).(busy := 0) && Quiet(old(log), log)
      ensures over == (old(rxLen) < n)
      ensures e == if over && err == Ok then lastError else err
      ensures Here() == old(Here()).(rxLen := if over then 0 else old(rxLen) - n, busy := 0)
    {
      hide Sound, Consistent, Valid, Shapes, Snapshot, Quiet;
      QuietRefl(log);
      BusyFits();
      if rxLen < n {
        rxLen := 0;
        return if err != Ok then err else lastError, true;
      }
      ShiftDown(n);
      return err, false;
    }

    /** The packet at the front goes to its handler. */
    method TakeUpPacket(p: Peek) returns (e: Error, ghost mid: Tables)
      requires Valid() && inStep && log.busy == 0 && LookAt(rx[..rxLen], cfg.rxBufferSize) == Whole(p)
               && rxLen <= rx.Length
      modifies this, tx, tx.buffer, link, clock
      ensures Valid() && inStep && 2 <= p.totalBytes <= old(rxLen)
              && p.headerBytes <= p.totalBytes && old(state) != Idle
      ensures Grown(old(log), log) && (e != Ok ==> rxLen == old(rxLen)) && e != KeepAliveTimeout
      ensures log.counts ==
              old(log.counts).(handled := old(log.counts.handled) + 1, hardCloses := log.counts.hardCloses)
      ensures var input := old(rx[..rxLen]);
              && Kept(old(Here()).(frames := old(log.frames) + [input[..p.totalBytes]], busy := p.totalBytes), Here())
              && Outcome(old(Now()).(log := TakenUp(old(log), input[..p.totalBytes])), mid,
                         Tables(log.(busy := 0), subscriptions, pending), p.header,
                         input[p.headerBytes..p.totalBytes], cfg.maxInflightIn, old(Room(4)), e == Ok)
      decreases 1, 7, 0
    {
      hide Sound, Consistent, Valid, Shapes, Snapshot, Kept, Quiet, Grown, PacketHandled, Subscriptions.Extends;
      BusyFits();
      WholeExtent(rx[..rxLen], cfg.rxBufferSize);
      PeekedQos(rx[..rxLen], cfg.rxBufferSize);
      hide LookAt;
      BeginPacket(p);
      GrownTakenUp(old(log), rx[..p.totalBytes]);
      assert rx[..p.totalBytes] == rx[..rxLen][..p.totalBytes];
      assert rx[p.headerBytes..p.totalBytes] == rx[..rxLen][p.headerBytes..p.totalBytes];
      ghost var begun := log;
      e, mid := HandlePacket(p.header, rx[p.headerBytes..p.totalBytes]);
      GrownTrans(old(log), begun, log);
      QuietIdle(mid.log, log);
    }

    /** Handles every complete packet in the buffer. What has been handled then is what the one-shot
        parse of everything received in this session gives, however it was cut into pieces; the error of
        the first bytes that cannot become a packet is the error of that parse. */
    method DrainRx() returns (e: Error, ghost fault: Fault)
      requires Valid() && inStep && log.busy == 0
      modifies this, tx, tx.buffer, link, clock, rx
      ensures Valid() && inStep && log.busy == 0 && rxLen <= rx.Length
      ensures Grown(old(log), log)
      ensures Drained(old(Here()), Here(), e)
      ensures log.counts == old(log.counts).(handled := log.counts.handled, hardCloses := log.counts.hardCloses)
      ensures 0 <= 2 * (log.counts.handled - old(log.counts.handled)) <= old(rxLen)
      ensures fault == NoFault <==> e == Ok
      ensures SameSession(old(Here()), Here()) && e == Ok ==>
                Parse(log.received, cfg.rxBufferSize) == Parsed(log.frames, NeedMore(rx[..rxLen]))
      ensures fault == Malformed ==>
                && SameSession(old(Here()), Here())
                && Parse(log.received, cfg.rxBufferSize) == Parsed(log.frames, Broken(e))
      ensures fault == Refusal ==> SameSession(old(Here()), Here()) && |log.frames| > |old(log.frames)|
      ensures fault == Close ==> !SameSession(old(Here()), Here())
      ensures fault != Receive
      ensures e == Ok ==> rxLen < cfg.rxBufferSize && log.resting
      decreases 1, 8
    {
      hide Sound, Consistent, Valid, Shapes, Snapshot, DrainedOne, Drained, Grown, SameSession, Parse, PeekHeader;
      BusyFits();
      DrainedNone(Here());
      GrownRefl(log);
      while true
        invariant Valid() && inStep && log.busy == 0 && rxLen <= rx.Length == cfg.rxBufferSize
        invariant SameSession(old(Here()), Here()) && Drained(old(Here()), Here(), Ok) && Grown(old(log), log)
        invariant log.counts == old(log.counts).(handled := log.counts.handled, hardCloses := log.counts.hardCloses)
        invariant 0 <= 2 * (log.counts.handled - old(log.counts.handled)) <= old(rxLen) - rxLen
        decreases rxLen
      {
        ghost var before, past := Here(), log;
        if rxLen == 0 {
          ComeToRest();
          GrownTrans(old(log), past, log);
          return Ok, NoFault;
        }
        var peek := PeekHeader(rx[..rxLen]);
        if peek.Failure? {
          if peek.error == Incomplete {
            ComeToRest();
            GrownTrans(old(log), past, log);
            return Ok, NoFault;
          }
          PeekErrors(rx[..rxLen]);
          BadParsed(peek.error);
          DrainedBad(old(Here()), Here(), peek.error);
          return peek.error, Malformed;
        }
        if peek.value.totalBytes > cfg.rxBufferSize {
          BadParsed(PacketTooLarge);
          DrainedBad(old(Here()), Here(), PacketTooLarge);
          return PacketTooLarge, Malformed;
        }
        if rxLen < peek.value.totalBytes {
          ComeToRest();
          GrownTrans(old(log), past, log);
          return Ok, NoFault;
        }
        var over;
        e, over := DrainNext(peek.value);
        GrownTrans(old(log), past, log);
        DrainedMore(old(Here()), before, Here(), peek.value.totalBytes, e);
        DrainedFrames(old(Here()), before, Here(), peek.value.totalBytes, e);
        if over && e == Ok {
          past := log;
          ComeToRest();
          GrownTrans(old(log), past, log);
        }
        if over || e != Ok { return e, if e == Ok then NoFault else if over then Close else Refusal; }
      }
    }

    method DrainNext(p: Peek) returns (e: Error, over: bool)
      requires Valid() && inStep && log.busy == 0 && LookAt(rx[..rxLen], cfg.rxBufferSize) == Whole(p)
      modifies this, tx, tx.buffer, link, clock, rx
      ensures Valid() && inStep && log.busy == 0 && over == !SameSession(old(Here()), Here())
      ensures Grown(old(log), log)
      ensures DrainedOne(old(Here()), Here(), p.totalBytes, e) && p.totalBytes >= 2
              && rxLen <= rx.Length == cfg.rxBufferSize
      ensures log.counts ==
              old(log.counts).(handled := old(log.counts.handled) + 1, hardCloses := log.counts.hardCloses)
      ensures p.totalBytes <= old(rxLen) && (!over ==> rxLen + p.totalBytes == old(rxLen))
      decreases 1, 7, 3
    {
      hide Sound, Consistent, Valid, Shapes, Snapshot, Quiet, Grown, Outcome;
      BusyFits();
      WholeExtent(rx[..rxLen], cfg.rxBufferSize);
      hide LookAt;
      ghost var mid;
      e, over, mid := DrainOne(p);
      BusyFits();
    }

    /** Nothing complete is left to handle. */
    ghost method ComeToRest()
      requires Valid() && inStep && log.busy == 0 && rxLen <= rx.Length
               && LookAt(rx[..rxLen], cfg.rxBufferSize).Partial?
      modifies this`log
      ensures Valid() && Here() == old(Here()) && log == old(log).(resting := true) && Grown(old(log), log)
      ensures Parse(log.received, cfg.rxBufferSize) == Parsed(log.frames, NeedMore(rx[..rxLen]))
              && rxLen < cfg.rxBufferSize
    {
      hide Sound, LookAt, Parse;
      PartialParsed();
      RestSound(cfg, Snapshot());
      log := log.(resting := true);
    }

    /** Without a complete packet in the buffer, all packets received have been handled. */
    lemma PartialParsed()
      requires Valid() && log.busy == 0 && rxLen <= rx.Length && LookAt(rx[..rxLen], cfg.rxBufferSize).Partial?
      ensures Parse(log.received, cfg.rxBufferSize) == Parsed(log.frames, NeedMore(rx[..rxLen]))
              && rxLen < cfg.rxBufferSize
    {
      BusyFits();
      PartialIsShort(rx[..rxLen], cfg.rxBufferSize);
      hide WireOk, SlotsOk, FatesOk, SubsOk, StampsOk, Parse, LookAt;
      assert rx[..rxLen][0..] == rx[..rxLen];
      HandledIsParsed(log.received, log.frames, rx[..rxLen], cfg.rxBufferSize);
    }

    /** With bytes at the front that cannot become a packet, neither can the rest of the input. */
    lemma BadParsed(e: Error)
      requires Valid() && log.busy == 0 && rxLen <= rx.Length && LookAt(rx[..rxLen], cfg.rxBufferSize) == Bad(e)
      ensures Parse(log.received, cfg.rxBufferSize) == Parsed(log.frames, Broken(e))
    {
      hide WireOk, SlotsOk, FatesOk, SubsOk, StampsOk, Parse, LookAt;
      assert rx[..rxLen][0..] == rx[..rxLen];
      HandledIsParsed(log.received, log.frames, rx[..rxLen], cfg.rxBufferSize);
    }

    /** One recv() into the free part of the buffer. The stream is open, or else a handler has just
        ended the session with reason Ok: that case alone makes pump_rx() call recv() on a transport
        that it has closed. */
    method ReceiveSome() returns (e: Error, more: bool)
      requires Valid() && inStep && log.busy == 0 && rxLen < rx.Length
      requires link.open || (state == Idle && lastError == Ok)
      modifies this`rxLen, this`lastReceivedMs, this`log, rx, clock
      ensures Valid() && log.busy == 0 && Got(old(Here()), Here(), cfg.rxBufferSize)
      ensures Grown(old(log), log) && log.counts == Reads(old(log.counts), link.open, e)
              && log.frames == old(log.frames)
      ensures e != KeepAliveTimeout
      ensures more ==> e == Ok && rxLen > old(rxLen) && lastReceivedMs == clock.now % CLOCK_RANGE && link.open
      ensures !more ==> Here() == old(Here()) && lastReceivedMs == old(lastReceivedMs)
    {
      hide Sound, Snapshot;
      var data;
      e, data := link.Recv(rx.Length - rxLen);
      CountRecv(e);
      if e != Ok || data == [] { return e, false; }
      TakeIn(data);
      lastReceivedMs := NowMs();
      return Ok, true;
    }

    ghost method CountRecv(e: Error)
      requires Valid()
      modifies this`log
      ensures Valid() && Here() == old(Here()) && log == old(log).(counts := Reads(old(log.counts), link.open, e))
    {
      hide Sound;
      CountSound(cfg, Snapshot(), Reads(log.counts, link.open, e));
      log := log.(counts := Reads(log.counts, link.open, e));
    }

    method TakeIn(data: bytes)
      requires Valid() && inStep && rxLen + |data| <= rx.Length && state != Idle
      modifies this`rxLen, this`log, rx
      ensures Valid() && Here() == old(Here()).(rxLen := old(rxLen) + |data|, received := old(log.received) + data)
      ensures log == old(log).(received := old(log.received) + data, resting := false)
    {
      hide Sound;
      ReceiveSound(cfg, Snapshot(), data);
      forall k | 0 <= k < |data| { rx[rxLen + k] := data[k]; }
      rxLen := rxLen + |data|;
      log := log.(received := log.received + data, resting := false);
      assert rx[..rxLen] == old(rx[..rxLen]) + data;
    }

    lemma LinkFollowsState()
      requires Valid()
      ensures link.open == Online(state)
    {
      hide Sound;
    }

    /** One round of pump_rx(): receive, then handle what is complete. A round that starts without a
        session reads the closed transport, gets nothing, and is the last. `filled` is where it stood
        between the two. */
    method ReceiveRound() returns (e: Error, more: bool, ghost fault: Fault, ghost filled: Mark)
      requires Valid() && inStep && log.busy == 0 && rxLen <= rx.Length == cfg.rxBufferSize
      requires Online(state) || (state == Idle && lastError == Ok)
      modifies this, tx, tx.buffer, link, clock, rx
      ensures Valid() && inStep && log.busy == 0 && rxLen <= rx.Length == cfg.rxBufferSize
      ensures Grown(old(log), log)
      ensures RoundOk(old(Here()), old(log.counts), filled, Here(), log.counts, e, more, fault, cfg.rxBufferSize)
      ensures e == Ok ==> rxLen < cfg.rxBufferSize && log.resting
      ensures SameSession(filled, Here()) && e == Ok ==>
                Parse(log.received, cfg.rxBufferSize) == Parsed(log.frames, NeedMore(rx[..rxLen]))
      ensures fault == Malformed ==> Parse(log.received, cfg.rxBufferSize) == Parsed(log.frames, Broken(e))
      decreases 1, 9
    {
      hide Sound, Consistent, Valid, Shapes, Snapshot, Drained, Grown, Parse, SameSession, RoundOk;
      more, fault := true, NoFault;
      GotNone(Here(), cfg.rxBufferSize);
      LinkFollowsState();
      IdleIsBare();
      BusyFits();
      filled := Here();
      GrownRefl(log);
      if rxLen < cfg.rxBufferSize {
        e, more := ReceiveSome();
        filled := Here();
        if e != Ok && e != WouldBlock {
          RoundFailed(filled, old(log.counts), log.counts, e, cfg.rxBufferSize);
          return e, false, Receive, filled;
        }
      }
      hide Got;
      ghost var held := log;
      e, fault := DrainRx();
      GrownTrans(old(log), held, log);
      RoundDrained(old(Here()), old(log.counts), filled, held.counts, Here(), log.counts, e, more, fault,
                   cfg.rxBufferSize);
    }

    lemma HereIs()
      ensures var m := Here();
              m.state == state && m.rxLen == rxLen && m.busy == log.busy && m.lastError == lastError && At(m, log)
    {
    }

    /** At most MAX_RECV_ROUNDS times: receive, then handle what is complete. */
    method PumpRx() returns (e: Error, ghost rounds: seq<Round>)
      requires Valid() && inStep && log.busy == 0 && Online(state)
      modifies this, tx, tx.buffer, link, clock, rx
      ensures Valid() && inStep && log.busy == 0 && rxLen <= rx.Length
      ensures Grown(old(log), log)
      ensures PumpDone(old(Here()), old(log.counts), Here(), log.counts, e, rounds, cfg.rxBufferSize)
      ensures SameSession(old(Here()), Here()) && e == Ok ==>
                Parse(log.received, cfg.rxBufferSize) == Parsed(log.frames, NeedMore(rx[..rxLen]))
      ensures e == Ok ==> log.resting
      ensures Garbled(rounds) ==> Parse(log.received, cfg.rxBufferSize) == Parsed(log.frames, Broken(e))
      decreases 1, 10
    {
      hide Sound, Consistent, Valid, Shapes, Snapshot, Here, Grown, Parse, SameSession, PumpMid, PumpDone, RoundOk;
      HereIs();
      BusyFits();
      PumpStarts(Here(), log.counts, cfg.rxBufferSize);
      GrownRefl(log);
      rounds := [];
      var round := 0;
      while round < MAX_RECV_ROUNDS
        invariant round == |rounds| <= MAX_RECV_ROUNDS && Valid() && inStep && log.busy == 0
                  && rxLen <= rx.Length == cfg.rxBufferSize
        invariant PumpMid(old(Here()), old(log.counts), Here(), log.counts, rounds, cfg.rxBufferSize)
        invariant Grown(old(log), log) && (round > 0 ==> rounds[round - 1].fault == NoFault && log.resting)
        invariant round > 0 && SameSession(old(Here()), Here()) ==>
                    Parse(log.received, cfg.rxBufferSize) == Parsed(log.frames, NeedMore(rx[..rxLen]))
      {
        ghost var before, past := Here(), log;
        HereIs();
        PumpNext(old(Here()), old(log.counts), before, past.counts, rounds, cfg.rxBufferSize);
        var more;
        ghost var fault, filled;
        e, more, fault, filled := ReceiveRound();
        HereIs();
        GrownTrans(old(log), past, log);
        RoundFault(before, past.counts, filled, Here(), log.counts, e, more, fault, cfg.rxBufferSize);
        PumpStep(old(Here()), old(log.counts), before, past.counts, filled, Here(), log.counts, e, more, fault, rounds,
                 cfg.rxBufferSize);
        rounds := rounds + [Round(before.state, more, e, fault, state)];
        if !more || e != Ok || state == Connecting { return; }
        assert rxLen < cfg.rxBufferSize;  // a full buffer always holds a complete or oversized packet
        round := round + 1;
      }
      PumpEnds(old(Here()), old(log.counts), Here(), log.counts, rounds, cfg.rxBufferSize);
      return Ok, rounds;
    }

    //
    // Timers
    //

    /** The time since the outstanding PINGREQ, as the client sees it and in truth. */
    lemma PingAge(now: u32)
      requires Valid() && pingOutstanding && now == clock.now % CLOCK_RANGE
      ensures log.pingAt <= clock.now && ElapsedMs(now, pingSentMs) <= clock.now - log.pingAt
      ensures clock.now - log.pingAt < CLOCK_RANGE ==> ElapsedMs(now, pingSentMs) == clock.now - log.pingAt
      ensures 0 < keepAliveMs < ElapsedMs(now, pingSentMs) ==> TimedOut(Snapshot(), keepAliveMs)
    {
      hide WireOk, StreamOk, SlotsOk, FatesOk, SubsOk, StampsOk, Inbound.TableOk, LifecycleOk;
      assert log.pingAt <= clock.now && pingSentMs == log.pingAt % CLOCK_RANGE;
      ElapsedIsTrueTime(clock.now, log.pingAt);
    }

    /** Keep-alive: gives up only when a PINGREQ has gone unanswered for longer than the interval, in
        true time; asks again only when none is outstanding. */
    method PumpKeepAlive() returns (e: Error)
      requires Valid() && state == Connected
      modifies this`pingOutstanding, this`pingSentMs, this`log, tx, tx.buffer, clock
      ensures Valid() && Here() == old(Here()) && (e == Ok || e == KeepAliveTimeout)
      ensures Quiet(old(log), log)
      ensures e == KeepAliveTimeout <==>
                0 < keepAliveMs && old(pingOutstanding)
                    && ElapsedMs(clock.now % CLOCK_RANGE, old(pingSentMs)) > keepAliveMs
      ensures e == KeepAliveTimeout ==> TimedOut(Snapshot(), keepAliveMs) && log.pingAt == old(log.pingAt)
      ensures old(pingOutstanding) && 0 < keepAliveMs < clock.now - old(log.pingAt) < CLOCK_RANGE ==>
                e == KeepAliveTimeout
      ensures var due := 0 < keepAliveMs && !old(pingOutstanding)
                         && ElapsedMs(clock.now % CLOCK_RANGE, lastSentMs) >= keepAliveMs - keepAliveMs / 4;
              && log.wire == (if due && old(Room(2)) then old(log.wire) + [EmptyBytes(Pingreq)] else old(log.wire))
              && log.pings == (if due && old(Room(2)) then old(log.pings) + [Request] else old(log.pings))
    {
      hide Sound, Consistent, Valid, Shapes, Snapshot, Here, TimedOut, EmptyBytes, ElapsedMs, Quiet;
      QuietRefl(log);
      if keepAliveMs == 0 { return Ok; }
      var now := NowMs();
      if pingOutstanding {
        PingAge(now);
        if ElapsedMs(now, pingSentMs) > keepAliveMs { return KeepAliveTimeout; }
        return Ok;
      }
      var threshold := keepAliveMs - keepAliveMs / 4;
      if ElapsedMs(now, lastSentMs) < threshold { return Ok; }
      SendPing(now);
      return Ok;
    }

    method SendPing(now: u32)
      requires Valid() && state == Connected && !pingOutstanding && now == clock.now % CLOCK_RANGE
      modifies this`pingOutstanding, this`pingSentMs, this`log, tx, tx.buffer
      ensures Valid() && Here() == old(Here())
      ensures Quiet(old(log), log)
      ensures log.wire == if old(Room(2)) then old(log.wire) + [EmptyBytes(Pingreq)] else old(log.wire)
      ensures log.pings == if old(Room(2)) then old(log.pings) + [Request] else old(log.pings)
    {
      hide Sound, Consistent, Valid, Shapes, Snapshot, Here, Quiet, Queued, EmptyBytes;
      var e := QueueEmpty(Pingreq);
      if e != Ok { return; }
      ghost var queued := log;
      NotePing(now);
      QuietTrans(old(log), queued, log);
    }

    method NotePing(now: u32)
      requires Valid() && state == Connected && !pingOutstanding && now == clock.now % CLOCK_RANGE
      modifies this`pingOutstanding, this`pingSentMs, this`log
      ensures Valid() && Here() == old(Here()) && Quiet(old(log), log)
      ensures log == old(log).(pings := old(log.pings) + [Request], pingAt := clock.now)
    {
      hide Sound;
      PingedSound(cfg, Snapshot(), clock.now);
      log := log.(pings := log.pings + [Request], pingAt := clock.now);
      pingOutstanding := true;
      pingSentMs := now;
    }

    /** Queues one slot's packet again, marked as a repetition. */
    method RetrySlot(i: nat, now: u32, ghost forced: bool)
      requires Valid() && state == Connected && i < |outbound| && outbound[i].Live() && now == clock.now % CLOCK_RANGE
      requires forced || ElapsedMs(now, outbound[i].lastSentMs) >= cfg.retryIntervalMs
      modifies this`outbound, this`log, tx, tx.buffer
      ensures Valid() && Here() == old(Here()) && log.inflight == old(log.inflight)
              && log.completed == old(log.completed)
      ensures Quiet(old(log), log)
      ensures |outbound| == |old(outbound)| && outbound == old(outbound)[i := outbound[i]] && outbound[i].Live()
      ensures forall n: nat :: old(NoRoom(n)) ==> NoRoom(n)
      ensures log.wire == old(log.wire) + [outbound[i].packet]
              || (log.wire == old(log.wire) && NoRoom(|outbound[i].packet|))
      ensures && outbound[i].packetId in old(log.stamps)
              && log.gaps ==
                 if forced || log.wire == old(log.wire) then old(log.gaps)
                 else old(log.gaps) + [clock.now - old(log.stamps)[outbound[i].packetId]]
    {
      hide Sound, Consistent, Valid, Shapes, Snapshot, ElapsedMs;
      MarkSlot(i);
      Requeue(i, now, forced);
    }

    method Requeue(i: nat, now: u32, ghost forced: bool)
      requires Valid() && state == Connected && i < |outbound| && outbound[i].Live() && now == clock.now % CLOCK_RANGE
      requires forced || ElapsedMs(now, outbound[i].lastSentMs) >= cfg.retryIntervalMs
      modifies this`outbound, this`log, tx, tx.buffer
      ensures Valid() && Here() == old(Here()) && log.inflight == old(log.inflight)
              && log.completed == old(log.completed)
      ensures Quiet(old(log), log)
      ensures |outbound| == |old(outbound)| && outbound == old(outbound)[i := outbound[i]] && outbound[i].Live()
      ensures outbound[i].packet == old(outbound)[i].packet && outbound[i].packetId == old(outbound)[i].packetId
      ensures forall n: nat :: old(NoRoom(n)) ==> NoRoom(n)
      ensures log.wire == old(log.wire) + [outbound[i].packet]
              || (log.wire == old(log.wire) && NoRoom(|outbound[i].packet|))
      ensures && outbound[i].packetId in old(log.stamps)
              && log.gaps ==
                 if forced || log.wire == old(log.wire) then old(log.gaps)
                 else old(log.gaps) + [clock.now - old(log.stamps)[outbound[i].packetId]]
    {
      hide Sound, Stores, CompletePacket, IsConnect, ElapsedMs, Quiet, Grown;
      StoredComplete(i);
      ghost var gap := SlotAge(i, now);
      var e := Enqueue(outbound[i].packet);
      ghost var queued := log;
      QuietRefl(queued);
      if e == Ok {
        if !forced { RecordGap(gap); }
        ghost var recorded := log;
        Stamp(i, now);
        QuietTrans(queued, recorded, log);
        QuietTrans(old(log), queued, log);
      }
    }

    ghost method RecordGap(gap: nat)
      requires Valid() && gap >= cfg.retryIntervalMs
      modifies this`log
      ensures Valid() && Snapshot() == old(Snapshot()).(log := old(log).(gaps := old(log.gaps) + [gap]))
              && log == old(log).(gaps := old(log.gaps) + [gap])
      ensures Quiet(old(log), log)
    {
      hide Sound;
      GapSound(cfg, Snapshot(), gap);
      log := log.(gaps := log.gaps + [gap]);
    }

    /** The true time since slot i was last queued; the client never sees more than that. */
    lemma SlotAge(i: nat, now: u32) returns (age: nat)
      requires Valid() && i < |outbound| && outbound[i].Live() && now == clock.now % CLOCK_RANGE
      ensures outbound[i].packetId in log.stamps && age == clock.now - log.stamps[outbound[i].packetId]
      ensures ElapsedMs(now, outbound[i].lastSentMs) <= age
    {
      hide WireOk, StreamOk, SlotsOk, FatesOk, SubsOk, Inbound.TableOk, LifecycleOk;
      var at := log.stamps[outbound[i].packetId];
      ElapsedIsTrueTime(clock.now, at);
      age := clock.now - at;
    }

    method MarkSlot(i: nat)
      requires Valid() && i < |outbound| && outbound[i].Live()
      modifies this`outbound
      ensures Valid() && outbound == old(outbound)[i := old(outbound)[i].(packet := MarkDup(old(outbound)[i].packet))]
      ensures Snapshot() == old(Snapshot()).(outbound := outbound)
    {
      hide Sound;
      SlotIsEntry(i);
      var s := outbound[i].(packet := MarkDup(outbound[i].packet));
      MarkedStores(outbound[i], log.pubs[log.inflight[outbound[i].packetId].uid], outbound[i].lastSentMs);
      hide Stores, MarkDup;
      assert s == outbound[i].(packet := MarkDup(outbound[i].packet), lastSentMs := outbound[i].lastSentMs);
      RewrittenSound(cfg, Snapshot(), i, s);
      SameEntry(log.inflight, s);
      outbound := outbound[i := s];
    }

    /** Repeats exactly what is due, in slot order, as far as there is room: everything in flight right
        after CONNACK, otherwise what the client has seen wait for the retry interval. */
    method PumpRetransmit()
      requires Valid() && state == Connected
      modifies this`outbound, this`retransmitNow, this`log, tx, tx.buffer, clock
      ensures Valid() && Here() == old(Here()) && !retransmitNow
      ensures Quiet(old(log), log)
      ensures log.inflight == old(log.inflight) && log.completed == old(log.completed)
      ensures old(log.wire) <= log.wire && |outbound| == |old(outbound)|
      ensures forall k :: |old(log.wire)| <= k < |log.wire| ==>
                RepeatOf(old(outbound), outbound, log.wire[k], clock.now % CLOCK_RANGE,
                    old(retransmitNow), cfg.retryIntervalMs)
      ensures forall i ::
                && 0 <= i < |outbound|
                && Due(old(outbound)[i], clock.now % CLOCK_RANGE, old(retransmitNow), cfg.retryIntervalMs) ==>
                outbound[i].packet in log.wire[|old(log.wire)|..] || NoRoom(|outbound[i].packet|)
      ensures !old(retransmitNow) ==> |log.gaps| - |old(log.gaps)| == |log.wire| - |old(log.wire)|
    {
      hide Sound, Consistent, Valid, Shapes, Snapshot, NoRoom, RepeatOf, Quiet, ElapsedMs;
      QuietRefl(log);
      var forced := retransmitNow;
      retransmitNow := false;
      if cfg.retryIntervalMs == 0 && !forced { return; }
      hide Due;
      var now := NowMs();
      RetrySlots(now, forced);
    }

    method RetrySlots(now: u32, forced: bool)
      requires Valid() && state == Connected && now == clock.now % CLOCK_RANGE
      modifies this`outbound, this`log, tx, tx.buffer
      ensures Valid() && Here() == old(Here()) && Quiet(old(log), log)
      ensures log.inflight == old(log.inflight) && log.completed == old(log.completed)
      ensures old(log.wire) <= log.wire && |outbound| == |old(outbound)|
      ensures forall k :: |old(log.wire)| <= k < |log.wire| ==>
                RepeatOf(old(outbound), outbound, log.wire[k], now, forced, cfg.retryIntervalMs)
      ensures forall i :: 0 <= i < |outbound| && Due(old(outbound)[i], now, forced, cfg.retryIntervalMs) ==>
                outbound[i].packet in log.wire[|old(log.wire)|..] || NoRoom(|outbound[i].packet|)
      ensures !forced ==> |log.gaps| - |old(log.gaps)| == |log.wire| - |old(log.wire)|
    {
      hide Sound, Consistent, Valid, Shapes, Snapshot, Here, NoRoom, RepeatOf, Due, Quiet;
      QuietRefl(log);
      var i := 0;
      while i < |outbound|
        invariant i <= |outbound| == |old(outbound)| && Valid() && state == Connected && Here() == old(Here())
                  && Quiet(old(log), log)
        invariant log.inflight == old(log.inflight) && log.completed == old(log.completed) && old(log.wire) <= log.wire
        invariant forall j :: i <= j < |outbound| ==> outbound[j] == old(outbound)[j]
        invariant forall k :: |old(log.wire)| <= k < |log.wire| ==>
                    RepeatOf(old(outbound)[..i], outbound[..i], log.wire[k], now, forced, cfg.retryIntervalMs)
        invariant forall j :: 0 <= j < i && Due(old(outbound)[j], now, forced, cfg.retryIntervalMs) ==>
                    outbound[j].packet in log.wire[|old(log.wire)|..] || NoRoom(|outbound[j].packet|)
        invariant !forced ==> |log.gaps| - |old(log.gaps)| == |log.wire| - |old(log.wire)|
      {
        ghost var o, past := outbound, log;
        RetryIfDue(i, now, forced);
        QuietTrans(old(log), past, log);
        WireKeeps(past.wire, log.wire, |old(log.wire)|);
        RepeatNext(old(outbound), o, outbound, i, past.wire, log.wire, |old(log.wire)|, now,
            forced, cfg.retryIntervalMs);
        i := i + 1;
      }
      assert outbound[..i] == outbound && old(outbound)[..i] == old(outbound);
    }

    method RetryIfDue(i: nat, now: u32, forced: bool)
      requires Valid() && state == Connected && i < |outbound| && now == clock.now % CLOCK_RANGE
      modifies this`outbound, this`log, tx, tx.buffer
      ensures Valid() && Here() == old(Here()) && log.inflight == old(log.inflight)
              && log.completed == old(log.completed)
      ensures Quiet(old(log), log)
      ensures |outbound| == |old(outbound)| && outbound == old(outbound)[i := outbound[i]]
      ensures forall n: nat :: old(NoRoom(n)) ==> NoRoom(n)
      ensures var due := Due(old(outbound)[i], now, forced, cfg.retryIntervalMs);
              (log.wire == old(log.wire) + [outbound[i].packet] && due)
                  || (log.wire == old(log.wire) && (due ==> NoRoom(|outbound[i].packet|)))
      ensures !forced ==> |log.gaps| - |old(log.gaps)| == |log.wire| - |old(log.wire)|
    {
      hide Sound, Consistent, Valid, Shapes, Snapshot, ElapsedMs, NoRoom, Quiet;
      QuietRefl(log);
      if !outbound[i].Live() { return; }
      if !forced && (cfg.retryIntervalMs == 0 || ElapsedMs(now, outbound[i].lastSentMs) < cfg.retryIntervalMs) {
        return;
      }
      RetrySlot(i, now, forced);
    }

    //
    // The pump
    //

    /** Connecting: asks the transport, and waits for CONNACK once it is there. */
    method OpenLink() returns (e: Error)
      requires Valid() && state == Connecting
      modifies this`state, this`lastSentMs, this`log, link, clock
      ensures Valid() && (e == Ok || e == WouldBlock || e == TransportFailure)
      ensures Quiet(old(log), log)
      ensures Here() == if e == Ok then old(Here()).(state := AwaitingConnack) else old(Here())
      ensures lastSentMs == if e == Ok then clock.now % CLOCK_RANGE else old(lastSentMs)
    {
      hide Sound, Shapes, Snapshot;
      e := link.Connect();
      if e != Ok { return; }
      MoveTo(AwaitingConnack);
      lastSentMs := NowMs();
    }

    lemma Counted()
      requires Valid()
      ensures log.connects == |log.notices| + if state == Idle then 0 else 1
    {
    }

    /** The session ends with reason e, unless it already has. */
    method Fail(e: Error) returns (r: Error)
      requires Valid() && e != Ok && (e == KeepAliveTimeout ==> TimedOut(Snapshot(), keepAliveMs))
      modifies this, tx, tx.buffer, link, clock
      ensures Valid() && inStep == old(inStep) && r == e && log.busy == 0
      ensures Quiet(old(log), log) && log.resting
      ensures old(state) != Idle ==> Ends(old(Here()), Here(), e)
      ensures old(state) == Idle ==>
              Here() == old(Here()).(lastError := e, busy := 0, received := log.received,
              frames := log.frames, rxLen := 0)
      ensures log.late ==> old(state) == Idle
    {
      hide Sound, Consistent, Valid, Shapes, Snapshot, Subscriptions.SameRows, Quiet;
      r := Shutdown(e);
      BusyFits();
    }

    /** First part of step(): the connection is there or has failed, or there is nothing more to do now. */
    method StepConnect() returns (e: Error, go: bool)
      requires Valid() && inStep && state == Connecting && log.busy == 0
      modifies this, tx, tx.buffer, link, clock
      ensures Valid() && inStep && log.busy == 0 && StepOk(old(Here()), Here(), e, false)
      ensures Quiet(old(log), log)
      ensures go ==> e == Ok && state == AwaitingConnack
    {
      hide Sound, Consistent, Valid, Shapes, Snapshot, Quiet, StepOk;
      NeverLate();
      QuietRefl(log);
      e := OpenLink();
      StepOkMoved(old(Here()), Here());
      if e == Ok { return Ok, true; }
      if e == WouldBlock {
        var now := NowMs();
        if ElapsedMs(now, connectStartedMs) <= cfg.connectTimeoutMs { return Ok, false; }
        e := ConnectTimeout;
      }
      ghost var past := log;
      e := Fail(e);
      StepOkEnded(old(Here()), Here(), e);
      QuietTrans(old(log), past, log);
      return e, false;
    }

    lemma NeverLate()
      requires Valid()
      ensures state != Idle ==> !log.late
    {
      hide WireOk, StreamOk, SlotsOk, FatesOk, SubsOk, StampsOk, Inbound.TableOk;
    }

    /** Second part: flush, and finish a graceful disconnect. */
    method StepFlush() returns (e: Error, go: bool)
      requires Valid() && inStep && Online(state) && log.busy == 0
      modifies this, tx, tx.buffer, link, clock
      ensures Valid() && inStep && log.busy == 0 && StepOk(old(Here()), Here(), e, false)
      ensures Quiet(old(log), log)
      ensures go ==> e == Ok && Here() == old(Here()) && !(state == Disconnecting && tx.Empty())
      ensures !go && e == Ok ==> old(state) == Disconnecting
      ensures !go ==> Notified(old(log.notices), log.notices, e, old(log.received), old(log.frames))
    {
      hide Sound, Consistent, Valid, Shapes, Quiet, StepOk;
      NeverLate();
      StepOkMoved(Here(), Here());
      e := PumpTx();
      ghost var past := log;
      if e != Ok {
        e := Fail(e);
        StepOkEnded(old(Here()), Here(), e);
        QuietTrans(old(log), past, log);
        return e, false;
      }
      if state == Disconnecting && tx.Empty() {
        e := Shutdown(Ok);
        StepOkEnded(old(Here()), Here(), Ok);
        BusyFits();
        QuietTrans(old(log), past, log);
        return Ok, false;
      }
      return Ok, true;
    }

    /** Third part: receive. */
    method StepReceive() returns (e: Error, go: bool, ghost rounds: seq<Round>)
      requires Valid() && inStep && Online(state) && log.busy == 0
      modifies this, tx, tx.buffer, link, clock, rx
      ensures Valid() && inStep && log.busy == 0
      ensures StepOk(old(Here()), Here(), e, log.counts.deadErrors > old(log.counts.deadErrors))
      ensures Grown(old(log), log) && TurnOk(old(log), log, e, rounds, cfg.rxBufferSize) && rounds != []
      ensures (go <==> e == Ok) && log.resting
      decreases 1, 11
    {
      hide Sound, Consistent, Valid, Shapes, Snapshot, Here, Parse, Grown, Quiet, PumpDone, Garbled, TurnOk, StepOk,
           Ends;
      Counted();
      HereIs();
      e, rounds := PumpRx();
      Counted();
      NeverLate();
      HereIs();
      ghost var past, there := log, Here();
      if e == Ok {
        TurnFine(old(Here()), old(log), there, past, rounds, cfg.rxBufferSize);
        return Ok, true, rounds;
      }
      PumpTurn(old(Here()), old(log.counts), there, past.counts, e, rounds, cfg.rxBufferSize);
      e := Fail(e);
      HereIs();
      QuietGrows(past, log);
      GrownTrans(old(log), past, log);
      TurnFailed(old(Here()), old(log), there, past, Here(), log, e, rounds, cfg.rxBufferSize);
      return e, false, rounds;
    }

    /** Last part: time limits, timers, and a second flush. */
    method StepTimers() returns (e: Error)
      requires Valid() && inStep && log.busy == 0
      modifies this, tx, tx.buffer, link, clock
      ensures Valid() && inStep && log.busy == 0 && StepOk(old(Here()), Here(), e, false)
      ensures Quiet(old(log), log)
      ensures old(state) == Idle ==> e == Ok && Here() == old(Here())
    {
      hide Sound, Consistent, Valid, Shapes, Snapshot, Quiet;
      NeverLate();
      QuietRefl(log);
      if state == Connecting { return Ok; }
      if state == AwaitingConnack {
        var now := NowMs();
        if ElapsedMs(now, connectStartedMs) <= cfg.connectTimeoutMs { return Ok; }
        e := Fail(ConnectTimeout);
        return;
      }
      ghost var past := log;
      if state == Connected {
        e := RunTimers();
        if e != Ok { return; }
        past := log;
      }
      e := SecondFlush();
      QuietTrans(old(log), past, log);
    }

    method RunTimers() returns (e: Error)
      requires Valid() && inStep && state == Connected && log.busy == 0
      modifies this, tx, tx.buffer, link, clock
      ensures Valid() && inStep && log.busy == 0 && StepOk(old(Here()), Here(), e, false)
      ensures Quiet(old(log), log)
      ensures e == Ok ==> Here() == old(Here())
    {
      hide Sound, Consistent, Valid, Shapes, Snapshot, EmptyBytes, Resubscribed, Subscriptions.Extends, Quiet;
      hide StepOk;
      NeverLate();
      StepOkMoved(Here(), Here());
      e := PumpKeepAlive();
      ghost var past := log;
      if e == Ok {
        PumpResubscribe();
        QuietTrans(old(log), past, log);
        past := log;
        PumpRetransmit();
      } else {
        e := Fail(e);
        StepOkEnded(old(Here()), Here(), e);
      }
      QuietTrans(old(log), past, log);
    }

    method SecondFlush() returns (e: Error)
      requires Valid() && inStep && log.busy == 0 && state != Connecting
      modifies this, tx, tx.buffer, link, clock
      ensures Valid() && inStep && log.busy == 0 && StepOk(old(Here()), Here(), e, false)
      ensures Quiet(old(log), log)
      ensures e == Ok ==> Here() == old(Here())
      ensures old(state) == Idle ==> e == Ok
    {
      hide Sound, Consistent, Valid, Shapes, Quiet;
      NeverLate();
      e := PumpTx();
      ghost var past := log;
      if e != Ok {
        e := Fail(e);
        QuietTrans(old(log), past, log);
      }
    }

    method StepOnce() returns (e: Error, ghost rounds: seq<Round>)
      requires Valid() && inStep && log.busy == 0 && log.resting
      modifies this, tx, tx.buffer, link, clock, rx
      ensures Valid() && inStep && log.busy == 0 && log.resting
      ensures StepOk(old(Here()), Here(), e, log.counts.deadErrors > old(log.counts.deadErrors))
      ensures Grown(old(log), log) && TurnOk(old(log), log, e, rounds, cfg.rxBufferSize)
      ensures old(state) == Idle ==> e == Ok && Here() == old(Here())
      decreases 1, 12, 1
    {
      hide Sound, Consistent, Valid, Shapes, Snapshot, StepOk, TurnOk, Grown, Quiet;
      GrownRefl(log);
      QuietRefl(log);
      NeverLate();
      StepOkRefl(Here());
      TurnNone(log, log, Ok, cfg.rxBufferSize);
      rounds := [];
      if state == Idle { return Ok, rounds; }
      e, rounds := StepPhases();
    }

    /** The parts of step() in order, each unless an earlier one says that there is nothing more to do. */
    method StepPhases() returns (e: Error, ghost rounds: seq<Round>)
      requires Valid() && inStep && log.busy == 0 && log.resting && state != Idle
      modifies this, tx, tx.buffer, link, clock, rx
      ensures Valid() && inStep && log.busy == 0 && log.resting
      ensures StepOk(old(Here()), Here(), e, log.counts.deadErrors > old(log.counts.deadErrors))
      ensures Grown(old(log), log) && TurnOk(old(log), log, e, rounds, cfg.rxBufferSize)
      decreases 1, 12, 0
    {
      hide Sound, Consistent, Valid, Shapes, Snapshot, StepOk, TurnOk, Grown, Quiet;
      rounds := [];
      var go;
      e, go := StepSend();
      QuietSince(old(log), log);
      TurnNone(old(log), log, e, cfg.rxBufferSize);
      if !go { return; }
      ghost var m, past := Here(), log;
      e, go, rounds := StepReceive();
      GrownTrans(old(log), past, log);
      StepOkTrans(old(Here()), m, Here(), e, log.counts.deadErrors > old(log.counts.deadErrors));
      TurnBefore(old(log), past, log, e, rounds, cfg.rxBufferSize);
      if !go { return; }
      m, past := Here(), log;
      e := StepTimers();
      QuietSince(past, log);
      GrownTrans(old(log), past, log);
      StepOkTrans(old(Here()), m, Here(), e, log.counts.deadErrors > old(log.counts.deadErrors));
      TurnAfter(old(log), past, log, e, rounds, cfg.rxBufferSize);
    }

    /** The first two parts. */
    method StepSend() returns (e: Error, go: bool)
      requires Valid() && inStep && log.busy == 0 && state != Idle
      modifies this, tx, tx.buffer, link, clock
      ensures Valid() && inStep && log.busy == 0 && StepOk(old(Here()), Here(), e, false)
      ensures Quiet(old(log), log)
      ensures go ==> e == Ok && Online(state)
    {
      hide Sound, Consistent, Valid, Shapes, Snapshot, StepOk, Quiet;
      NeverLate();
      StepOkRefl(Here());
      QuietRefl(log);
      if state == Connecting {
        e, go := StepConnect();
        if !go { return; }
      }
      ghost var m, past := Here(), log;
      e, go := StepFlush();
      StepOkTrans(old(Here()), m, Here(), e, false);
      QuietTrans(old(log), past, log);
    }

    /** One turn of the client. It never blocks and never nests. An error means that the session has
        ended, and is the reason it was reported to have ended with, except as `StepOk` says; what was
        read and handled is bounded as `TurnOk` says; and every row of the subscription table is still
        there or was removed by a SUBACK or an UNSUBACK. */
    method Step() returns (e: Error, ghost rounds: seq<Round>)
      requires Valid()
      modifies this, tx, tx.buffer, link, clock, if inStep then {} else {rx}
      ensures Valid() && inStep == old(inStep)
      ensures old(inStep) ==>
                e == Reentrant && Snapshot() == old(Snapshot()) && Here() == old(Here()) && Now() == old(Now())
      ensures Grown(old(log), log)
      ensures !old(inStep) ==> StepOk(old(Here()), Here(), e, log.counts.deadErrors > old(log.counts.deadErrors))
      ensures !old(inStep) ==> TurnOk(old(log), log, e, rounds, cfg.rxBufferSize)
      ensures !old(inStep) && log.counts.hardCloses == old(log.counts.hardCloses) ==>
                (e == Ok || e == LastReason(log.notices)) && log.counts.deadReads == old(log.counts.deadReads)
      ensures Subscriptions.RowsKept(old(subscriptions), subscriptions, old(log.rows), log.rows)
      decreases if inStep then 0 else 2
    {
      hide Sound, Consistent, Valid, Shapes, Snapshot, Here, StepOk, TurnOk, Subscriptions.RowsOk,
           Subscriptions.RowsKept;
      TableFollowsHistory();
      rounds := [];
      if inStep {
        Subscriptions.RowsAccounted(subscriptions, subscriptions, log.rows, log.rows);
        return Reentrant, rounds;
      }
      EnterStep(true);
      HereIs();
      e, rounds := StepOnce();
      HereIs();
      if log.counts.hardCloses == old(log.counts.hardCloses) {
        WithoutHardClose(old(Here()), Here(), old(log), log, e, log.counts.deadErrors > old(log.counts.deadErrors),
                         rounds, cfg.rxBufferSize);
      }
      EnterStep(false);
      TableFollowsHistory();
      Subscriptions.RowsAccounted(old(subscriptions), subscriptions, old(log.rows), log.rows);
    }

    method EnterStep(on: bool)
      requires Valid() && log.resting
      modifies this`inStep
      ensures Valid() && inStep == on && Snapshot() == old(Snapshot())
    {
      hide Sound;
      inStep := on;
    }

    lemma TableFollowsHistory()
      requires Valid()
      ensures Subscriptions.RowsOk(log.rows, subscriptions) && (inStep || (log.busy == 0 && log.resting))
    {
      hide WireOk, StreamOk, SlotsOk, FatesOk, SubsOk, StampsOk, Inbound.TableOk;
    }

    //
    // What holds in every reachable state
    //

    /** Only documented transitions were taken, and every connect() accepted so far has been answered by
        exactly one call of on_disconnect, with the reason, except the one under way. */
    lemma LifecycleHistory()
      requires Valid()
      ensures PathOk(log.path, state) && Disconnects(log.calls) == Reasons(log.notices)
      ensures log.connects == |Disconnects(log.calls)| + if state == Idle then 0 else 1
    {
      hide WireOk, StreamOk, SlotsOk, FatesOk, SubsOk, StampsOk, Inbound.TableOk, PathOk, NoticesOk, Outbound.HistoryOk,
           Subscriptions.RowsOk;
      assert log.calls + log.owed == log.calls;
    }

    /** Whenever the keep-alive ended a session, its PINGREQ had gone unanswered for longer than the
        interval, in true time. */
    lemma TimeoutHistory(k: nat)
      requires Valid() && k < |log.notices| && log.notices[k].reason == KeepAliveTimeout
      ensures 0 < log.notices[k].interval < log.notices[k].silence
    {
      hide WireOk, StreamOk, SlotsOk, FatesOk, SubsOk, StampsOk, Inbound.TableOk, LifecycleOk, Outbound.HistoryOk,
           Subscriptions.RowsOk, Parse;
      assert NoticeOk(log.notices[k], cfg.rxBufferSize);
    }

    /** No byte is lost, added or reordered on the way out, and a peer that has received any part of
        what was sent reads complete packets in the order in which they were queued, CONNECT first
        and only once. */
    lemma {:induction false} OutgoingHistory(n: nat, cap: nat)
      requires Valid() && n <= |log.sent| && forall i :: 0 <= i < |log.wire| ==> |log.wire[i]| <= cap
      ensures Flatten(log.wire) == log.sent + tx.Pending()
      ensures forall i :: 0 <= i < |log.wire| ==> CompletePacket(log.wire[i]) && (IsConnect(log.wire[i]) <==> i == 0)
      ensures Parse(log.sent[..n], cap).verdict.NeedMore? && Parse(log.sent[..n], cap).frames <= log.wire
    {
      hide Parse, CompletePacket, IsConnect, Flatten, StreamOk, SlotsOk, FatesOk, SubsOk, StampsOk, Inbound.TableOk;
      PeerReadsInOrder(state, log.wire, log.sent, tx.Pending(), n, cap);
    }

    /** The packets handled so far are the first packets of what was received in this session, and so it
        was in every session before. Between steps they are all of them: the packets handled and what is
        held are the one-shot parse of everything received. */
    lemma IncomingHistory()
      requires Valid()
      ensures !inStep ==> Parse(log.received, cfg.rxBufferSize) == Parsed(log.frames, NeedMore(rx[..rxLen]))
      ensures log.frames <= Parse(log.received, cfg.rxBufferSize).frames
      ensures forall k :: 0 <= k < |log.notices| ==>
                log.notices[k].frames <= Parse(log.notices[k].received, cfg.rxBufferSize).frames
    {
      if !inStep {
        assert RestOk(log.resting, log.busy, rx[..rxLen], cfg.rxBufferSize);
        PartialParsed();
      }
      hide Parse, WireOk, SlotsOk, FatesOk, SubsOk, StampsOk, Inbound.TableOk, Outbound.HistoryOk, Subscriptions.RowsOk;
      ParseOfFrames(log.frames, rx[..rxLen][log.busy..], cfg.rxBufferSize);
      forall k | 0 <= k < |log.notices|
        ensures log.notices[k].frames <= Parse(log.notices[k].received, cfg.rxBufferSize).frames
      {
        assert NoticeOk(log.notices[k], cfg.rxBufferSize);
      }
    }

    /** Every accepted QoS 1 or 2 publication is in flight, completed or discarded; on_delivery was called
        for it once if it completed and never otherwise; and while it is in flight some slot
        stores what has to be repeated for it. */
    lemma {:induction false} PublicationHistory(u: nat)
      requires Valid() && u < |log.pubs|
      ensures |log.fates| == |log.pubs| && Deliveries(log.calls) == log.completed
      ensures Times(Deliveries(log.calls), u) == if log.fates[u] == Completed then 1 else 0
      ensures log.fates[u] == InFlight <==> exists i :: 0 <= i < |outbound| && SlotHolds(outbound[i], log.inflight, u)
      ensures forall i :: 0 <= i < |outbound| && SlotHolds(outbound[i], log.inflight, u) ==>
                Stores(outbound[i], log.pubs[u])
    {
      hide WireOk, StreamOk, SubsOk, StampsOk, Inbound.TableOk, Stores, LifecycleOk, Times, NoticesOk,
           Outbound.HistoryOk, Subscriptions.RowsOk, Disconnects;
      assert log.calls + log.owed == log.calls;
      FateOfSlot(outbound, log.inflight, log.pubs, log.fates, log.completed, u);
    }

    /** Every publication reported delivered was accepted, and after that its PUBACK was handled (QoS 1),
        or its PUBREC and then its PUBCOMP (QoS 2), under its packet id. It was accepted at i, and the last
        of these acknowledgements, at j, is the one that completed it. */
    lemma DeliveryHistory(k: nat) returns (i: nat, j: nat)
      requires Valid() && k < |log.completed|
      ensures log.completed[k] < |log.pubs|
      ensures Outbound.AcceptedAt(log.out, i, log.completed[k]) && Outbound.CompletedAt(log.out, j, k)
      ensures Outbound.AnsweredAt(log.out, i, j, log.pubs[log.completed[k]])
    {
      hide WireOk, StreamOk, SlotsOk, FatesOk, SubsOk, StampsOk, Inbound.TableOk, LifecycleOk, NoticesOk,
           Subscriptions.RowsOk, ReportsOk, RestOk;
      i, j := Outbound.ReportedAfterAcknowledgement(log.out, k);
    }

    /** No acknowledgement completes two publications. */
    lemma DeliveriesApart(k: nat, l: nat) returns (j: nat, j': nat)
      requires Valid() && k < l < |log.completed|
      ensures j != j' && Outbound.CompletedAt(log.out, j, k) && Outbound.CompletedAt(log.out, j', l)
    {
      hide WireOk, StreamOk, SlotsOk, FatesOk, SubsOk, StampsOk, Inbound.TableOk, LifecycleOk, NoticesOk,
           Subscriptions.RowsOk, ReportsOk, RestOk;
      j, j' := Outbound.ReportsApart(log.out, k, l);
    }

    /** Once the PUBREC of a QoS 2 publication has been handled, no PUBLISH is queued from its slot until
        its PUBCOMP has been handled or a clean session has given it up. */
    lemma RepetitionHistory(i: nat, j: nat, id: u16)
      requires Valid() && i < j < |log.out| && log.out[i] == Outbound.Got(Rec(id))
      requires id in Outbound.Replay(log.out[..i]).slots && Outbound.Replay(log.out[..i]).slots[id].stage != AwaitPuback
      requires log.out[j].Issued? && log.out[j].id == id && Outbound.IsPublish(log.out[j].packet)
      ensures exists k :: i < k < j && Outbound.Releases(log.out[k], id)
    {
      hide WireOk, StreamOk, SlotsOk, FatesOk, SubsOk, StampsOk, Inbound.TableOk, LifecycleOk, NoticesOk,
           Subscriptions.RowsOk;
      Outbound.NoPublishAfterPubrec(log.out, i, j, id);
    }

    /** What is in flight and what was reported are what the sender's half of the protocol makes of the
        publications accepted and the acknowledgements handled; and that history is what happens at the
        sending end of the protocol in some surroundings. */
    lemma SenderHistory()
      requires Valid()
      ensures Outbound.Replay(log.out) == Outbound.Sender(log.inflight, log.pubs, log.completed)
      ensures var n := Halves.Amid(cfg.maxInflightIn, Halves.SenderTurns(log.out));
              && n.slots == log.inflight && n.delivered == log.completed
              && Halves.SentAmid(cfg.maxInflightIn, Halves.SenderTurns(log.out)) == Halves.SeenOf(log.out)
    {
      assert Outbound.HistoryOk(log.out, log.inflight, log.pubs, log.completed);
      Halves.EverySenderIsHalf(cfg.maxInflightIn, log.out);
      hide WireOk, StreamOk, SlotsOk, FatesOk, SubsOk, StampsOk, Inbound.TableOk, LifecycleOk, NoticesOk,
           Subscriptions.RowsOk;
    }

    /** The ids tracked are what the receiver's half of the protocol makes of the inbound history, which is
        what happens at the receiving end of the protocol in some surroundings. */
    lemma ReceiverHistory()
      requires Valid()
      ensures Inbound.Elements(inboundIds) == Inbound.Tracked(log.inbound)
              && |inboundIds| == |Inbound.Tracked(log.inbound)|
      ensures var cap, turns := |log.inbound|, Halves.ReceiverTurns(log.inbound);
              && Halves.Amid(cap, turns).tracked == Inbound.Tracked(log.inbound)
              && Halves.ReceivedAmid(cap, turns) == Halves.MeantOf(log.inbound)
    {
      hide WireOk, StreamOk, SlotsOk, FatesOk, SubsOk, StampsOk, LifecycleOk, NoticesOk, Subscriptions.RowsOk,
           Outbound.HistoryOk, ReportsOk, RestOk;
      Inbound.ElementsSize(inboundIds);
      Halves.EveryReceiverIsHalf(|log.inbound|, log.inbound);
    }

    /** No two operations under way share a packet id, and none has id 0. */
    lemma IdHistory()
      requires Valid()
      ensures forall i :: 0 <= i < |outbound| && outbound[i].Live() ==> outbound[i].packetId != 0
      ensures forall i, j :: 0 <= i < j < |outbound| && outbound[i].Live() && outbound[j].Live() ==>
                outbound[i].packetId != outbound[j].packetId
      ensures forall k :: 0 <= k < |pending| ==> pending[k].packetId != 0
      ensures forall j, k :: 0 <= j < k < |pending| ==> pending[j].packetId != pending[k].packetId
      ensures forall i, k :: 0 <= i < |outbound| && outbound[i].Live() && 0 <= k < |pending| ==>
                outbound[i].packetId != pending[k].packetId
    {
      forall i | 0 <= i < |outbound| && outbound[i].Live()
        ensures outbound[i].packetId != 0 && outbound[i].packetId in log.inflight
      {
        SlotIsEntry(i);
      }
      hide WireOk, StreamOk, SubsOk, StampsOk, Inbound.TableOk, Stores, FatesOk, LifecycleOk;
    }

    /** Every QoS 1 or 2 message dispatched was acknowledged before. */
    lemma AcknowledgementHistory(i: nat)
      requires Valid() && i < |log.inbound| && log.inbound[i].Dispatched?
      requires log.inbound[i].qos == AT_LEAST_ONCE || log.inbound[i].qos == EXACTLY_ONCE
      ensures exists k :: 0 <= k < i && log.inbound[k] == if log.inbound[i].qos == AT_LEAST_ONCE
                          then Inbound.AckQueued(log.inbound[i].id) else Inbound.RecQueued(log.inbound[i].id)
    {
      hide WireOk, StreamOk, SubsOk, StampsOk, SlotsOk, FatesOk, LifecycleOk;
      Inbound.AcknowledgedFirst(log.inbound, i);
    }

    /** A QoS 2 message is dispatched again under the same id only after the id was released or the
        session forgotten. */
    lemma InboundHistory(i: nat, j: nat, id: u16)
      requires Valid() && i < j < |log.inbound|
      requires log.inbound[i] == Inbound.Dispatched(EXACTLY_ONCE, id)
               && log.inbound[j] == Inbound.Dispatched(EXACTLY_ONCE, id)
      ensures exists k :: i < k < j && Inbound.Frees(log.inbound[k], id)
    {
      hide WireOk, StreamOk, SubsOk, StampsOk, SlotsOk, FatesOk, LifecycleOk;
      Inbound.NoDoubleDispatch(log.inbound, i, j, id);
    }

    /** No subscription is forgotten: every row waits to be requested, is named by an outstanding
        SUBSCRIBE, or was granted a QoS in this session; outside a session it waits. */
    lemma RowHistory(i: nat)
      requires Valid() && i < |subscriptions|
      ensures subscriptions[i].needsResub || subscriptions[i].subId in log.granted
              || Subscriptions.Named(pending, subscriptions[i].subId)
      ensures subscriptions[i].subId in log.granted ==> subscriptions[i].grantedQos != SUBACK_FAILURE
      ensures !Established(state) ==> subscriptions[i].needsResub
    {
      hide WireOk, StreamOk, StampsOk, SlotsOk, FatesOk, LifecycleOk, Inbound.TableOk, Subscriptions.Named,
           Outbound.HistoryOk, NoticesOk, Subscriptions.RowsOk;
    }

    /** A row once registered is in the table, or a SUBACK has refused it since, or an UNSUBACK removed it. */
    lemma RegistrationHistory(k: nat)
      requires Valid() && k < |log.rows| && log.rows[k].Added?
      ensures var row := (log.rows[k].subId, log.rows[k].filter);
              || row in Subscriptions.Pairs(subscriptions)
              || exists j :: k < j < |log.rows| && Subscriptions.Removes(log.rows[j], row)
    {
      hide WireOk, StreamOk, StampsOk, SlotsOk, FatesOk, LifecycleOk, Inbound.TableOk, SubsOk, Outbound.HistoryOk,
           NoticesOk;
      var h, row := log.rows, (log.rows[k].subId, log.rows[k].filter);
      assert h[..k + 1] == h[..k] + [h[k]];
      Subscriptions.StandingAppend(h[..k], h[k]);
      hide Subscriptions.Standing, Subscriptions.Pairs;
      Subscriptions.KeptOrRecorded(h[..k + 1], h, row);
    }

    /** Between two PINGREQs there is a PINGRESP. */
    lemma PingHistory(i: nat)
      requires Valid() && 0 < i < |log.pings|
      ensures !(log.pings[i - 1] == Request && log.pings[i] == Request)
    {
      hide WireOk, StreamOk, StampsOk, SlotsOk, FatesOk, LifecycleOk, Inbound.TableOk, SubsOk, Outbound.HistoryOk,
           NoticesOk, Subscriptions.RowsOk;
    }

    /** No unforced repetition came sooner than the retry interval, in true time. */
    lemma RetryHistory(k: nat)
      requires Valid() && k < |log.gaps|
      ensures log.gaps[k] >= cfg.retryIntervalMs
    {
      hide WireOk, StreamOk, StampsOk, SlotsOk, FatesOk, LifecycleOk, Inbound.TableOk, SubsOk, Outbound.HistoryOk,
           NoticesOk, Subscriptions.RowsOk;
    }
  }

  /** A whole run: a new client, over any transport and clock that keep their contracts, and any
      sequence of calls. What the lemmas above say holds after each of them. */
  method Drive(cfg: Config, link: Link, clock: Clock) returns (client: Client)
    requires ConfigOk(cfg) && !link.open
    modifies link, clock
    ensures client.Valid() && !client.inStep
  {
    hide *;
    client := new Client(cfg, link, clock);
    var calls: int := *;
    while calls > 0
      invariant client.Valid() && !client.inStep && client.link == link && client.clock == clock
      invariant fresh(client) && fresh(client.tx) && fresh(client.tx.buffer) && fresh(client.rx)
    {
      var act: Act := *;
      Call(client, act);
      calls := calls - 1;
    }
  }

  /** One call by the application: nothing recorded is lost, and no row is either, except to a SUBACK or
      an UNSUBACK. */
  method Call(c: Client, act: Act)
    requires c.Valid() && !c.inStep
    modifies c, c.tx, c.tx.buffer, c.rx, c.link, c.clock
    ensures c.Valid() && !c.inStep && Grown(old(c.log), c.log)
    ensures Subscriptions.RowsKept(old(c.subscriptions), c.subscriptions, old(c.log.rows), c.log.rows)
    ensures !act.DoStep? ==> Quiet(old(c.log), c.log)
  {
    hide *;
    c.TableFollowsHistory();
    if act.DoStep? {
      var e;
      ghost var rounds;
      e, rounds := c.Step();
    } else {
      CallQuietly(c, act);
      QuietGrows(old(c.log), c.log);
      c.TableFollowsHistory();
      GrownRows(old(c.log), c.log);
      Subscriptions.RowsAccounted(old(c.subscriptions), c.subscriptions, old(c.log.rows), c.log.rows);
    }
  }

  /** Every call but step(). */
  method CallQuietly(c: Client, act: Act)
    requires c.Valid() && !c.inStep && !act.DoStep?
    modifies c, c.tx, c.tx.buffer, c.link, c.clock
    ensures c.Valid() && !c.inStep && Quiet(old(c.log), c.log)
  {
    hide *;
    QuietRefl(c.log);
    match act
    case DoNothing =>
    case DoPublish(topic, payload, qos, retain) => var e, id := c.Publish(topic, payload, qos, retain);
    case DoSubscribe(subs, handler) => var e, id := c.Subscribe(subs, handler);
    case DoUnsubscribe(filters) => var e, id := c.Unsubscribe(filters);
    case DoDisconnect => var e := c.Disconnect();
    case DoAbort => c.Abort();
    case DoConnect(options) => var e := c.Connect(options);
  }

  /** pump_rx() does read a closed transport. This is what a handler brings about by calling
      disconnect() when the transmit queue has no room for two more bytes: the session is closed at
      once, and unless on_disconnect starts another the next round reads from nothing. If that fails, its
      error `e` is what step() reports, while on_disconnect was called with Ok. */
  method ReadAfterClose(c: Client) returns (e: Error, ghost fault: Fault)
    requires c.Valid() && c.inStep && c.state == Connected && c.NoRoom(2)
    modifies c, c.tx, c.tx.buffer, c.link, c.clock, c.rx
    ensures c.Valid() && c.log.counts.hardCloses == old(c.log.counts.hardCloses) + 1
    ensures c.log.connects == old(c.log.connects) ==>
              && c.state == Idle && LastReason(c.log.notices) == Ok
              && c.log.counts.deadReads == old(c.log.counts.deadReads) + 1
              && (fault == Receive ==> e != Ok)
  {
    hide Sound, Client.Consistent, Client.Valid, Client.Shapes, Client.Snapshot, Quiet, Grown, Parse, EmptyBytes,
         Drained, Subscriptions.SameRows;
    fault := NoFault;
    c.Counted();
    e := c.Disconnect();
    QuietSince(old(c.log), c.log);
    c.Counted();
    c.BusyFits();
    if c.state == Idle {
      c.IdleIsEmpty();
      var more;
      ghost var filled;
      e, more, fault, filled := c.ReceiveRound();
    }
  }

  /** The other way for step() to report another reason: a handler calls disconnect() as above, and then
      abort() as well. The last error is what drain_rx() returns. */
  method AbortAfterClose(c: Client)
    requires c.Valid() && c.inStep && c.state == Connected && c.NoRoom(2)
    modifies c, c.tx, c.tx.buffer, c.link, c.clock
    ensures c.Valid() && c.inStep
    ensures c.log.connects == old(c.log.connects) ==>
              c.state == Idle && LastReason(c.log.notices) == Ok && c.lastError == TransportClosed && c.log.late
  {
    hide Sound, Client.Consistent, Client.Valid, Client.Shapes, Client.Snapshot, Quiet, EmptyBytes,
         Subscriptions.SameRows;
    c.Counted();
    var e := c.Disconnect();
    c.Counted();
    if c.state == Idle { c.Abort(); }
    c.Counted();
  }
}
