/** The client as a state machine: a snapshot of everything that matters, the invariant on it,
    and for each thing that can happen the proof that the invariant survives. Client.dfy ties
    the imperative operations to these steps. */
module SessionSteps {
  import opened Types
  import opened Framing
  import opened Transport
  import opened ExactlyOnce
  import opened Inflight
  import opened Session
  import Inbound
  import Outbound
  import Subscriptions

  /** `rx` and `txp` are the bytes held in the receive buffer and in the transmit queue, `now` is
      the true time. */
  datatype View = View(
    state: State, rx: bytes, txp: bytes,
    outbound: seq<Slot>, inboundIds: seq<u16>, subs: Subscriptions.Table, pending: seq<Subscriptions.PendingAck>,
    pingOutstanding: bool, pingSentMs: u32, now: nat, log: Log)

  ghost predicate StreamsOk(c: Config, v: View)
  {
    && WireOk(v.state, v.log.wire, v.log.sent, v.txp)
    && v.log.busy <= |v.rx| <= c.rxBufferSize
       && StreamOk(v.log.received, v.log.frames, v.rx[v.log.busy..], c.rxBufferSize)
    && |v.txp| <= c.txBufferSize && (v.state == Idle ==> v.rx == [])
  }

  ghost predicate OutboundOk(c: Config, v: View)
  {
    && |v.outbound| == c.maxInflightOut && SlotsOk(v.outbound, v.log.inflight, v.log.pubs)
    && |v.log.fates| == |v.log.pubs| && FatesOk(v.log.fates, v.log.inflight, v.log.completed)
    && Outbound.HistoryOk(v.log.out, v.log.inflight, v.log.pubs, v.log.completed)
    && PendingOk(v.pending, v.log.inflight, c)
  }

  ghost predicate TimersOk(c: Config, v: View)
  {
    && PingsOk(v.log.pings, v.pingOutstanding, v.pingSentMs, v.log.pingAt, v.now)
    && (v.pingOutstanding ==> Established(v.state))
    && StampsOk(v.outbound, v.log.stamps, v.now) && GapsOk(v.log.gaps, c.retryIntervalMs)
  }

  /** At rest there is no complete packet in the buffer, and none being handled. */
  ghost predicate RestOk(resting: bool, busy: nat, rx: bytes, cap: nat)
  {
    resting ==> busy == 0 && LookAt(rx, cap).Partial?
  }

  lemma NothingToHandle(cap: nat)
    ensures RestOk(true, 0, [], cap)
  {
  }

  /** What holds in every state the client can reach. */
  ghost predicate Sound(c: Config, v: View)
  {
    && ConfigOk(c)
    && LifecycleOk(v.state, v.log.path, v.log.connects, |v.log.notices|)
    && NoticesOk(v.log.notices, c.rxBufferSize) && (v.state != Idle ==> !v.log.late)
    && ReportsOk(v.log.calls + v.log.owed, v.log.notices, v.log.completed)
    && RestOk(v.log.resting, v.log.busy, v.rx, c.rxBufferSize)
    && StreamsOk(c, v)
    && OutboundOk(c, v)
    && Inbound.TableOk(v.inboundIds, v.log.inbound, c.maxInflightIn)
    && SubsOk(v.state, v.subs, v.pending, v.log.granted, c) && Subscriptions.RowsOk(v.log.rows, v.subs)
    && TimersOk(c, v)
  }

  const NEW_LOG := Log(0, [], [Idle], [], [], [], [], 0, true, [], map[], [], [], [], [], [], [], [],
      [], {}, [], 0, map[], [],
      false, Counts(0, 0, 0, 0, 0))

  /** A client as constructed. */
  function Fresh(c: Config, now: nat): View
  {
    View(Idle, [], [], seq(c.maxInflightOut, i => FREE_SLOT), [], [], [], false, 0, now, NEW_LOG)
  }

  lemma FreshSound(c: Config, now: nat)
    requires ConfigOk(c)
    ensures Sound(c, Fresh(c, now))
  {
    hide WireOk, StreamOk, SlotsOk, FatesOk, StampsOk, Inbound.TableOk, SubsOk, PathOk, Outbound.HistoryOk, NoticesOk,
         Subscriptions.RowsOk, RestOk;
    NothingToHandle(c.rxBufferSize);
    var quiet: seq<Call> := [];
    assert quiet + quiet == quiet;
    WireNone();
    StreamNone(c.rxBufferSize);
    var none: bytes := [];
    assert none[0..] == none;
    NothingInFlight(Fresh(c, now).outbound, now);
    NothingKnown(c);
  }

  lemma NothingInFlight(o: seq<Slot>, now: nat)
    requires forall i :: 0 <= i < |o| ==> !o[i].Live()
    ensures SlotsOk(o, map[], []) && FatesOk([], map[], []) && StampsOk(o, map[], now)
            && Outbound.HistoryOk([], map[], [], [])
  {
    Outbound.Begin();
    hide Stores, Outbound.HistoryOk;
  }

  lemma NothingKnown(c: Config)
    ensures Inbound.TableOk([], [], c.maxInflightIn) && SubsOk(Idle, [], [], {}, c) && PathOk([Idle], Idle)
    ensures Subscriptions.RowsOk([], []) && NoticesOk([], c.rxBufferSize)
  {
  }

  //
  // Transmitting, receiving, time
  //

  function Queued(v: View, p: bytes): View { v.(txp := v.txp + p, log := v.log.(wire := v.log.wire + [p])) }

  lemma QueueSound(c: Config, v: View, p: bytes)
    requires Sound(c, v) && v.state != Idle && CompletePacket(p) && !IsConnect(p) && |v.txp| + |p| <= c.txBufferSize
    ensures Sound(c, Queued(v, p))
  {
    hide WireOk, StreamOk, SlotsOk, FatesOk, Outbound.HistoryOk, NoticesOk, Subscriptions.RowsOk, ReportsOk, RestOk;
    WireQueue(v.state, v.log.wire, v.log.sent, v.txp, p);
  }

  function Sent(v: View, n: nat): View
    requires n <= |v.txp|
  {
    v.(txp := v.txp[n..], log := v.log.(sent := v.log.sent + v.txp[..n]))
  }

  lemma SentSound(c: Config, v: View, n: nat)
    requires Sound(c, v) && n <= |v.txp|
    ensures Sound(c, Sent(v, n))
  {
    hide WireOk, StreamOk, SlotsOk, FatesOk, Outbound.HistoryOk, NoticesOk, Subscriptions.RowsOk, ReportsOk, RestOk;
    WireSend(v.state, v.log.wire, v.log.sent, v.txp, n);
  }

  lemma LaterSound(c: Config, v: View, now: nat)
    requires Sound(c, v) && v.now <= now
    ensures Sound(c, v.(now := now))
  {
    hide WireOk, StreamOk, SlotsOk, FatesOk, Outbound.HistoryOk, NoticesOk, Subscriptions.RowsOk, ReportsOk, RestOk;
    PingsLater(v.log.pings, v.pingOutstanding, v.pingSentMs, v.log.pingAt, v.now, now);
    StampsLater(v.outbound, v.log.stamps, v.now, now);
  }

  function Received(v: View, data: bytes): View
  {
    v.(rx := v.rx + data, log := v.log.(received := v.log.received + data, resting := false))
  }

  lemma ReceiveSound(c: Config, v: View, data: bytes)
    requires Sound(c, v) && |v.rx| + |data| <= c.rxBufferSize && (v.state == Idle ==> data == [])
    ensures Sound(c, Received(v, data))
  {
    hide WireOk, StreamOk, SlotsOk, FatesOk, Outbound.HistoryOk, NoticesOk, Subscriptions.RowsOk, ReportsOk, SubsOk,
         LifecycleOk, PingsOk, StampsOk, GapsOk, PendingOk, Inbound.TableOk;
    StreamReceive(v.log.received, v.log.frames, v.rx[v.log.busy..], c.rxBufferSize, data);
    DropThenAdd(v.rx, data, v.log.busy);
  }

  lemma DropThenAdd(a: bytes, b: bytes, n: nat)
    requires n <= |a|
    ensures (a + b)[n..] == a[n..] + b
  {
  }

  /** A packet is handed to the packet handler. */
  function TakenUp(log: Log, packet: bytes): Log
  {
    log.(frames := log.frames + [packet], busy := |packet|, resting := false,
         counts := log.counts.(handled := log.counts.handled + 1))
  }

  /** A complete packet of n bytes at the front is about to be handled. */
  function Begun(v: View, n: nat): View
    requires n <= |v.rx|
  {
    v.(log := TakenUp(v.log, v.rx[..n]))
  }

  lemma BeginSound(c: Config, v: View)
    requires Sound(c, v) && v.log.busy == 0 && LookAt(v.rx, c.rxBufferSize).Whole?
    ensures var n := LookAt(v.rx, c.rxBufferSize).peek.totalBytes;
            2 <= n <= |v.rx| && Sound(c, Begun(v, n))
  {
    hide WireOk, StreamOk, SlotsOk, FatesOk, Outbound.HistoryOk, NoticesOk, Subscriptions.RowsOk, ReportsOk, LookAt;
    assert v.rx[0..] == v.rx;
    StreamHandle(v.log.received, v.log.frames, v.rx, c.rxBufferSize);
  }

  /** The packet handled is dropped from the buffer. */
  function Shifted(v: View): View
    requires v.log.busy <= |v.rx|
  {
    v.(rx := v.rx[v.log.busy..], log := v.log.(busy := 0))
  }

  lemma ShiftSound(c: Config, v: View)
    requires Sound(c, v)
    ensures Sound(c, Shifted(v))
  {
    hide WireOk, StreamOk, SlotsOk, FatesOk, Outbound.HistoryOk, NoticesOk, Subscriptions.RowsOk, ReportsOk, LookAt;
    var held := v.rx[v.log.busy..];
    assert held[0..] == held;
    if v.log.busy == 0 { assert held == v.rx; }
  }

  /** Every complete packet received has been handled. */
  lemma RestSound(c: Config, v: View)
    requires Sound(c, v) && v.log.busy == 0 && LookAt(v.rx, c.rxBufferSize).Partial?
    ensures Sound(c, v.(log := v.log.(resting := true)))
  {
    hide WireOk, StreamOk, SlotsOk, FatesOk, Outbound.HistoryOk, NoticesOk, Subscriptions.RowsOk, ReportsOk, LookAt;
  }

  lemma CountSound(c: Config, v: View, counts: Counts)
    requires Sound(c, v)
    ensures Sound(c, v.(log := v.log.(counts := counts)))
  {
    hide WireOk, StreamOk, SlotsOk, FatesOk, Outbound.HistoryOk, NoticesOk, Subscriptions.RowsOk, ReportsOk, RestOk;
  }

  //
  // Lifecycle
  //

  /** abort() when there is no session. */
  lemma LateSound(c: Config, v: View)
    requires Sound(c, v) && v.state == Idle
    ensures Sound(c, v.(log := v.log.(late := true)))
  {
    hide WireOk, StreamOk, SlotsOk, FatesOk, Outbound.HistoryOk, NoticesOk, Subscriptions.RowsOk, ReportsOk, RestOk;
  }

  /** The state changes without anything else. */
  function Moved(v: View, s: State): View { v.(state := s, log := v.log.(path := v.log.path + [s])) }

  lemma MovedSound(c: Config, v: View, s: State)
    requires Sound(c, v) && Transition(v.state, s) && s != Idle && v.state != Idle
    ensures Sound(c, Moved(v, s))
  {
    hide WireOk, StreamOk, SlotsOk, FatesOk, Outbound.HistoryOk, NoticesOk, Subscriptions.RowsOk, ReportsOk, RestOk,
         PathOk;
    PathStep(v.log.path, v.state, s);
    WireState(v.state, s, v.log.wire, v.log.sent, v.txp);
  }

  /** A clean session gives up what is in flight in either direction. */
  function Discard(v: View): View
  {
    v.(outbound := AllReleased(v.outbound), inboundIds := [],
       log := v.log.(inflight := map[], fates := AllDiscarded(v.log.fates), out := v.log.out + [Outbound.GivenUp],
                     inbound := v.log.inbound + [Inbound.Forgotten]))
  }

  lemma DiscardSound(c: Config, v: View)
    requires Sound(c, v)
    ensures Sound(c, Discard(v))
  {
    hide WireOk, StreamOk, SlotsOk, FatesOk, Outbound.HistoryOk, NoticesOk, Subscriptions.RowsOk, ReportsOk, RestOk,
         LifecycleOk, SubsOk, Inbound.TableOk;
    ReleaseAll(v.outbound, v.log.pubs);
    FateDiscard(v.log.fates, v.log.inflight, v.log.completed);
    Outbound.Drop(v.log.out, v.log.inflight, v.log.pubs, v.log.completed);
    Inbound.Forget(v.inboundIds, v.log.inbound, c.maxInflightIn);
  }

  function NoticeOf(v: View, reason: Error, interval: nat): Notice
  {
    Notice(reason, v.log.received, v.log.frames, interval,
           if v.pingOutstanding && v.log.pingAt <= v.now then v.now - v.log.pingAt else 0)
  }

  /** The current session is over: its streams, its requests and its grants are gone. */
  function Closed(v: View, reason: Error, interval: nat): View
  {
    v.(state := Idle, rx := [], txp := [], pending := [], subs := Subscriptions.Flagged(v.subs),
        pingOutstanding := false,
       log := v.log.(path := if v.state == Idle then v.log.path else v.log.path + [Idle],
                     notices := if v.state == Idle then v.log.notices
                                else v.log.notices + [NoticeOf(v, reason, interval)],
                     owed := if v.state == Idle then v.log.owed else v.log.owed + [OnDisconnect(reason)],
                     resting := true,
                     late := v.state == Idle && v.log.late,
                     wire := [], sent := [], received := [], frames := [], busy := 0, granted := {}, pings := []))
  }

  lemma FlaggedRows(h: seq<Subscriptions.Change>, t: Subscriptions.Table)
    requires Subscriptions.RowsOk(h, t)
    ensures Subscriptions.RowsOk(h, Subscriptions.Flagged(t)) && Subscriptions.GrantedOk(Subscriptions.Flagged(t), {})
  {
    hide Subscriptions.RowsOk;
    Subscriptions.RowsSame(h, t, Subscriptions.Flagged(t));
  }

  /** The client has seen a PINGREQ go unanswered for longer than the interval. */
  predicate TimedOut(v: View, interval: nat)
  {
    v.pingOutstanding && v.log.pingAt <= v.now && 0 < interval < v.now - v.log.pingAt
  }

  lemma ClosedSound(c: Config, v: View, reason: Error, interval: nat)
    requires Sound(c, v) && (reason == KeepAliveTimeout ==> TimedOut(v, interval))
    ensures Sound(c, Closed(v, reason, interval))
  {
    hide StreamsOk, SlotsOk, FatesOk, StampsOk, Inbound.TableOk, Outbound.HistoryOk, Subscriptions.RowsOk, NoticesOk,
         PendingOk, ReportsOk, RestOk, GapsOk, LifecycleOk, SubsOk;
    ClosedLife(c, v, reason, interval);
    ClosedTables(c, v);
    ClosedStreams(c, v, reason, interval);
    NothingToHandle(c.rxBufferSize);
  }

  lemma ClosedStreams(c: Config, v: View, reason: Error, interval: nat)
    ensures StreamsOk(c, Closed(v, reason, interval))
  {
    hide WireOk, StreamOk;
    WireNone();
    StreamNone(c.rxBufferSize);
    var none: bytes := [];
    assert none[0..] == none;
  }

  lemma ClosedLife(c: Config, v: View, reason: Error, interval: nat)
    requires Sound(c, v) && (reason == KeepAliveTimeout ==> TimedOut(v, interval))
    ensures var w := Closed(v, reason, interval);
            && LifecycleOk(Idle, w.log.path, w.log.connects, |w.log.notices|)
               && NoticesOk(w.log.notices, c.rxBufferSize)
            && ReportsOk(w.log.calls + w.log.owed, w.log.notices, w.log.completed)
  {
    hide SlotsOk, FatesOk, StampsOk, Inbound.TableOk, StreamOk, WireOk, PathOk, Outbound.HistoryOk, SubsOk,
         Subscriptions.RowsOk, NoticesOk, PendingOk, ReportsOk, RestOk, GapsOk;
    if v.state != Idle {
      PathStep(v.log.path, v.state, Idle);
      NoticeAdded(v.log.notices, NoticeOf(v, reason, interval), v.rx[v.log.busy..], c.rxBufferSize);
      OwedEnd(v.log, NoticeOf(v, reason, interval));
    }
  }

  lemma ClosedTables(c: Config, v: View)
    requires Sound(c, v)
    ensures var t := Subscriptions.Flagged(v.subs);
            && SubsOk(Idle, t, [], {}, c) && Subscriptions.RowsOk(v.log.rows, t) && PendingOk([], v.log.inflight, c)
  {
    hide SlotsOk, FatesOk, StampsOk, Inbound.TableOk, StreamOk, WireOk, PathOk, Outbound.HistoryOk, NoticesOk,
         Subscriptions.RowsOk, Subscriptions.TableOk, PendingOk, ReportsOk, RestOk, GapsOk;
    Subscriptions.FlaggedOk(v.subs, c.maxSubscriptions);
    FlaggedRows(v.log.rows, v.subs);
    NoRequests(v.log.inflight, c);
  }

  lemma OwedEnd(log: Log, n: Notice)
    requires ReportsOk(log.calls + log.owed, log.notices, log.completed)
    ensures ReportsOk(log.calls + (log.owed + [OnDisconnect(n.reason)]), log.notices + [n], log.completed)
  {
    ReportEnd(log.calls + log.owed, log.notices, log.completed, n);
    assert log.calls + (log.owed + [OnDisconnect(n.reason)]) == log.calls + log.owed + [OnDisconnect(n.reason)];
  }

  lemma OwedDelivery(log: Log, uid: nat, id: u16)
    requires ReportsOk(log.calls + log.owed, log.notices, log.completed)
    ensures ReportsOk(log.calls + (log.owed + [OnDelivery(uid, id)]), log.notices, log.completed + [uid])
  {
    ReportDelivery(log.calls + log.owed, log.notices, log.completed, uid, id);
    assert log.calls + (log.owed + [OnDelivery(uid, id)]) == log.calls + log.owed + [OnDelivery(uid, id)];
  }

  //
  // Calls of handlers
  //

  /** The handlers that are owed a call are called. */
  function Told(log: Log): Log { log.(calls := log.calls + log.owed, owed := []) }

  lemma ToldSound(c: Config, v: View)
    requires Sound(c, v)
    ensures Sound(c, v.(log := Told(v.log)))
  {
    hide WireOk, StreamOk, SlotsOk, FatesOk, Outbound.HistoryOk, NoticesOk, Subscriptions.RowsOk, ReportsOk, RestOk;
    assert v.log.calls + v.log.owed + [] == v.log.calls + v.log.owed;
  }

  lemma HearingSound(c: Config, v: View, heard: seq<Hearing>)
    requires Sound(c, v)
    ensures Sound(c, v.(log := v.log.(heard := heard)))
  {
    hide WireOk, StreamOk, SlotsOk, FatesOk, Outbound.HistoryOk, NoticesOk, Subscriptions.RowsOk, ReportsOk, RestOk;
  }

  lemma ToldNothing(log: Log)
    requires log.owed == []
    ensures Told(log) == log
  {
    assert log.calls + [] == log.calls;
  }

  /** Another handler is called. */
  function Called(log: Log, call: Call): Log { log.(calls := log.calls + [call]) }

  lemma CalledSound(c: Config, v: View, call: Call)
    requires Sound(c, v) && v.log.owed == [] && !call.OnDisconnect? && !call.OnDelivery?
    ensures Sound(c, v.(log := Called(v.log, call)))
  {
    hide WireOk, StreamOk, SlotsOk, FatesOk, Outbound.HistoryOk, NoticesOk, Subscriptions.RowsOk, ReportsOk, RestOk;
    assert v.log.calls + v.log.owed == v.log.calls && v.log.calls + [call] + v.log.owed == v.log.calls + [call];
    ReportOther(v.log.calls, v.log.notices, v.log.completed, call);
  }

  lemma NoRequests(m: map<u16, Entry>, c: Config)
    ensures PendingOk([], m, c)
  {
  }

  /** shutdown(): the session ends, and with it, if it was clean, everything in flight. */
  function Ended(v: View, reason: Error, interval: nat, clean: bool): View
  {
    if clean then Discard(Closed(v, reason, interval)) else Closed(v, reason, interval)
  }

  /** connect() was accepted: the CONNECT packet is queued and nothing else. */
  function Opened(v: View, p: bytes): View
  {
    v.(state := Connecting, rx := [], txp := p, pingOutstanding := false,
       log := v.log.(path := v.log.path + [Connecting], connects := v.log.connects + 1, late := false, resting := true,
                     wire := [p], sent := [], received := [], frames := [], busy := 0, granted := {}, pings := []))
  }

  lemma OpenedSound(c: Config, v: View, p: bytes)
    requires Sound(c, v) && v.state == Idle && CompletePacket(p) && IsConnect(p) && |p| <= c.txBufferSize
    ensures Sound(c, Opened(v, p))
  {
    hide SlotsOk, FatesOk, StampsOk, Inbound.TableOk, Subscriptions.TableOk, StreamOk, WireOk, PathOk, CompletePacket,
         Outbound.HistoryOk, Subscriptions.RowsOk, NoticesOk, ReportsOk, RestOk;
    NothingToHandle(c.rxBufferSize);
    WireStart(Connecting, p);
    StreamNone(c.rxBufferSize);
    var none: bytes := [];
    assert none[0..] == none;
    PathStep(v.log.path, Idle, Connecting);
  }

  //
  // Outbound publications
  //

  /** publish() takes slot i for a new publication. */
  function Taken(v: View, i: nat, s: Slot, p: Publication, at: nat): View
    requires i < |v.outbound|
  {
    v.(outbound := v.outbound[i := s],
       log := v.log.(pubs := v.log.pubs + [p], inflight := v.log.inflight[p.id := Entry(|v.log.pubs|, StageFor(p.qos))],
                     fates := v.log.fates + [InFlight], stamps := v.log.stamps[p.id := at],
                     out := v.log.out + [Outbound.Accepted(p)] + [Outbound.Issued(p.id, s.packet)]))
  }

  lemma TakenSound(c: Config, v: View, i: nat, s: Slot, p: Publication, at: nat)
    requires Sound(c, v) && i < |v.outbound| && !v.outbound[i].Live() && s.Live() && Stores(s, p)
             && ValidPhase(p.qos, s.phase)
    requires p.id !in v.log.inflight && (forall k :: 0 <= k < |v.pending| ==> v.pending[k].packetId != p.id)
    requires at <= v.now && s.lastSentMs == at % CLOCK_RANGE
    ensures Sound(c, Taken(v, i, s, p, at))
  {
    hide WireOk, StreamOk, SlotsOk, FatesOk, Outbound.HistoryOk, NoticesOk, Subscriptions.RowsOk, ReportsOk, RestOk,
         Stores, SubsOk, LifecycleOk, PingsOk;
    TakeSlot(v.outbound, i, s, v.log.inflight, v.log.pubs, p);
    FateAccept(v.log.fates, v.log.inflight, v.log.completed, p.id, StageFor(p.qos));
    TakenPacket(s, p);
    Outbound.Accept(v.log.out, v.log.inflight, v.log.pubs, v.log.completed, p, s.packet);
    TakenStamps(v.outbound, i, s, v.log.inflight, v.log.pubs, v.log.stamps, v.now, at, p);
  }

  lemma TakenPacket(s: Slot, p: Publication)
    requires Stores(s, p) && ValidPhase(p.qos, s.phase)
    ensures Publishable(p) && (s.packet == PublishOf(p, false) || s.packet == PublishOf(p, true))
  {
  }

  lemma TakenStamps(o: seq<Slot>, i: nat, s: Slot, m: map<u16, Entry>, pubs: seq<Publication>, stamps: map<u16, nat>,
      now: nat, at: nat, p: Publication)
    requires i < |o| && SlotsOk(o, m, pubs) && StampsOk(o, stamps, now) && p.id !in m && Stores(s, p)
    requires at <= now && s.lastSentMs == at % CLOCK_RANGE
    ensures StampsOk(o[i := s], stamps[p.id := at], now)
  {
    StoresId(s, p);
    hide Stores;
    forall k | 0 <= k < |o| && o[k].Live() ensures o[k].packetId != p.id { assert SlotOk(o[k], m, pubs); }
  }

  /** Slot i stores another packet for the same stage of the same publication, without having queued it. */
  function Rewritten(v: View, i: nat, s: Slot): View
    requires i < |v.outbound|
  {
    v.(outbound := v.outbound[i := s])
  }

  lemma RewrittenSound(c: Config, v: View, i: nat, s: Slot)
    requires Sound(c, v) && i < |v.outbound| && v.outbound[i].Live() && s.phase == v.outbound[i].phase
             && s.packetId == v.outbound[i].packetId
    requires s.packetId in v.log.inflight && v.log.inflight[s.packetId].uid < |v.log.pubs|
    requires Stores(s, v.log.pubs[v.log.inflight[s.packetId].uid]) && s.lastSentMs == v.outbound[i].lastSentMs
    ensures Sound(c, Rewritten(v, i, s))
  {
    hide WireOk, StreamOk, SlotsOk, FatesOk, Outbound.HistoryOk, NoticesOk, Subscriptions.RowsOk, ReportsOk, RestOk,
         SubsOk, LifecycleOk, PingsOk;
    LiveIffEntry(v.outbound, v.log.inflight, v.log.pubs, i);
    hide Stores;
    RewriteSlot(v.outbound, i, s, v.log.inflight, v.log.pubs);
    SameEntry(v.log.inflight, s);
  }

  lemma SameEntry(m: map<u16, Entry>, s: Slot)
    requires s.Live() && s.packetId in m && m[s.packetId].stage == StageOf(s.phase)
    ensures m[s.packetId := Entry(m[s.packetId].uid, StageOf(s.phase))] == m
  {
  }

  /** A PUBREC has been handled: slot i, which held the PUBLISH, now holds the PUBREL. */
  function Turned(v: View, i: nat, s: Slot): View
    requires i < |v.outbound| && s.packetId in v.log.inflight
  {
    v.(outbound := v.outbound[i := s],
       log := v.log.(inflight := v.log.inflight[s.packetId := Entry(v.log.inflight[s.packetId].uid, AwaitPubcomp)],
                     out := v.log.out + [Outbound.Got(Rec(s.packetId))]))
  }

  lemma TurnedSound(c: Config, v: View, i: nat, s: Slot)
    requires Sound(c, v) && i < |v.outbound| && v.outbound[i].phase == WaitPubrec && s.phase == WaitPubcomp
    requires s.packetId == v.outbound[i].packetId && s.packetId in v.log.inflight
             && v.log.inflight[s.packetId].uid < |v.log.pubs|
    requires Stores(s, v.log.pubs[v.log.inflight[s.packetId].uid]) && s.lastSentMs == v.outbound[i].lastSentMs
    ensures Sound(c, Turned(v, i, s))
  {
    hide WireOk, StreamOk, SlotsOk, FatesOk, Outbound.HistoryOk, NoticesOk, Subscriptions.RowsOk, ReportsOk, RestOk,
         SubsOk, LifecycleOk, PingsOk;
    LiveIffEntry(v.outbound, v.log.inflight, v.log.pubs, i);
    hide Stores;
    RewriteSlot(v.outbound, i, s, v.log.inflight, v.log.pubs);
    FateAdvance(v.log.fates, v.log.inflight, v.log.completed, s.packetId, AwaitPubcomp);
    Outbound.Hear(v.log.out, v.log.inflight, v.log.pubs, v.log.completed, Rec(s.packetId));
  }

  /** An acknowledgement that nothing waits for, or that came before, changes nothing. */
  function Heard(v: View, p: Backward): View { v.(log := v.log.(out := v.log.out + [Outbound.Got(p)])) }

  lemma HeardSound(c: Config, v: View, p: Backward)
    requires Sound(c, v) && SenderSlots(v.log.inflight, p) == v.log.inflight && SenderCompletes(v.log.inflight, p).None?
    ensures Sound(c, Heard(v, p))
  {
    hide WireOk, StreamOk, SlotsOk, FatesOk, Outbound.HistoryOk, NoticesOk, Subscriptions.RowsOk, ReportsOk, RestOk,
         SubsOk, LifecycleOk, PingsOk;
    Outbound.Hear(v.log.out, v.log.inflight, v.log.pubs, v.log.completed, p);
  }

  /** Slot i's packet has just been queued, at true time `at`. */
  function Stamped(v: View, i: nat, at: nat): View
    requires i < |v.outbound|
  {
    v.(outbound := v.outbound[i := v.outbound[i].(lastSentMs := at % CLOCK_RANGE)],
       log := v.log.(stamps := v.log.stamps[v.outbound[i].packetId := at],
                     out := v.log.out + [Outbound.Issued(v.outbound[i].packetId, v.outbound[i].packet)]))
  }

  lemma StampedSound(c: Config, v: View, i: nat, at: nat)
    requires Sound(c, v) && i < |v.outbound| && v.outbound[i].Live() && at <= v.now
    ensures Sound(c, Stamped(v, i, at))
  {
    hide WireOk, StreamOk, SlotsOk, FatesOk, Outbound.HistoryOk, NoticesOk, Subscriptions.RowsOk, ReportsOk, RestOk,
         SubsOk, LifecycleOk, PingsOk;
    var s := v.outbound[i].(lastSentMs := at % CLOCK_RANGE);
    LiveIffEntry(v.outbound, v.log.inflight, v.log.pubs, i);
    RewriteSlot(v.outbound, i, s, v.log.inflight, v.log.pubs);
    Outbound.Issue(v.log.out, v.log.inflight, v.log.pubs, v.log.completed, v.outbound[i]);
    hide Stores;
    SameEntry(v.log.inflight, s);
    StampedStamps(v.outbound, i, v.log.inflight, v.log.pubs, v.log.stamps, v.now, at);
  }

  lemma StampedStamps(o: seq<Slot>, i: nat, m: map<u16, Entry>, pubs: seq<Publication>, stamps: map<u16,
      nat>, now: nat, at: nat)
    requires i < |o| && o[i].Live() && SlotsOk(o, m, pubs) && StampsOk(o, stamps, now) && at <= now
    ensures StampsOk(o[i := o[i].(lastSentMs := at % CLOCK_RANGE)], stamps[o[i].packetId := at], now)
  {
  }

  /** The acknowledgement that slot i waits for last. */
  function LastAck(s: Slot): Backward { if s.phase == WaitPuback then Ack(s.packetId) else Comp(s.packetId) }

  /** The acknowledgement that completes slot i has been handled. */
  function Finished(v: View, i: nat): View
    requires i < |v.outbound| && v.outbound[i].packetId in v.log.inflight
    requires v.log.inflight[v.outbound[i].packetId].uid < |v.log.fates|
  {
    var id := v.outbound[i].packetId;
    var uid := v.log.inflight[id].uid;
    v.(outbound := v.outbound[i := Released(v.outbound[i])],
       log := v.log.(inflight := v.log.inflight - {id}, fates := v.log.fates[uid := Completed],
                     completed := v.log.completed + [uid], owed := v.log.owed + [OnDelivery(uid, id)],
                     out := v.log.out + [Outbound.Got(LastAck(v.outbound[i]))]))
  }

  lemma FinishedSound(c: Config, v: View, i: nat)
    requires Sound(c, v) && i < |v.outbound| && v.outbound[i].Live() && v.outbound[i].phase != WaitPubrec
    ensures v.outbound[i].packetId in v.log.inflight && v.log.inflight[v.outbound[i].packetId].uid < |v.log.fates|
    ensures Sound(c, Finished(v, i))
  {
    hide WireOk, StreamOk, SlotsOk, FatesOk, Outbound.HistoryOk, NoticesOk, Subscriptions.RowsOk, ReportsOk, RestOk,
         SubsOk, LifecycleOk, PingsOk;
    LiveIffEntry(v.outbound, v.log.inflight, v.log.pubs, i);
    ReleaseSlot(v.outbound, i, v.log.inflight, v.log.pubs);
    FateComplete(v.log.fates, v.log.inflight, v.log.completed, v.outbound[i].packetId);
    hide Stores;
    Outbound.Hear(v.log.out, v.log.inflight, v.log.pubs, v.log.completed, LastAck(v.outbound[i]));
    OwedDelivery(v.log, v.log.inflight[v.outbound[i].packetId].uid, v.outbound[i].packetId);
  }

  lemma GapSound(c: Config, v: View, gap: nat)
    requires Sound(c, v) && gap >= c.retryIntervalMs
    ensures Sound(c, v.(log := v.log.(gaps := v.log.gaps + [gap])))
  {
    hide WireOk, StreamOk, SlotsOk, FatesOk, Outbound.HistoryOk, NoticesOk, Subscriptions.RowsOk, ReportsOk, RestOk;
  }

  //
  // Inbound messages
  //

  function Noted(v: View, e: Inbound.Event): View { v.(log := v.log.(inbound := v.log.inbound + [e])) }

  lemma NotedSound(c: Config, v: View, e: Inbound.Event)
    requires Sound(c, v) && !e.RecQueued? && !e.Released? && !e.Forgotten?
    requires Inbound.DisciplinedAt(v.log.inbound + [e], |v.log.inbound|)
    ensures Sound(c, Noted(v, e))
  {
    hide WireOk, StreamOk, SlotsOk, FatesOk, Outbound.HistoryOk, NoticesOk, Subscriptions.RowsOk, ReportsOk, RestOk,
         Inbound.TableOk;
    Inbound.Note(v.inboundIds, v.log.inbound, c.maxInflightIn, e);
  }

  function TakenIn(v: View, id: u16): View
  {
    v.(inboundIds := v.inboundIds + [id], log := v.log.(inbound := v.log.inbound + [Inbound.RecQueued(id)]))
  }

  lemma TakenInSound(c: Config, v: View, id: u16)
    requires Sound(c, v) && id !in v.inboundIds && |v.inboundIds| < c.maxInflightIn
    ensures Sound(c, TakenIn(v, id))
  {
    hide WireOk, StreamOk, SlotsOk, FatesOk, Outbound.HistoryOk, NoticesOk, Subscriptions.RowsOk, ReportsOk, RestOk,
         Inbound.TableOk;
    Inbound.Take(v.inboundIds, v.log.inbound, c.maxInflightIn, id);
  }

  function LetGo(v: View, id: u16): View
  {
    v.(inboundIds := Inbound.Remove(v.inboundIds, id),
        log := v.log.(inbound := v.log.inbound + [Inbound.Event.Released(id)]))
  }

  lemma LetGoSound(c: Config, v: View, id: u16)
    requires Sound(c, v)
    ensures Sound(c, LetGo(v, id))
  {
    hide WireOk, StreamOk, SlotsOk, FatesOk, Outbound.HistoryOk, NoticesOk, Subscriptions.RowsOk, ReportsOk, RestOk,
         Inbound.TableOk;
    Inbound.Release(v.inboundIds, v.log.inbound, c.maxInflightIn, id);
  }

  //
  // Keep-alive
  //

  function Pinged(v: View, at: nat): View
  {
    v.(pingOutstanding := true, pingSentMs := at % CLOCK_RANGE,
        log := v.log.(pings := v.log.pings + [Request], pingAt := at))
  }

  lemma PingedSound(c: Config, v: View, at: nat)
    requires Sound(c, v) && !v.pingOutstanding && at <= v.now && Established(v.state)
    ensures Sound(c, Pinged(v, at))
  {
    hide WireOk, StreamOk, SlotsOk, FatesOk, Outbound.HistoryOk, NoticesOk, Subscriptions.RowsOk, ReportsOk, RestOk;
  }

  function Ponged(v: View): View { v.(pingOutstanding := false, log := v.log.(pings := v.log.pings + [Response])) }

  lemma PongedSound(c: Config, v: View)
    requires Sound(c, v)
    ensures Sound(c, Ponged(v))
  {
    hide WireOk, StreamOk, SlotsOk, FatesOk, Outbound.HistoryOk, NoticesOk, Subscriptions.RowsOk, ReportsOk, RestOk;
  }

  //
  // Subscriptions
  //

  /** The history of rows when t has taken the place of t0 and some are new. */
  function Additions(h: seq<Subscriptions.Change>, t0: Subscriptions.Table,
      t: Subscriptions.Table): seq<Subscriptions.Change>
  {
    if |t| <= |t0| then h else h + Subscriptions.AddedAll(t[|t0|..])
  }

  /** A SUBSCRIBE or UNSUBSCRIBE has been queued and is now awaited. */
  function Requested(v: View, t: Subscriptions.Table, ack: Subscriptions.PendingAck): View
  {
    v.(subs := t, pending := v.pending + [ack], log := v.log.(rows := Additions(v.log.rows, v.subs, t)))
  }

  lemma RequestedSound(c: Config, v: View, t: Subscriptions.Table, ack: Subscriptions.PendingAck)
    requires Sound(c, v) && Established(v.state) && |v.pending| < c.maxPendingAcks
    requires Subscriptions.TableOk(t, c.maxSubscriptions) && Subscriptions.Extends(v.subs, t)
    requires Subscriptions.Covered(t, v.pending, v.log.granted, if ack.expected == Suback then ack.subs else [])
    requires ack.packetId != 0 && ack.packetId !in v.log.inflight && |ack.subs| <= c.maxTopicsPerRequest
    requires forall k :: 0 <= k < |v.pending| ==> v.pending[k].packetId != ack.packetId
    ensures Sound(c, Requested(v, t, ack))
  {
    hide WireOk, StreamOk, SlotsOk, FatesOk, Outbound.HistoryOk, NoticesOk, Subscriptions.RowsOk, ReportsOk, RestOk,
         Subscriptions.Covered;
    RowsExtended(v.log.rows, v.subs, t, v.log.granted, c.maxSubscriptions);
    hide Subscriptions.TableOk, Subscriptions.GrantedOk, Additions;
    if ack.expected == Suback {
      Subscriptions.CoverPush(t, v.pending, v.log.granted, ack);
    } else {
      Subscriptions.CoverMore(t, v.pending, v.log.granted, ack);
    }
  }

  lemma RowsExtended(h: seq<Subscriptions.Change>, t: Subscriptions.Table, t': Subscriptions.Table,
      granted: set<u16>, max: nat)
    requires Subscriptions.RowsOk(h, t) && Subscriptions.GrantedOk(t, granted)
    requires Subscriptions.TableOk(t', max) && Subscriptions.Extends(t, t')
    ensures Subscriptions.RowsOk(Additions(h, t, t'), t') && Subscriptions.GrantedOk(t', granted)
  {
    hide Subscriptions.RowsOk;
    Subscriptions.GrantedExtends(t, t', granted, max);
    if |t'| <= |t| { Subscriptions.RowsSame(h, t, t'); } else { Subscriptions.RowsAdded(h, t, t'); }
  }

  /** The acknowledgement of request k has been handled; `gone` are the rows that it removed. */
  function Answered(v: View, t: Subscriptions.Table, granted: set<u16>, k: nat, gone: seq<Subscriptions.Change>): View
    requires k < |v.pending|
  {
    v.(subs := t, pending := v.pending[..k] + v.pending[k + 1..],
        log := v.log.(granted := granted, rows := v.log.rows + gone))
  }

  lemma AnsweredSound(c: Config, v: View, t: Subscriptions.Table, granted: set<u16>, k: nat,
      gone: seq<Subscriptions.Change>)
    requires Sound(c, v) && k < |v.pending|
    requires Subscriptions.TableOk(t, c.maxSubscriptions) && Subscriptions.GrantedOk(t, granted)
             && Subscriptions.Covered(t, v.pending, granted, [])
    requires Subscriptions.RowsOk(v.log.rows + gone, t)
    requires v.pending[k].expected == Suback ==>
               forall x :: x in v.pending[k].subs && x in Subscriptions.RowIds(t) ==> x in granted
    ensures Established(v.state) && Sound(c, Answered(v, t, granted, k, gone))
  {
    hide WireOk, StreamOk, SlotsOk, FatesOk, Outbound.HistoryOk, NoticesOk, Subscriptions.RowsOk, ReportsOk, RestOk,
         Subscriptions.Covered, Subscriptions.TableOk, Subscriptions.GrantedOk, Subscriptions.RowIds;
    Subscriptions.CoverRetire(t, v.pending, granted, k);
  }

  /** CONNACK flags the rows of a session that the broker does not have; they already are. */
  lemma FlaggedAgain(c: Config, v: View)
    requires Sound(c, v) && !Established(v.state)
    ensures Subscriptions.Flagged(v.subs) == v.subs
  {
    hide StreamsOk, OutboundOk, TimersOk, LifecycleOk, NoticesOk, ReportsOk, RestOk, Inbound.TableOk,
         Subscriptions.RowsOk, Subscriptions.TableOk;
    var t := v.subs;
    forall i | 0 <= i < |t| ensures Subscriptions.Flagged(t)[i] == t[i] { }
  }

  //
  // What a handler may do to the session that called it
  //

  /** The part of the state that says which session is under way and how far its input was read. */
  datatype Mark = Mark(
    connects: nat, notices: seq<Notice>, state: State, rxLen: nat, received: bytes, frames: seq<bytes>,
        busy: nat, lastError: Error,
    late: bool, hardCloses: nat)

  predicate SameSession(a: Mark, b: Mark) { a.connects == b.connects && a.notices == b.notices }

  /** A session ended under the application's hands, by disconnect() or abort(), and perhaps
      another one was asked for. What the client then has as its last error is the reason notified,
      unless abort() was called once more. */
  predicate Over(m: Mark)
  {
    && m.rxLen == 0
    && (m.state == Idle || (m.state == Connecting && m.lastError == Ok))
    && (m.state == Idle ==>
          && m.notices != [] && (LastReason(m.notices) == Ok || LastReason(m.notices) == TransportClosed)
          && m.lastError == if m.late then TransportClosed else LastReason(m.notices))
  }

  /** Between a and b the application may have called back: the session is untouched, or is closing
      gracefully, or is over and its buffers are gone. Only a disconnect() that closes at once ends it
      with reason Ok. */
  predicate Kept(a: Mark, b: Mark)
  {
    && a.connects <= b.connects && a.notices <= b.notices && a.hardCloses <= b.hardCloses
    && (if !SameSession(a, b) then
          Over(b) && (b.state == Idle && LastReason(b.notices) == Ok ==> a.hardCloses < b.hardCloses)
        else if a.state == Idle then
          && b.state == Idle && b.rxLen == a.rxLen && b.hardCloses == a.hardCloses
          && ((b.lastError == a.lastError && b.late == a.late) || (b.lastError == TransportClosed && b.late))
        else
          && b.rxLen == a.rxLen && b.received == a.received && b.frames == a.frames && b.busy == a.busy
          && Progress(a.state, b.state) && b.lastError == a.lastError && b.late == a.late
             && b.hardCloses == a.hardCloses)
  }

  /** Forward within a session. */
  predicate Progress(a: State, b: State)
  {
    a == b || (a == AwaitingConnack && Established(b)) || (a == Connected && b == Disconnecting)
  }

  lemma KeptRefl(a: Mark)
    ensures Kept(a, a)
  {
  }

  lemma KeptMoved(a: Mark, b: Mark)
    requires a.state != Idle && b == a.(state := b.state) && Progress(a.state, b.state)
    ensures Kept(a, b)
  {
  }

  /** abort() when there was no session. */
  lemma KeptLate(a: Mark, b: Mark)
    requires SameSession(a, b) && a.state == b.state == Idle && b.rxLen == a.rxLen && b.hardCloses == a.hardCloses
    requires b.lastError == TransportClosed && b.late
    ensures Kept(a, b)
  {
  }

  /** disconnect() or abort() ended the session. */
  lemma KeptEnded(a: Mark, b: Mark, reason: Error)
    requires a.state != Idle && (reason == Ok || reason == TransportClosed) && a.connects <= b.connects
    requires Notified(a.notices, b.notices, reason, a.received, a.frames) && b.rxLen == 0 && !b.late
    requires (b.state == Idle && b.lastError == reason) || (b.state == Connecting && b.lastError == Ok)
    requires if reason == Ok then a.hardCloses < b.hardCloses else a.hardCloses <= b.hardCloses
    ensures Kept(a, b)
  {
  }

  lemma KeptTrans(a: Mark, b: Mark, c: Mark)
    requires Kept(a, b) && Kept(b, c)
    ensures Kept(a, c)
  {
  }
}
