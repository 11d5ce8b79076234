/** The client's state as values: configuration, connection states, the history that ghost code
    records, and the invariants that tie the two together (include/mqtt/client.hpp and
    include/mqtt/config.hpp). Client.dfy proves that every operation keeps them. */
module Session {
  import opened Types
  import opened Packet
  import opened Codec
  import opened Framing
  import opened Transport
  import opened ExactlyOnce
  import opened Inflight
  import Inbound
  import Outbound
  import IdAllocator
  import Subscriptions

  datatype Config = Config(
    rxBufferSize: nat, txBufferSize: nat,
    maxTopicLen: nat, maxClientIdLen: nat, maxUsernameLen: nat, maxPasswordLen: nat,
    maxInflightOut: nat, maxPersistedMsgSize: nat, maxInflightIn: nat,
    maxSubscriptions: nat, maxPendingAcks: nat, maxTopicsPerRequest: nat,
    retryIntervalMs: u32, connectTimeoutMs: u32)

  /** The compile-time checks, and the table sizes that leave an id to spare. */
  predicate ConfigOk(c: Config)
  {
    && 16 <= c.rxBufferSize <= 268435460 && 16 <= c.txBufferSize
    && c.maxTopicLen >= 1 && c.maxClientIdLen >= 1 && c.maxTopicsPerRequest >= 1
    && (c.maxInflightOut == 0 || 8 <= c.maxPersistedMsgSize) && c.maxPersistedMsgSize <= 65535
    && c.maxSubscriptions < 65535 && c.maxInflightOut + c.maxPendingAcks < 65535
  }

  datatype State = Idle | Connecting | AwaitingConnack | Connected | Disconnecting

  datatype Ping = Request | Response

  /** The end of a session: its reason, what the session had received and handled, and for the keep-alive
      its interval and the true time since the PINGREQ that was outstanding, if one was. */
  datatype Notice = Notice(reason: Error, received: bytes, frames: seq<bytes>, interval: nat, silence: nat)

  /** The reason last notified. */
  function LastReason(notices: seq<Notice>): Error { if notices == [] then Ok else notices[|notices| - 1].reason }

  /** One session ended between a and b. */
  predicate Notified(a: seq<Notice>, b: seq<Notice>, reason: Error, received: bytes, frames: seq<bytes>)
  {
    && |b| == |a| + 1 && a <= b
    && b[|a|].reason == reason && b[|a|].received == received && b[|a|].frames == frames
  }

  /** A call of an application handler other than a message handler. */
  datatype Call =
    | OnConnect(info: ConnackInfo)
    | OnDisconnect(reason: Error)
    | OnDelivery(uid: nat, id: u16)
    | OnSuback(id: u16, codes: bytes)

  /** A call of a message handler: that of a subscription, or the fallback. */
  datatype Hearing = Hearing(row: Option<u16>, message: Message)

  datatype Counts = Counts(
    recvs: nat,                      // recv() calls
    handled: nat,                    // packets handed to the packet handler
    hardCloses: nat,                 // disconnect() calls that closed at once instead of queueing a DISCONNECT
    deadReads: nat,                  // recv() calls on a transport that was closed
    deadErrors: nat)                 // those that failed

  /** What has happened. `wire`, `sent`, `received`, `frames`, `granted` and `pings` are about
      the current session; the rest is about the whole run. */
  datatype Log = Log(
    connects: nat,                   // connect() calls accepted
    notices: seq<Notice>,            // sessions that ended
    path: seq<State>,                // states passed through
    wire: seq<bytes>,                // packets queued
    sent: bytes,                     // bytes the transport accepted
    received: bytes,                 // bytes the transport produced
    frames: seq<bytes>,              // packets handed to the packet handler
    busy: nat,                       // bytes of the packet being handled, still in the buffer
    resting: bool,                   // every complete packet received has been handled
    pubs: seq<Publication>,          // QoS 1 and 2 publications accepted
    inflight: map<u16, Entry>,       // those under way, by packet id
    fates: seq<Fate>,                // what became of each
    completed: seq<nat>,             // publications that were acknowledged to the end
    calls: seq<Call>,                // handlers called
    heard: seq<Hearing>,             // message handlers called
    owed: seq<Call>,                 // handlers to be called before anything else happens
    out: seq<Outbound.Event>,
    inbound: seq<Inbound.Event>,
    rows: seq<Subscriptions.Change>, // subscription table rows added and removed
    granted: set<u16>,               // rows granted in this session
    pings: seq<Ping>,
    pingAt: nat,                     // true time of the last PINGREQ
    stamps: map<u16, nat>,           // true time at which each slot last queued its packet
    gaps: seq<nat>,                  // true time between an unforced repetition and the packet before it
    late: bool,                      // abort() was called when the last session had ended already
    counts: Counts)

  /** What the whole-run histories of a later moment have in common with those of an earlier one:
      nothing recorded is ever dropped or changed. */
  ghost predicate Grown(a: Log, b: Log)
  {
    && a.connects <= b.connects && a.notices <= b.notices && a.path <= b.path && a.pubs <= b.pubs
    && a.completed <= b.completed && a.out <= b.out && a.inbound <= b.inbound && a.rows <= b.rows && a.gaps <= b.gaps
    && a.calls <= b.calls && a.heard <= b.heard
  }

  lemma GrownRefl(a: Log)
    ensures Grown(a, a)
  {
  }

  lemma GrownTrans(a: Log, b: Log, c: Log)
    requires Grown(a, b) && Grown(b, c)
    ensures Grown(a, c)
  {
  }

  /** What everything but receiving may add to the histories: nothing completes or is dispatched, no
      acknowledgement is handled, no row goes, no handler but on_disconnect is called, and no packet comes
      to wait for being handled. */
  ghost predicate Quiet(a: Log, b: Log)
  {
    && Grown(a, b) && b.completed == a.completed
    && OnlyForgotten(a.inbound, b.inbound) && NoAcks(a.out, b.out) && OnlyAdded(a.rows, b.rows)
    && OnlyDisconnects(a.calls, b.calls) && b.heard == a.heard && (a.resting ==> b.resting)
    && b.counts == a.counts.(hardCloses := b.counts.hardCloses) && a.counts.hardCloses <= b.counts.hardCloses
  }

  ghost predicate OnlyForgotten(a: seq<Inbound.Event>, b: seq<Inbound.Event>)
  {
    a <= b && forall k :: |a| <= k < |b| ==> b[k].Forgotten?
  }

  ghost predicate NoAcks(a: seq<Outbound.Event>, b: seq<Outbound.Event>)
  {
    a <= b && forall k :: |a| <= k < |b| ==> !b[k].Got?
  }

  ghost predicate OnlyAdded(a: seq<Subscriptions.Change>, b: seq<Subscriptions.Change>)
  {
    a <= b && forall k :: |a| <= k < |b| ==> b[k].Added?
  }

  ghost predicate OnlyDisconnects(a: seq<Call>, b: seq<Call>)
  {
    a <= b && forall k :: |a| <= k < |b| ==> b[k].OnDisconnect?
  }

  lemma QuietRefl(a: Log)
    ensures Quiet(a, a)
  {
  }

  lemma QuietTrans(a: Log, b: Log, c: Log)
    requires Quiet(a, b) && Quiet(b, c)
    ensures Quiet(a, c)
  {
    assert OnlyForgotten(a.inbound, c.inbound);
    assert NoAcks(a.out, c.out);
    assert OnlyAdded(a.rows, c.rows);
    assert OnlyDisconnects(a.calls, c.calls);
  }

  lemma QuietGrows(a: Log, b: Log)
    requires Quiet(a, b)
    ensures Grown(a, b)
  {
  }

  //
  // Lifecycle
  //

  /** The documented transitions: forward one at a time, or back to Idle. */
  predicate Transition(a: State, b: State)
  {
    || (a == Idle && b == Connecting)
    || (a == Connecting && b == AwaitingConnack)
    || (a == AwaitingConnack && b == Connected)
    || (a == Connected && b == Disconnecting)
    || (a != Idle && b == Idle)
  }

  ghost predicate PathOk(path: seq<State>, now: State)
  {
    && path != [] && path[0] == Idle && path[|path| - 1] == now
    && forall i :: 0 < i < |path| ==> Transition(path[i - 1], path[i])
  }

  lemma PathStep(path: seq<State>, a: State, b: State)
    requires PathOk(path, a) && Transition(a, b)
    ensures PathOk(path + [b], b)
  {
  }

  //
  // Calls of handlers
  //

  /** The reasons that on_disconnect was called with. */
  function Disconnects(calls: seq<Call>): seq<Error>
  {
    if calls == [] then []
    else
      var front, c := Disconnects(calls[..|calls| - 1]), calls[|calls| - 1];
      if c.OnDisconnect? then front + [c.reason] else front
  }

  /** The publications that on_delivery was called for. */
  function Deliveries(calls: seq<Call>): seq<nat>
  {
    if calls == [] then []
    else
      var front, c := Deliveries(calls[..|calls| - 1]), calls[|calls| - 1];
      if c.OnDelivery? then front + [c.uid] else front
  }

  function Reasons(notices: seq<Notice>): seq<Error>
  {
    seq(|notices|, i requires 0 <= i < |notices| => notices[i].reason)
  }

  /** on_disconnect was called once for every session that ended, on_delivery once for every publication
      acknowledged to the end, in this order and with these arguments. */
  ghost predicate ReportsOk(calls: seq<Call>, notices: seq<Notice>, completed: seq<nat>)
  {
    Disconnects(calls) == Reasons(notices) && Deliveries(calls) == completed
  }

  lemma {:induction false} CallAppend(calls: seq<Call>, c: Call)
    ensures Disconnects(calls + [c]) == if c.OnDisconnect? then Disconnects(calls) + [c.reason] else Disconnects(calls)
    ensures Deliveries(calls + [c]) == if c.OnDelivery? then Deliveries(calls) + [c.uid] else Deliveries(calls)
  {
    assert (calls + [c])[..|calls|] == calls;
  }

  lemma ReportEnd(calls: seq<Call>, notices: seq<Notice>, completed: seq<nat>, n: Notice)
    requires ReportsOk(calls, notices, completed)
    ensures ReportsOk(calls + [OnDisconnect(n.reason)], notices + [n], completed)
  {
    CallAppend(calls, OnDisconnect(n.reason));
    assert Reasons(notices + [n]) == Reasons(notices) + [n.reason];
  }

  lemma ReportDelivery(calls: seq<Call>, notices: seq<Notice>, completed: seq<nat>, uid: nat, id: u16)
    requires ReportsOk(calls, notices, completed)
    ensures ReportsOk(calls + [OnDelivery(uid, id)], notices, completed + [uid])
  {
    CallAppend(calls, OnDelivery(uid, id));
  }

  lemma ReportOther(calls: seq<Call>, notices: seq<Notice>, completed: seq<nat>, c: Call)
    requires ReportsOk(calls, notices, completed) && !c.OnDisconnect? && !c.OnDelivery?
    ensures ReportsOk(calls + [c], notices, completed)
  {
    CallAppend(calls, c);
  }

  /** Every accepted connect() is answered by one notification, except the one under way. */
  ghost predicate LifecycleOk(s: State, path: seq<State>, connects: nat, notices: nat)
  {
    PathOk(path, s) && connects == notices + if s == Idle then 0 else 1
  }

  /** Of what a session received, the packets it handled were the first; and it timed out only when its
      PINGREQ had gone unanswered for longer than the interval, in true time. */
  ghost predicate NoticeOk(n: Notice, cap: nat)
  {
    n.frames <= Parse(n.received, cap).frames && (n.reason == KeepAliveTimeout ==> 0 < n.interval < n.silence)
  }

  ghost predicate NoticesOk(notices: seq<Notice>, cap: nat)
  {
    forall k :: 0 <= k < |notices| ==> NoticeOk(notices[k], cap)
  }

  lemma NoticeAdded(notices: seq<Notice>, n: Notice, held: bytes, cap: nat)
    requires NoticesOk(notices, cap) && StreamOk(n.received, n.frames, held, cap)
    requires n.reason == KeepAliveTimeout ==> 0 < n.interval < n.silence
    ensures NoticesOk(notices + [n], cap)
  {
    HandledIsFirst(n.received, n.frames, held, cap);
  }

  predicate Online(s: State) { s == AwaitingConnack || s == Connected || s == Disconnecting }
  predicate Established(s: State) { s == Connected || s == Disconnecting }

  //
  // The outgoing stream
  //

  predicate IsConnect(p: bytes) { p != [] && p[0] == 0x10 }

  /** A complete encoded packet. */
  predicate CompletePacket(p: bytes) { IsFrame(p, |p|) }

  /** What the transport accepted, followed by what is pending, is the concatenation of the complete
      packets queued, in order; a session starts with its only CONNECT. */
  ghost predicate WireOk(s: State, wire: seq<bytes>, sent: bytes, pending: bytes)
  {
    && Flatten(wire) == sent + pending
    && (forall i :: 0 <= i < |wire| ==> CompletePacket(wire[i]) && (IsConnect(wire[i]) <==> i == 0))
    && (s == Idle <==> wire == [])
  }

  lemma WireQueue(s: State, wire: seq<bytes>, sent: bytes, pending: bytes, p: bytes)
    requires WireOk(s, wire, sent, pending) && s != Idle && CompletePacket(p) && !IsConnect(p)
    ensures WireOk(s, wire + [p], sent, pending + p)
  {
    hide CompletePacket;
    FlattenAppend(wire, p);
    assert sent + pending + p == sent + (pending + p);
  }

  lemma WireSend(s: State, wire: seq<bytes>, sent: bytes, pending: bytes, n: nat)
    requires WireOk(s, wire, sent, pending) && n <= |pending|
    ensures WireOk(s, wire, sent + pending[..n], pending[n..])
  {
    assert sent + pending == sent + pending[..n] + pending[n..];
  }

  lemma WireState(s: State, s': State, wire: seq<bytes>, sent: bytes, pending: bytes)
    requires WireOk(s, wire, sent, pending) && s != Idle && s' != Idle
    ensures WireOk(s', wire, sent, pending)
  {
  }

  lemma WireStart(s: State, p: bytes)
    requires s != Idle && CompletePacket(p) && IsConnect(p)
    ensures WireOk(s, [p], [], p)
  {
    Flatten2(p, []);
  }

  lemma WireNone()
    ensures WireOk(Idle, [], [], [])
  {
  }

  /** Whatever part of the bytes sent has reached the peer, it reads from them the first packets that
      were queued, whole and in order; and all of them once everything has arrived. */
  lemma {:induction false} PeerReadsInOrder(s: State, wire: seq<bytes>, sent: bytes, pending: bytes, n: nat, cap: nat)
    requires WireOk(s, wire, sent, pending) && n <= |sent| && forall i :: 0 <= i < |wire| ==> |wire[i]| <= cap
    ensures var r := Parse(sent[..n], cap);
            && r.verdict.NeedMore? && r.frames <= wire
            && (n == |sent| && pending == [] ==> r.frames == wire)
  {
    forall i | 0 <= i < |wire| ensures IsFrame(wire[i], cap) { FrameFits(wire[i], cap); }
    hide IsFrame, Parse, CompletePacket;
    FlattenFrontIsFlatten(wire);
    assert sent[..n] == FlattenFront(wire)[..n];
    PrefixDelivers(wire, n, cap);
  }

  lemma FrameFits(f: bytes, cap: nat)
    requires CompletePacket(f) && |f| <= cap
    ensures IsFrame(f, cap)
  {
  }

  /** Only the CONNECT packet starts with the byte of a CONNECT. */
  lemma ImageKind(o: Outgoing)
    requires Encodable(o)
    ensures CompletePacket(Image(o)) && (IsConnect(Image(o)) <==> o.SendConnect?)
  {
    ImageIsFrame(o, |Image(o)|);
    FirstByte(o);
    hide Encodable, Image, IsFrame, HeaderOf, ToByte;
    HeaderKind(o);
  }

  lemma FirstByte(o: Outgoing)
    requires Encodable(o)
    ensures Image(o) != [] && Image(o)[0] == ToByte(HeaderOf(o))
  {
    hide BodyOf, VbiBytes, ArgsOk;
  }

  lemma HeaderKind(o: Outgoing)
    requires ArgsOk(o)
    ensures ToByte(HeaderOf(o)) == 0x10 <==> o.SendConnect?
  {
    hide ConnectArgsOk, PublishArgsOk, SubsArgsOk, FiltersArgsOk;
  }

  //
  // The incoming stream
  //

  /** Every byte received is in a packet handled or still held, in order. `held` is the buffer
      behind the packet being handled. */
  ghost predicate StreamOk(received: bytes, frames: seq<bytes>, held: bytes, cap: nat)
  {
    Flatten(frames) + held == received && AllFrames(frames, cap)
  }

  lemma {:induction false} ParseOfFrames(frames: seq<bytes>, rest: bytes, cap: nat)
    requires AllFrames(frames, cap)
    ensures Parse(Flatten(frames) + rest, cap) == Parsed(frames + Parse(rest, cap).frames, Parse(rest, cap).verdict)
  {
    hide IsFrame;
    hide Parse;
    if frames == [] {
      assert Flatten(frames) + rest == rest;
      assert frames + Parse(rest, cap).frames == Parse(rest, cap).frames;
    } else {
      var front, last := frames[..|frames| - 1], frames[|frames| - 1];
      ParseOfFrames(front, last + rest, cap);
      ParseFrame(last, rest, cap);
      assert Flatten(frames) == Flatten(front) + last;
      hide Flatten;
      assert Flatten(frames) + rest == Flatten(front) + (last + rest);
      assert front + ([last] + Parse(rest, cap).frames) == frames + Parse(rest, cap).frames;
    }
  }

  /** Whenever the buffer holds no complete packet, the packets handled are those of the one-shot
      parse of everything received, and what is held is its remainder. */
  lemma {:induction false} HandledIsParsed(received: bytes, frames: seq<bytes>, held: bytes, cap: nat)
    requires StreamOk(received, frames, held, cap) && !LookAt(held, cap).Whole?
    ensures Parse(received, cap) ==
            Parsed(frames, if LookAt(held, cap).Partial? then NeedMore(held) else Broken(LookAt(held, cap).error))
  {
    ParseOfFrames(frames, held, cap);
    assert frames + [] == frames;
  }

  lemma {:induction false} HandledIsFirst(received: bytes, frames: seq<bytes>, held: bytes, cap: nat)
    requires StreamOk(received, frames, held, cap)
    ensures frames <= Parse(received, cap).frames
  {
    hide Parse;
    ParseOfFrames(frames, held, cap);
  }

  lemma StreamReceive(received: bytes, frames: seq<bytes>, held: bytes, cap: nat, more: bytes)
    requires StreamOk(received, frames, held, cap)
    ensures StreamOk(received + more, frames, held + more, cap)
  {
    hide AllFrames;
    assert Flatten(frames) + held + more == Flatten(frames) + (held + more);
  }

  lemma StreamHandle(received: bytes, frames: seq<bytes>, held: bytes, cap: nat)
    requires StreamOk(received, frames, held, cap) && LookAt(held, cap).Whole?
    ensures var n := LookAt(held, cap).peek.totalBytes;
            2 <= n <= |held| && StreamOk(received, frames + [held[..n]], held[n..], cap)
  {
    hide LookAt, IsFrame;
    WholeExtent(held, cap);
    FrameAtFront(held, cap);
    var n := LookAt(held, cap).peek.totalBytes;
    FlattenAppend(frames, held[..n]);
    assert Flatten(frames) + held[..n] + held[n..] == Flatten(frames) + held;
  }

  lemma StreamNone(cap: nat)
    ensures StreamOk([], [], [], cap)
  {
  }

  //
  // Requests awaiting their acknowledgement
  //

  /** Within capacity, with nonzero ids that are distinct from each other and from every id in flight. */
  ghost predicate PendingOk(pending: seq<Subscriptions.PendingAck>, inflight: map<u16, Entry>, c: Config)
  {
    && |pending| <= c.maxPendingAcks
    && (forall k :: 0 <= k < |pending| ==>
          pending[k].packetId != 0 && pending[k].packetId !in inflight && |pending[k].subs| <= c.maxTopicsPerRequest)
    && (forall j, k :: 0 <= j < k < |pending| ==> pending[j].packetId != pending[k].packetId)
  }

  function UsedIds(o: seq<Slot>, pending: seq<Subscriptions.PendingAck>): set<int>
  {
    (set i | 0 <= i < |o| && o[i].Live() :: o[i].packetId as int)
        + (set k | 0 <= k < |pending| :: pending[k].packetId as int)
  }

  lemma {:induction false} LiveIdsFew(o: seq<Slot>)
    ensures |set i | 0 <= i < |o| && o[i].Live() :: o[i].packetId as int| <= |o|
  {
    var s := set i | 0 <= i < |o| && o[i].Live() :: o[i].packetId as int;
    if o == [] {
      assert s == {};
    } else {
      var front, last := o[..|o| - 1], o[|o| - 1];
      LiveIdsFew(front);
      var s' := set i | 0 <= i < |front| && front[i].Live() :: front[i].packetId as int;
      forall x | x in s ensures x in s' + {last.packetId as int} {
        var i :| 0 <= i < |o| && o[i].Live() && o[i].packetId as int == x;
        if i < |front| { assert front[i] == o[i]; }
      }
      assert s <= s' + {last.packetId as int};
      IdAllocator.SubsetSize(s, s' + {last.packetId as int});
    }
  }

  lemma {:induction false} PendingIdsFew(pending: seq<Subscriptions.PendingAck>)
    ensures |set k | 0 <= k < |pending| :: pending[k].packetId as int| <= |pending|
  {
    var s := set k | 0 <= k < |pending| :: pending[k].packetId as int;
    if pending == [] {
      assert s == {};
    } else {
      var front, last := pending[..|pending| - 1], pending[|pending| - 1];
      PendingIdsFew(front);
      var s' := set k | 0 <= k < |front| :: front[k].packetId as int;
      forall x | x in s ensures x in s' + {last.packetId as int} {
        var k :| 0 <= k < |pending| && pending[k].packetId as int == x;
        if k < |front| { assert front[k] == pending[k]; }
      }
      IdAllocator.SubsetSize(s, s' + {last.packetId as int});
    }
  }

  lemma UsedIdsFew(o: seq<Slot>, pending: seq<Subscriptions.PendingAck>)
    ensures |UsedIds(o, pending)| <= |o| + |pending|
  {
    LiveIdsFew(o);
    PendingIdsFew(pending);
    var a := set i | 0 <= i < |o| && o[i].Live() :: o[i].packetId as int;
    var b := set k | 0 <= k < |pending| :: pending[k].packetId as int;
    assert |a + b| <= |a| + |b| by { IdAllocator.SubsetSize(a + b - a, b); assert a + b == a + (a + b - a); }
  }

  /** An id that is not in use is new to both tables. */
  lemma UnusedIsNew(o: seq<Slot>, m: map<u16, Entry>, pubs: seq<Publication>,
      pending: seq<Subscriptions.PendingAck>, id: u16)
    requires SlotsOk(o, m, pubs) && id as int !in UsedIds(o, pending)
    ensures id !in m && forall k :: 0 <= k < |pending| ==> pending[k].packetId != id
  {
    var live := set i | 0 <= i < |o| && o[i].Live() :: o[i].packetId as int;
    assert forall i :: 0 <= i < |o| && o[i].Live() ==> o[i].packetId as int in live;
    var waiting := set k | 0 <= k < |pending| :: pending[k].packetId as int;
    assert forall k :: 0 <= k < |pending| ==> pending[k].packetId as int in waiting;
  }

  //
  // Subscriptions
  //

  ghost predicate SubsOk(s: State, t: Subscriptions.Table, pending: seq<Subscriptions.PendingAck>,
      granted: set<u16>, c: Config)
  {
    && Subscriptions.TableOk(t, c.maxSubscriptions) && Subscriptions.GrantedOk(t, granted)
    && (if Established(s) then Subscriptions.Covered(t, pending, granted, [])
        else Subscriptions.AllFlagged(t) && pending == [])
  }

  //
  // Timers
  //

  /** PINGREQs are separated by PINGRESPs, and one is outstanding exactly when it came last. */
  ghost predicate PingsOk(pings: seq<Ping>, outstanding: bool, sentMs: u32, at: nat, now: nat)
  {
    && (outstanding <==> pings != [] && pings[|pings| - 1] == Request)
    && (forall i :: 0 < i < |pings| ==> !(pings[i - 1] == Request && pings[i] == Request))
    && (outstanding ==> at <= now && sentMs == at % CLOCK_RANGE)
  }

  /** Every live slot's stamp is the low 32 bits of the true time it was last queued. */
  ghost predicate StampsOk(o: seq<Slot>, stamps: map<u16, nat>, now: nat)
  {
    forall i :: 0 <= i < |o| && o[i].Live() ==>
      o[i].packetId in stamps && stamps[o[i].packetId] <= now && o[i].lastSentMs == stamps[o[i].packetId] % CLOCK_RANGE
  }

  ghost predicate GapsOk(gaps: seq<nat>, retry: u32) { forall i :: 0 <= i < |gaps| ==> gaps[i] >= retry }

  lemma PingsLater(pings: seq<Ping>, outstanding: bool, sentMs: u32, at: nat, now: nat, later: nat)
    requires PingsOk(pings, outstanding, sentMs, at, now) && now <= later
    ensures PingsOk(pings, outstanding, sentMs, at, later)
  {
  }

  lemma StampsLater(o: seq<Slot>, stamps: map<u16, nat>, now: nat, later: nat)
    requires StampsOk(o, stamps, now) && now <= later
    ensures StampsOk(o, stamps, later)
  {
  }
}
