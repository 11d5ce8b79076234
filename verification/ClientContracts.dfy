/** The vocabulary of the contracts in Client.dfy: what an operation does to a snapshot of the client
    or to its history, and how such statements combine. */
module ClientContracts {
  import opened Types
  import opened Packet
  import opened Codec
  import opened Encoder
  import opened Framing
  import opened Transport
  import opened ExactlyOnce
  import opened Inflight
  import opened Session
  import opened SessionSteps
  import Halves
  import Inbound
  import Outbound
  import Subscriptions
  import Topic

  const MAX_RECV_ROUNDS: nat := 8

  /** The arguments that connect() lets through to the encoder. */
  ghost predicate OptionsOk(c: Config, o: ConnectOptions)
  {
    && |o.clientId| <= c.maxClientIdLen && |o.username| <= c.maxUsernameLen && |o.password| <= c.maxPasswordLen
    && (o.will.Present() ==> Topic.ValidName(o.will.topic)) && (o.clientId == [] ==> o.cleanSession)
  }

  ghost predicate ConnectPacket(o: ConnectOptions)
  {
    Encodable(SendConnect(o)) && CompletePacket(Image(SendConnect(o))) && IsConnect(Image(SendConnect(o)))
  }

  /** What a clean session leaves of the one before. */
  function Cleaned(v: View, clean: bool): View { if clean then Discard(v) else v }

  lemma ClosedIs(v: View, reason: Error, interval: nat)
    ensures var w := Closed(v, reason, interval);
            && w == v.(state := Idle, rx := [], txp := [], pending := [], subs := Subscriptions.Flagged(v.subs),
                       pingOutstanding := false, log := w.log)
            && Quiet(v.log, w.log) && w.log.resting
  {
  }

  lemma EndedIs(v: View, reason: Error, interval: nat, clean: bool)
    ensures var w := Ended(v, reason, interval, clean);
            && w.state == Idle && w.log.connects == v.log.connects && w.subs == Subscriptions.Flagged(v.subs)
            && w.log.calls == v.log.calls && w.log.resting
            && if v.state == Idle then w.log.notices == v.log.notices && w.log.owed == v.log.owed
               else && Notified(v.log.notices, w.log.notices, reason, v.log.received, v.log.frames)
                    && w.log.owed == v.log.owed + [OnDisconnect(reason)]
  {
  }

  lemma ConnectPacketIs(o: ConnectOptions)
    requires ConnectArgsOk(o)
    ensures ConnectPacket(o) && |Image(SendConnect(o))| == PacketSize(ConnectLength(o))
  {
    var c := SendConnect(o);
    ConnectLengthIsBody(o);
    ConnectLengthBounded(o);
    hide ConnectChunks;
    PacketBytesLength(HeaderOf(c), BodyOf(c));
    ImageKind(c);
  }

  /** A QoS 1 or 2 publication was accepted: its packet is queued and a free slot stores it, under an
      id that was not in use. */
  ghost predicate Accepted(v: View, w: View, p: Publication)
  {
    && Publishable(p) && p.id !in v.log.inflight && v.now <= w.now
    && exists i: nat, s: Slot :: i < |v.outbound| && !v.outbound[i].Live() && s.Live() && Stores(s, p)
                      && w == Taken(Queued(v, PublishOf(p, false)).(now := w.now), i, s, p, w.now)
  }

  /** What publish() needs in order to accept: a session, a topic that is a valid name and short enough,
      and a packet that fits. */
  ghost predicate CanPublish(c: Config, v: View, topic: bytes, payloadLen: nat, qos: QoS)
  {
    v.state == Connected && Topic.ValidName(topic) && |topic| <= c.maxTopicLen
        && PublishFits(c, v, topic, payloadLen, qos)
  }

  /** The PUBLISH can be encoded and fits into the transmit queue; for QoS 1 and 2 there is a free slot,
      whose storage it fits as well. */
  ghost predicate PublishFits(c: Config, v: View, topic: bytes, payloadLen: nat, qos: QoS)
  {
    && PublishRemaining(topic, payloadLen, qos).Success?
    && var size := PacketSize(PublishRemaining(topic, payloadLen, qos).value);
       && |v.txp| + size <= c.txBufferSize
       && (qos != AT_MOST_ONCE ==> size <= c.maxPersistedMsgSize && SlotFree(v.outbound))
  }

  ghost predicate SlotFree(o: seq<Slot>) { exists i :: 0 <= i < |o| && !o[i].Live() }

  /** A SUBSCRIBE for these filters can be encoded and fits into the transmit queue. */
  ghost predicate SubscribeFits(c: Config, v: View, subs: seq<TopicSubscription>)
  {
    && subs != [] && SubsArgsOk(subs)
    && var n := 2 + |Flatten(SubscribeChunks(subs))|;
       n <= MAX_REMAINING_LENGTH && |v.txp| + PacketSize(n) <= c.txBufferSize
  }

  ghost predicate UnsubscribeFits(c: Config, v: View, filters: seq<bytes>)
  {
    && filters != [] && FiltersArgsOk(filters)
    && var n := 2 + |Flatten(UnsubscribeChunks(filters))|;
       n <= MAX_REMAINING_LENGTH && |v.txp| + PacketSize(n) <= c.txBufferSize
  }

  ghost predicate FiltersOk(c: Config, subs: seq<TopicSubscription>)
  {
    forall j :: 0 <= j < |subs| ==> Topic.ValidFilter(subs[j].filter) && |subs[j].filter| <= c.maxTopicLen
  }

  /** What subscribe() needs in order to accept. */
  ghost predicate CanSubscribe(c: Config, v: View, subs: seq<TopicSubscription>)
  {
    && v.state == Connected && 0 < |subs| <= c.maxTopicsPerRequest && FiltersOk(c, subs)
       && |v.pending| < c.maxPendingAcks
    && |v.subs| + Subscriptions.NewCount(v.subs, subs) <= c.maxSubscriptions && SubscribeFits(c, v, subs)
  }

  ghost predicate CanUnsubscribe(c: Config, v: View, filters: seq<bytes>)
  {
    && v.state == Connected && 0 < |filters| <= c.maxTopicsPerRequest && |v.pending| < c.maxPendingAcks
    && UnsubscribeFits(c, v, filters)
  }

  /** Some row waits, and the request for the first of those that do can be made now. */
  ghost predicate CanResubscribe(c: Config, v: View)
  {
    && |v.pending| < c.maxPendingAcks && Subscriptions.Waiting(v.subs) != []
    && SubscribeFits(c, v, Subscriptions.Asked(Subscriptions.NextBatch(v.subs, c.maxTopicsPerRequest)))
  }

  /** A publication's packet is a complete packet, and not a CONNECT. */
  lemma PublishComplete(p: Publication)
    requires Publishable(p)
    ensures CompletePacket(PublishOf(p, false)) && !IsConnect(PublishOf(p, false))
    ensures CompletePacket(PublishOf(p, true)) && !IsConnect(PublishOf(p, true))
  {
    PublishPacket(p, false);
    PublishPacket(p, true);
  }

  /** The slot that publish() fills in. */
  function NewSlot(p: Publication, packet: bytes, now: u32): Slot
  {
    Slot(if p.qos == AT_LEAST_ONCE then WaitPuback else WaitPubrec, p.id, packet, p.qos, now)
  }

  lemma NewSlotStores(p: Publication, now: u32)
    requires Publishable(p)
    ensures var s := NewSlot(p, PublishOf(p, false), now);
            s.Live() && Stores(s, p) && ValidPhase(p.qos, s.phase) && s.lastSentMs == now
  {
  }

  lemma AcceptedBy(v: View, w: View, p: Publication, i: nat, s: Slot)
    requires Publishable(p) && p.id !in v.log.inflight && v.now <= w.now && i < |v.outbound| && !v.outbound[i].Live()
    requires s.Live() && Stores(s, p) && w == Taken(Queued(v, PublishOf(p, false)).(now := w.now), i, s, p, w.now)
    ensures Accepted(v, w, p)
  {
  }

  lemma PublishPacket(p: Publication, dup: bool)
    requires Publishable(p)
    ensures CompletePacket(PublishOf(p, dup)) && !IsConnect(PublishOf(p, dup))
  {
    hide CompletePacket, IsConnect, Encodable, Image, PublishBytes;
    PublishImage(p.topic, p.payload, p.qos, p.retain, dup, p.id);
    ImageKind(SendPublish(p.topic, p.payload, p.qos, p.retain, dup, p.id));
  }

  /** What a live slot stores is a complete packet, and not a CONNECT. */
  lemma StoredPacket(s: Slot, p: Publication)
    requires s.Live() && Stores(s, p)
    ensures CompletePacket(s.packet) && !IsConnect(s.packet)
  {
    hide CompletePacket, IsConnect, AckBytes, PublishOf;
    PublishComplete(p);
    AckPacket(p.id);
  }

  lemma AckPacket(id: u16)
    requires id != 0
    ensures CompletePacket(AckBytes(Pubrel, id)) && !IsConnect(AckBytes(Pubrel, id))
  {
    hide CompletePacket, IsConnect, Encodable, Image, AckBytes;
    AckImage(Pubrel, id);
    ImageKind(Outgoing.SendAck(Pubrel, id));
  }

  lemma PublishImageLength(topic: bytes, payload: bytes, qos: QoS, retain: bool, dup: bool, id: u16)
    requires PublishArgsOk(topic, payload, qos, dup, id)
    ensures |PublishBytes(topic, payload, qos, retain, dup, id)| ==
            PacketSize(PublishRemaining(topic, |payload|, qos).value)
  {
    hide IsString;
    PublishRemainingIsBodyLength(topic, payload, qos, id);
    PacketBytesLength(PublishHeader(qos, retain, dup), PublishBody(topic, payload, qos, id));
  }

  lemma {:induction false} SubscribeImageLength(id: u16, subs: seq<TopicSubscription>)
    requires id != 0 && subs != [] && SubsArgsOk(subs) && 2 + |Flatten(SubscribeChunks(subs))| <= MAX_REMAINING_LENGTH
    ensures var o := SendSubscribe(id, subs);
            Encodable(o) && |Image(o)| == PacketSize(2 + |Flatten(SubscribeChunks(subs))|)
  {
    hide SubsArgsOk, SubscribeChunks, Flatten;
    ChunkLength(id, SubscribeChunks(subs));
    PacketBytesLength(HeaderOf(SendSubscribe(id, subs)), BodyOf(SendSubscribe(id, subs)));
  }

  /** Apart from the clock only the tables of subscriptions and requests changed; rows may be new. */
  ghost predicate SameBut(v: View, w: View)
  {
    w == v.(subs := w.subs, pending := w.pending, now := w.now,
        log := v.log.(rows := Additions(v.log.rows, v.subs, w.subs)))
  }

  /** The request `id` awaits its SUBACK, and names in wire order a row for each filter it asked for. */
  ghost predicate Registered(v: View, w: View, subs: seq<TopicSubscription>, id: u16, handler: bool)
  {
    && |w.pending| == |v.pending| + 1 && w.pending[..|v.pending|] == v.pending && SameBut(v, w)
    && var ack := w.pending[|v.pending|];
       && ack.packetId == id && ack.expected == Suback && |ack.subs| == |subs|
       && forall j :: 0 <= j < |subs| ==>
            Subscriptions.HasRow(w.subs, ack.subs[j], subs[j].filter,
                Subscriptions.LastQos(subs, subs[j].filter), handler)
  }

  lemma {:induction false} RegisteredBy(v: View, mid: View, w: View, subs: seq<TopicSubscription>,
      id: u16, handler: bool,
                     t: Subscriptions.Table, ids: seq<u16>, now: u32)
    requires mid == v.(now := mid.now) && |ids| == |subs|
    requires w == Requested(mid, t, Subscriptions.PendingAck(id, Suback, ids, now))
    requires forall j :: 0 <= j < |subs| ==>
               Subscriptions.HasRow(t, ids[j], subs[j].filter, Subscriptions.LastQos(subs, subs[j].filter), handler)
    ensures Registered(v, w, subs, id, handler)
  {
    hide Subscriptions.HasRow, Subscriptions.LastQos;
  }

  /** A request is awaited that was not before; nothing else but the subscription table changed. */
  ghost predicate Requests(v: View, w: View, id: u16, kind: PacketType, ids: seq<u16>)
  {
    && |w.pending| == |v.pending| + 1 && w.pending[..|v.pending|] == v.pending && SameBut(v, w)
    && var ack := w.pending[|v.pending|]; ack.packetId == id && ack.expected == kind && ack.subs == ids
  }

  /** The request `id` awaits its UNSUBACK and names the rows of its filters. */
  ghost predicate Awaited(v: View, w: View, filters: seq<bytes>, id: u16)
  {
    exists ids :: Requests(v, w, id, Unsuback, ids) && w.subs == v.subs
                  && (forall i :: 0 <= i < |v.subs| && v.subs[i].filter in filters ==> v.subs[i].subId in ids)
                  && (forall k :: 0 <= k < |ids| ==> Subscriptions.NamesRow(v.subs, ids[k], filters))
  }

  lemma AwaitedBy(v: View, w: View, filters: seq<bytes>, id: u16, t: Subscriptions.Table, ids: seq<u16>, now: u32)
    requires w == Requested(v.(now := w.now), t, Subscriptions.PendingAck(id, Unsuback, ids, now)) && t == v.subs
    requires forall i :: 0 <= i < |t| && t[i].filter in filters ==> t[i].subId in ids
    requires forall k :: 0 <= k < |ids| ==> Subscriptions.NamesRow(t, ids[k], filters)
    ensures Awaited(v, w, filters, id)
  {
    assert Requests(v, w, id, Unsuback, ids);
  }

  ghost predicate Unsubscribed(v: View, w: View, filters: seq<bytes>, id: u16)
  {
    && Encodable(SendUnsubscribe(id, filters)) && id !in v.log.inflight
    && Awaited(Queued(v, Image(SendUnsubscribe(id, filters))), w, filters, id)
  }

  lemma {:induction false} UnsubscribeImageLength(id: u16, filters: seq<bytes>)
    requires id != 0 && filters != [] && FiltersArgsOk(filters)
             && 2 + |Flatten(UnsubscribeChunks(filters))| <= MAX_REMAINING_LENGTH
    ensures var o := SendUnsubscribe(id, filters);
            Encodable(o) && |Image(o)| == PacketSize(2 + |Flatten(UnsubscribeChunks(filters))|)
  {
    hide FiltersArgsOk, UnsubscribeChunks, Flatten;
    ChunkLength(id, UnsubscribeChunks(filters));
    PacketBytesLength(HeaderOf(SendUnsubscribe(id, filters)), BodyOf(SendUnsubscribe(id, filters)));
  }

  /** One SUBSCRIBE was queued for the first rows that wait for one, which then no longer do; no other
      row changed, and unless the request was full no row waits any more. */
  ghost predicate Resubscribed(v: View, w: View, limit: nat)
  {
    var rows := Subscriptions.NextBatch(v.subs, limit);
    && 0 < |rows| <= limit
    && (exists id ::
          && Encodable(SendSubscribe(id, Subscriptions.Asked(rows)))
          && Requests(Queued(v, Image(SendSubscribe(id, Subscriptions.Asked(rows)))), w, id, Suback,
             Subscriptions.IdsOf(rows)))
    && Subscriptions.Unflagged(v.subs, w.subs, Subscriptions.IdsOf(rows))
    && (|rows| < limit ==> forall i :: 0 <= i < |w.subs| ==> !w.subs[i].needsResub)
  }

  lemma ResubscribedBy(v: View, w: View, id: u16, limit: nat)
    requires var rows := Subscriptions.NextBatch(v.subs, limit);
             && 0 < |rows| <= limit && Encodable(SendSubscribe(id, Subscriptions.Asked(rows)))
             && Requests(Queued(v, Image(SendSubscribe(id, Subscriptions.Asked(rows)))), w, id, Suback,
                Subscriptions.IdsOf(rows))
             && Subscriptions.Unflagged(v.subs, w.subs, Subscriptions.IdsOf(rows))
             && (|rows| < limit ==> forall i :: 0 <= i < |v.subs| && v.subs[i].needsResub ==>
                v.subs[i].subId in Subscriptions.IdsOf(rows))
    ensures Resubscribed(v, w, limit)
  {
    hide Encodable, Image, Subscriptions.NextBatch, Subscriptions.Asked, Subscriptions.IdsOf;
  }

  //
  // What packets do
  //

  /** What a packet may change apart from the session: the history and the tables of subscriptions
      and requests. */
  datatype Tables = Tables(log: Log, subs: Subscriptions.Table, pending: seq<Subscriptions.PendingAck>)

  /** No request under this id awaits that kind of acknowledgement. */
  ghost predicate Unknown(p: seq<Subscriptions.PendingAck>, id: u16, kind: PacketType)
  {
    forall j :: 0 <= j < |p| ==> !(p[j].packetId == id && p[j].expected == kind)
  }

  /** A request awaits this SUBACK, with as many rows as it has codes. */
  ghost predicate Expects(p: seq<Subscriptions.PendingAck>, v: SubackView)
  {
    exists k :: 0 <= k < |p| && p[k].packetId == v.packetId && p[k].expected == Suback && |p[k].subs| == |v.returnCodes|
  }

  /** The SUBACK of request k: it is retired, and its rows settled code by code. */
  function Settle(a: Tables, k: nat, codes: bytes): Tables
    requires k < |a.pending| && |a.pending[k].subs| == |codes|
  {
    var sids := a.pending[k].subs;
    var t := Subscriptions.Survivors(a.subs, sids, codes);
    Tables(a.log.(granted := Subscriptions.GrantedThen(t, a.log.granted, sids, codes),
                  rows := a.log.rows + Subscriptions.RefusedAll(Subscriptions.RefusedRows(a.subs, sids, codes))),
           t, a.pending[..k] + a.pending[k + 1..])
  }

  /** Exactly the request that the SUBACK names is retired, and its rows settled. */
  ghost predicate Settled(a: Tables, b: Tables, v: SubackView)
  {
    exists k ::
      && 0 <= k < |a.pending| && a.pending[k].packetId == v.packetId && a.pending[k].expected == Suback
      && |a.pending[k].subs| == |v.returnCodes| && b == Settle(a, k, v.returnCodes)
  }

  /** Two SUBACKs about different rows may come in either order: the same rows are left with the same
      grants, and the same requests; request k is one place further down when j has been retired. */
  lemma {:induction false} SubacksInEitherOrder(a: Tables, j: nat, k: nat, cj: bytes, ck: bytes, max: nat)
    requires j < k < |a.pending| && |a.pending[j].subs| == |cj| && |a.pending[k].subs| == |ck|
    requires Subscriptions.TableOk(a.subs, max) && Subscriptions.RowsOk(a.log.rows, a.subs)
    requires forall i, l :: 0 <= i < l < |a.pending| ==> a.pending[i].packetId != a.pending[l].packetId
    requires forall x :: x in a.pending[j].subs ==> x !in a.pending[k].subs
    ensures var p := a.pending[..j] + a.pending[j + 1..]; p[k - 1] == a.pending[k]
    ensures var p := a.pending[..k] + a.pending[k + 1..]; p[j] == a.pending[j]
    ensures var b, c := Settle(Settle(a, j, cj), k - 1, ck), Settle(Settle(a, k, ck), j, cj);
            && b.subs == c.subs && b.pending == c.pending && b.log.(rows := []) == c.log.(rows := [])
            && Subscriptions.Standing(b.log.rows) == Subscriptions.Standing(c.log.rows)
  {
    hide Subscriptions.Survivors, Subscriptions.GrantedThen, Subscriptions.RefusedRows, Subscriptions.Standing,
         Subscriptions.TableOk, Subscriptions.RowsOk;
    RetiredConfluent(a.pending, j, k);
    var sj, sk := a.pending[j].subs, a.pending[k].subs;
    var b, c := Settle(Settle(a, j, cj), k - 1, ck), Settle(Settle(a, k, ck), j, cj);
    Subscriptions.SurvivorsConfluent(a.subs, sj, cj, sk, ck, max);
    GrantsConfluent(a.subs, a.log.granted, sj, cj, sk, ck);
    SettledRows(a, j, cj, max);
    SettledRows(a, k, ck, max);
    SettledRows(Settle(a, j, cj), k - 1, ck, max);
    SettledRows(Settle(a, k, ck), j, cj, max);
    SameStanding(b.log.rows, c.log.rows, b.subs);
  }

  lemma SameStanding(h: seq<Subscriptions.Change>, h': seq<Subscriptions.Change>, t: Subscriptions.Table)
    requires Subscriptions.RowsOk(h, t) && Subscriptions.RowsOk(h', t)
    ensures Subscriptions.Standing(h) == Subscriptions.Standing(h')
  {
  }

  lemma {:induction false} SettledRows(a: Tables, k: nat, codes: bytes, max: nat)
    requires k < |a.pending| && |a.pending[k].subs| == |codes|
    requires Subscriptions.TableOk(a.subs, max) && Subscriptions.RowsOk(a.log.rows, a.subs)
    ensures var b := Settle(a, k, codes); Subscriptions.TableOk(b.subs, max) && Subscriptions.RowsOk(b.log.rows, b.subs)
  {
    hide Subscriptions.RowsOk;
    Subscriptions.DistinctOf(a.subs, max);
    Subscriptions.RowsSettled(a.log.rows, a.subs, a.pending[k].subs, codes);
    Subscriptions.SurvivorsOk(a.subs, a.pending[k].subs, codes, max);
  }

  lemma {:induction false} RetiredConfluent(p: seq<Subscriptions.PendingAck>, j: nat, k: nat)
    requires j < k < |p| && forall i, l :: 0 <= i < l < |p| ==> p[i].packetId != p[l].packetId
    ensures var q, r := p[..j] + p[j + 1..], p[..k] + p[k + 1..];
            q[k - 1] == p[k] && r[j] == p[j] && q[..k - 1] + q[k..] == r[..j] + r[j + 1..]
  {
    hide Subscriptions.Retire;
    var q, r := p[..j] + p[j + 1..], p[..k] + p[k + 1..];
    assert q[k - 1] == p[k] && r[j] == p[j];
    GapDistinct(p, j);
    GapDistinct(p, k);
    Subscriptions.RetireIsErase(p, j);
    Subscriptions.RetireIsErase(p, k);
    Subscriptions.RetireIsErase(q, k - 1);
    Subscriptions.RetireIsErase(r, j);
    Subscriptions.RetireCommutes(p, p[j].packetId, p[k].packetId);
  }

  lemma {:induction false} GapDistinct(p: seq<Subscriptions.PendingAck>, k: nat)
    requires k < |p| && forall i, l :: 0 <= i < l < |p| ==> p[i].packetId != p[l].packetId
    ensures var q := p[..k] + p[k + 1..]; forall i, l :: 0 <= i < l < |q| ==> q[i].packetId != q[l].packetId
  {
    var q := p[..k] + p[k + 1..];
    forall i, l | 0 <= i < l < |q| ensures q[i].packetId != q[l].packetId {
      assert q[i] == p[Subscriptions.Above(i, k)] && q[l] == p[Subscriptions.Above(l, k)];
    }
  }

  lemma {:induction false} GrantsConfluent(t: Subscriptions.Table, g: set<u16>, sj: seq<u16>, cj: bytes, sk: seq<u16>,
                                           ck: bytes)
    requires |sj| == |cj| && |sk| == |ck|
    requires Subscriptions.Survivors(Subscriptions.Survivors(t, sj, cj), sk, ck) ==
             Subscriptions.Survivors(Subscriptions.Survivors(t, sk, ck), sj, cj)
    ensures var tj, tk := Subscriptions.Survivors(t, sj, cj), Subscriptions.Survivors(t, sk, ck);
            var tjk := Subscriptions.Survivors(tj, sk, ck);
            Subscriptions.GrantedThen(tjk, Subscriptions.GrantedThen(tj, g, sj, cj), sk, ck) ==
            Subscriptions.GrantedThen(tjk, Subscriptions.GrantedThen(tk, g, sk, ck), sj, cj)
  {
    var tj, tk := Subscriptions.Survivors(t, sj, cj), Subscriptions.Survivors(t, sk, ck);
    Subscriptions.SurvivorIds(tj, sk, ck);
    Subscriptions.SurvivorIds(tk, sj, cj);
    hide Subscriptions.Survivors, Subscriptions.RowIds, Subscriptions.Grants;
  }

  /** The UNSUBACK of request k: it is retired, and the rows it names are gone. */
  function Drop(a: Tables, k: nat): Tables
    requires k < |a.pending|
  {
    var sids := a.pending[k].subs;
    var t := Subscriptions.Without(a.subs, sids);
    Tables(a.log.(granted := a.log.granted * Subscriptions.RowIds(t),
                  rows := a.log.rows + Subscriptions.UnsubscribedAll(Subscriptions.NamedRows(a.subs, sids))),
           t, a.pending[..k] + a.pending[k + 1..])
  }

  /** Exactly the request that the UNSUBACK names is retired, and the rows it names are gone. */
  ghost predicate Dropped(a: Tables, b: Tables, id: u16)
  {
    exists k :: 0 <= k < |a.pending| && a.pending[k].packetId == id
        && a.pending[k].expected == Unsuback && b == Drop(a, k)
  }

  /** Of the first n rows, those with a handler whose filter matches, as lists of levels. */
  ghost function Hits(rows: Subscriptions.Table, topic: bytes, n: nat): seq<nat>
    requires n <= |rows|
  {
    if n == 0 then []
    else Hits(rows, topic, n - 1) + if rows[n - 1].hasHandler
        && Topic.Matches(rows[n - 1].filter, topic) then [n - 1] else []
  }

  lemma {:induction false} HitsGrow(rows: Subscriptions.Table, topic: bytes, n: nat)
    requires n <= |rows|
    ensures Hits(rows, topic, n) <= Hits(rows, topic, |rows|)
    decreases |rows| - n
  {
    hide Topic.Matches;
    if n < |rows| {
      HitsGrow(rows, topic, n + 1);
      assert Hits(rows, topic, n) <= Hits(rows, topic, n + 1);
    }
  }

  lemma DecodedPublish(h: FixedHeader, body: bytes)
    ensures DecodePublish(h, body).Failure? ==>
              DecodePublish(h, body).error != Ok && DecodePublish(h, body).error != KeepAliveTimeout
    ensures DecodePublish(h, body).Success? ==>
              var m := DecodePublish(h, body).value; m.qos == h.qos && (m.qos != AT_MOST_ONCE ==> m.packetId != 0)
  {
    hide IsString;
  }

  lemma SubackErrors(body: bytes)
    ensures DecodeSuback(body).Failure? ==>
              DecodeSuback(body).error != Ok && DecodeSuback(body).error != KeepAliveTimeout
  {
  }

  lemma OtherErrors(body: bytes)
    ensures DecodeConnack(body).Failure? ==>
              DecodeConnack(body).error !in {KeepAliveTimeout, Ok, ConnectionRefused}
    ensures DecodePacketId(body).Failure? ==> DecodePacketId(body).error != KeepAliveTimeout
  {
  }

  lemma PeekedQos(s: bytes, cap: nat)
    requires LookAt(s, cap).Whole?
    ensures ValidQos(LookAt(s, cap).peek.header.qos)
  {
    hide DecodeVbi;
  }

  lemma PeekErrors(s: bytes)
    ensures PeekHeader(s).Failure? ==> PeekHeader(s).error == Incomplete || PeekHeader(s).error == MalformedPacket
  {
  }

  /** One packet of n bytes was handled: it left the buffer, or the session is over. */
  ghost predicate DrainedOne(a: Mark, b: Mark, n: nat, e: Error)
  {
    && e != KeepAliveTimeout && a.connects <= b.connects && a.notices <= b.notices && a.hardCloses <= b.hardCloses
    && if !SameSession(a, b) then Closes(a, b, e)
       else b.rxLen + n == a.rxLen && b.received == a.received && |b.frames| == |a.frames| + 1 && a.frames <= b.frames
            && Progress(a.state, b.state) && b.lastError == a.lastError && b.late == a.late
               && b.hardCloses == a.hardCloses
  }

  /** The packet at the front of a's buffer has been handled, which led to m: the bytes are still there,
      or the session is over. */
  lemma HandledOne(a: Mark, m: Mark, packet: bytes, e: Error)
    requires a.state != Idle && a.busy == 0 && 0 < |packet| <= a.rxLen && e != KeepAliveTimeout
    requires Kept(a.(frames := a.frames + [packet], busy := |packet|), m)
    ensures if m.rxLen < |packet| then
              && !SameSession(a, m) && m.rxLen == 0 && DrainedOne(a, m, |packet|, m.lastError)
            else
              && SameSession(a, m) && m.busy == |packet|
              && DrainedOne(a, m.(rxLen := m.rxLen - |packet|, busy := 0), |packet|, e)
  {
  }

  /** A handler ended the session; what is reported is the last error. */
  ghost predicate Closes(a: Mark, b: Mark, e: Error)
  {
    && Over(b) && e == (if b.state == Connecting then Ok else b.lastError)
    && (b.state == Idle && LastReason(b.notices) == Ok ==> a.hardCloses < b.hardCloses)
  }

  /** Some packets were handled; each took at least two bytes from the buffer. */
  ghost predicate Drained(a: Mark, b: Mark, e: Error)
  {
    && e != KeepAliveTimeout && a.connects <= b.connects && a.notices <= b.notices && a.hardCloses <= b.hardCloses
       && (a.rxLen == 0 ==> b == a && e == Ok)
    && if !SameSession(a, b) then Closes(a, b, e)
       else b.received == a.received && a.frames <= b.frames && 2 * (|b.frames| - |a.frames|) <= a.rxLen - b.rxLen
            && Progress(a.state, b.state) && b.lastError == a.lastError && b.late == a.late
               && b.hardCloses == a.hardCloses
  }

  lemma DrainedError(a: Mark, b: Mark, e: Error)
    requires Drained(a, b, e)
    ensures e != KeepAliveTimeout
  {
  }

  lemma IdleDrained(a: Mark, b: Mark, e: Error)
    requires Drained(a, b, e)
    ensures a.rxLen == 0 ==> b == a && e == Ok
  {
  }

  lemma DrainedNone(a: Mark)
    ensures SameSession(a, a) && Drained(a, a, Ok)
  {
  }

  lemma DrainedFrames(a: Mark, b: Mark, c: Mark, n: nat, e: Error)
    requires SameSession(a, b) && Drained(a, b, Ok) && DrainedOne(b, c, n, e)
    ensures SameSession(a, c) ==> |c.frames| > |a.frames|
    ensures !SameSession(a, c) ==> c.rxLen == 0
  {
  }

  lemma DrainedBad(a: Mark, b: Mark, e: Error)
    requires SameSession(a, b) && Drained(a, b, Ok) && b.rxLen > 0 && e != KeepAliveTimeout
    ensures Drained(a, b, e)
  {
  }

  lemma DrainedMore(a: Mark, b: Mark, c: Mark, n: nat, e: Error)
    requires SameSession(a, b) && Drained(a, b, Ok) && DrainedOne(b, c, n, e) && 2 <= n <= b.rxLen
    ensures Drained(a, c, e) && (SameSession(a, c) <==> SameSession(b, c))
  {
  }

  /** Bytes were received, or not. */
  ghost predicate Got(a: Mark, b: Mark, cap: nat)
  {
    b == a.(rxLen := b.rxLen, received := b.received) && a.received <= b.received && b.rxLen <= cap
        && (a.state == Idle ==> b == a)
  }

  lemma GotNone(a: Mark, cap: nat)
    ensures a.rxLen <= cap ==> Got(a, a, cap)
  {
  }

  /** How many packets r rounds can handle: each takes at least two bytes. */
  function Budget(r: nat, cap: nat): nat { r * (cap / 2) }

  lemma BudgetStep(r: nat, cap: nat)
    ensures Budget(r + 1, cap) == Budget(r, cap) + cap / 2
  {
  }

  lemma BudgetBound(r: nat, cap: nat)
    requires r <= MAX_RECV_ROUNDS
    ensures Budget(r, cap) <= Budget(MAX_RECV_ROUNDS, cap)
  {
  }

  /** r rounds have called recv() at most r times and handled at most cap / 2 packets each, whatever
      became of the session. */
  ghost predicate Bounded(a: Counts, b: Counts, r: nat, cap: nat)
  {
    && a.recvs <= b.recvs <= a.recvs + r && a.handled <= b.handled <= a.handled + Budget(r, cap)
    && a.deadReads <= b.deadReads && a.deadErrors <= b.deadErrors
  }

  lemma BoundedRound(a: Counts, b: Counts, c: Counts, r: nat, cap: nat)
    requires Bounded(a, b, r, cap) && b.recvs <= c.recvs <= b.recvs + 1 && b.handled <= c.handled
             && 2 * (c.handled - b.handled) <= cap
    requires b.deadReads <= c.deadReads && b.deadErrors <= c.deadErrors
    ensures Bounded(a, c, r + 1, cap)
  {
    BudgetStep(r, cap);
    hide Budget;
  }

  /** Why a round ended with an error: recv() failed, the bytes at the front cannot become a packet, a
      packet was refused, or a handler ended the session. */
  datatype Fault = NoFault | Receive | Malformed | Refusal | Close

  /** One round of pump_rx(): the states before and after, whether bytes came, and what it returned. */
  datatype Round = Round(start: State, more: bool, error: Error, fault: Fault, stop: State)

  predicate GoesOn(r: Round) { r.more && r.error == Ok && r.stop != Connecting }

  /** Each round starts where the one before stopped. */
  ghost predicate Chained(rounds: seq<Round>, first: State)
  {
    && (|rounds| > 0 ==> rounds[0].start == first)
    && forall i :: 0 < i < |rounds| ==> rounds[i].start == rounds[i - 1].stop
  }

  /** Rounds follow each other as long as bytes come, nothing fails and no session is being opened. */
  ghost predicate Following(rounds: seq<Round>, first: State, now: State)
  {
    && (forall i :: 0 <= i < |rounds| ==> GoesOn(rounds[i]))
    && (forall i :: 0 <= i < |rounds| ==> rounds[i].start != Idle) && Chained(rounds, first)
    && now == if |rounds| == 0 then first else rounds[|rounds| - 1].stop
  }

  /** All rounds of a call that returns e. */
  ghost predicate RoundsOk(rounds: seq<Round>, first: State, last: State, e: Error)
  {
    && 0 < |rounds| <= MAX_RECV_ROUNDS && Chained(rounds, first)
    && (forall i :: 0 <= i < |rounds| - 1 ==> GoesOn(rounds[i]))
    && (|rounds| < MAX_RECV_ROUNDS ==> !GoesOn(rounds[|rounds| - 1]))
    && rounds[|rounds| - 1].stop == last && rounds[|rounds| - 1].error == e
  }

  /** Bytes came, a handler closed the session with reason Ok, and a round was left. */
  ghost predicate ReadsClosed(rounds: seq<Round>)
  {
    exists i :: 0 <= i < |rounds| && i + 1 < MAX_RECV_ROUNDS && GoesOn(rounds[i]) && rounds[i].stop == Idle
  }

  lemma FollowingNext(rounds: seq<Round>, first: State, now: State, r: Round)
    requires Following(rounds, first, now) && r.start == now && now != Idle && GoesOn(r)
    ensures Following(rounds + [r], first, r.stop)
  {
    ChainedNext(rounds, first, now, r);
  }

  lemma ChainedNext(rounds: seq<Round>, first: State, now: State, r: Round)
    requires Following(rounds, first, now) && r.start == now
    ensures Chained(rounds + [r], first)
  {
    var all := rounds + [r];
    forall i | 0 < i < |all| ensures all[i].start == all[i - 1].stop {
      assert all[i - 1] == rounds[i - 1];
    }
  }

  lemma FollowingStops(rounds: seq<Round>, first: State, now: State, r: Round)
    requires Following(rounds, first, now) && r.start == now && !GoesOn(r)
             && |rounds| < MAX_RECV_ROUNDS && first != Idle
    ensures RoundsOk(rounds + [r], first, r.stop, r.error) && (ReadsClosed(rounds + [r]) <==> now == Idle)
  {
    var all := rounds + [r];
    ChainedNext(rounds, first, now, r);
    assert forall i :: 0 <= i < |rounds| ==> all[i] == rounds[i];
    if now == Idle {
      assert GoesOn(all[|rounds| - 1]) && all[|rounds| - 1].stop == Idle;
    } else {
      forall i | 0 <= i < |rounds| ensures all[i].stop != Idle { assert all[i + 1].start != Idle; }
    }
  }

  lemma FollowingEnds(rounds: seq<Round>, first: State, now: State)
    requires Following(rounds, first, now) && |rounds| == MAX_RECV_ROUNDS
    ensures RoundsOk(rounds, first, now, Ok) && !ReadsClosed(rounds)
  {
    forall i | 0 <= i < |rounds| && i + 1 < MAX_RECV_ROUNDS ensures rounds[i].stop != Idle {
      assert rounds[i + 1].start != Idle;
    }
  }

  /** Input was read and packets handled; or a handler ended the session. Then what is returned is the
      last error, unless recv() was called on the closed transport and failed. */
  ghost predicate Pumped(a: Mark, b: Mark, e: Error, failed: bool)
  {
    && a.connects <= b.connects && a.notices <= b.notices && a.hardCloses <= b.hardCloses
    && if !SameSession(a, b) then
         && Over(b) && (b.state == Idle && LastReason(b.notices) == Ok ==> a.hardCloses < b.hardCloses)
         && (b.state == Connecting ==> e == Ok && !failed)
         && (b.state == Idle ==> if failed then e != Ok && !b.late && LastReason(b.notices) == Ok else e == b.lastError)
       else
         && !failed && a.received <= b.received && a.frames <= b.frames
         && Progress(a.state, b.state) && b.lastError == a.lastError && b.hardCloses == a.hardCloses
  }

  /** Between rounds: the session is under way, or it ended with reason Ok. */
  ghost predicate Pumping(a: Mark, b: Mark)
  {
    Pumped(a, b, Ok, false) && (!SameSession(a, b) ==> b.state == Idle)
  }

  /** One round from b to d; `c` is where it stood between receiving and handling. A round that starts
      without a session reads the closed transport, gets nothing, and is the last. */
  ghost predicate RoundOk(b: Mark, was: Counts, c: Mark, d: Mark, now: Counts, e: Error, more: bool, fault: Fault,
                          cap: nat)
  {
    && Got(b, c, cap) && e != KeepAliveTimeout
    && (if fault == Receive then d == b && e != Ok && e != WouldBlock && !more else Drained(c, d, e))
    && (fault == NoFault <==> e == Ok) && (b.state == Idle ==> !more && d == b)
    && (fault == Malformed ==> SameSession(c, d)) && (fault == Close ==> !SameSession(c, d))
    && (fault == Refusal ==> SameSession(c, d) && |d.frames| > |b.frames|)
    && was.recvs <= now.recvs <= was.recvs + 1 && was.handled <= now.handled && 2 * (now.handled - was.handled) <= cap
    && now.deadReads == was.deadReads + (if b.state == Idle then 1 else 0)
    && now.deadErrors == was.deadErrors + (if b.state == Idle && fault == Receive then 1 else 0)
  }

  lemma RoundFailed(b: Mark, was: Counts, now: Counts, e: Error, cap: nat)
    requires b.rxLen <= cap && now == Reads(was, b.state != Idle, e) && e != Ok && e != WouldBlock
             && e != KeepAliveTimeout
    ensures RoundOk(b, was, b, b, now, e, false, Receive, cap)
  {
  }

  /** recv() was called, or not for lack of room, and then what is complete was handled. */
  lemma RoundDrained(b: Mark, was: Counts, c: Mark, mid: Counts, d: Mark, now: Counts, e: Error, more: bool,
                     fault: Fault, cap: nat)
    requires Got(b, c, cap) && Drained(c, d, e) && (b.state == Idle ==> !more && b.rxLen == 0)
    requires (mid == was && b.state != Idle) || mid == Reads(was, b.state != Idle, Ok)
    requires now == mid.(handled := now.handled, hardCloses := now.hardCloses)
    requires 0 <= 2 * (now.handled - mid.handled) <= c.rxLen
    requires fault != Receive && (fault == NoFault <==> e == Ok)
    requires (fault == Malformed ==> SameSession(c, d)) && (fault == Close ==> !SameSession(c, d))
    requires fault == Refusal ==> SameSession(c, d) && |d.frames| > |c.frames|
    ensures RoundOk(b, was, c, d, now, e, more, fault, cap)
  {
    hide SameSession;
    IdleDrained(c, d, e);
    DrainedError(c, d, e);
    hide Drained;
  }

  lemma RoundFault(b: Mark, was: Counts, c: Mark, d: Mark, now: Counts, e: Error, more: bool, fault: Fault, cap: nat)
    requires RoundOk(b, was, c, d, now, e, more, fault, cap)
    ensures fault == NoFault <==> e == Ok
  {
  }

  /** Between rounds. */
  ghost predicate PumpMid(a: Mark, was: Counts, b: Mark, now: Counts, rounds: seq<Round>, cap: nat)
  {
    && Pumping(a, b) && Following(rounds, a.state, b.state) && Bounded(was, now, |rounds|, cap)
    && now.deadReads == was.deadReads && now.deadErrors == was.deadErrors
    && (|rounds| > 0 ==> rounds[|rounds| - 1].fault == NoFault)
  }

  /** What pump_rx() did. A session that is still the same has failed because recv() did, because of
      bytes that cannot become a packet, or because a packet was refused. */
  ghost predicate PumpDone(a: Mark, was: Counts, b: Mark, now: Counts, e: Error, rounds: seq<Round>, cap: nat)
  {
    && Pumped(a, b, e, now.deadErrors > was.deadErrors) && e != KeepAliveTimeout
    && RoundsOk(rounds, a.state, b.state, e) && Bounded(was, now, |rounds|, cap)
    && now.deadReads == was.deadReads + (if ReadsClosed(rounds) then 1 else 0)
    && (ReadsClosed(rounds) ==> a.hardCloses < b.hardCloses)
    && (Garbled(rounds) ==> SameSession(a, b) && e != Ok)
    && (SameSession(a, b) && e != Ok && !Garbled(rounds) ==>
          rounds[|rounds| - 1].fault == Receive || |b.frames| > |a.frames|)
  }

  lemma PumpStarts(a: Mark, counts: Counts, cap: nat)
    ensures PumpMid(a, counts, a, counts, [], cap)
  {
  }

  lemma PumpStep(a: Mark, was: Counts, b: Mark, then': Counts, c: Mark, d: Mark, now: Counts, e: Error, more: bool,
                 fault: Fault, rounds: seq<Round>, cap: nat)
    requires Online(a.state) && PumpMid(a, was, b, then', rounds, cap) && |rounds| < MAX_RECV_ROUNDS
    requires RoundOk(b, then', c, d, now, e, more, fault, cap)
    ensures var all := rounds + [Round(b.state, more, e, fault, d.state)];
            if more && e == Ok && d.state != Connecting then PumpMid(a, was, d, now, all, cap)
            else PumpDone(a, was, d, now, e, all, cap)
    ensures SameSession(a, d) && fault != Receive ==> SameSession(c, d)
  {
    hide Budget, Drained, Got, Pumped, Pumping, Following, RoundsOk, ReadsClosed, Bounded, SameSession;
    var r := Round(b.state, more, e, fault, d.state);
    PumpRound(a, b, c, d, e, fault == Receive, cap);
    BoundedRound(was, then', now, |rounds|, cap);
    if GoesOn(r) {
      FollowingNext(rounds, a.state, b.state, r);
    } else {
      FollowingStops(rounds, a.state, b.state, r);
    }
  }

  lemma PumpEnds(a: Mark, was: Counts, b: Mark, now: Counts, rounds: seq<Round>, cap: nat)
    requires PumpMid(a, was, b, now, rounds, cap) && |rounds| == MAX_RECV_ROUNDS
    ensures PumpDone(a, was, b, now, Ok, rounds, cap)
  {
    hide Following, RoundsOk, ReadsClosed, Bounded;
    FollowingEnds(rounds, a.state, b.state);
  }

  lemma PumpNext(a: Mark, was: Counts, b: Mark, now: Counts, rounds: seq<Round>, cap: nat)
    requires Online(a.state) && PumpMid(a, was, b, now, rounds, cap)
    ensures Online(b.state) || (b.state == Idle && b.lastError == Ok)
  {
  }

  /** A round from b: `failed` if recv() failed, otherwise c is where it stood when it started to drain. */
  lemma PumpRound(a: Mark, b: Mark, c: Mark, d: Mark, e: Error, failed: bool, cap: nat)
    requires Online(a.state) && Pumping(a, b) && Got(b, c, cap)
             && (if failed then d == b && e != Ok else Drained(c, d, e))
    ensures Pumped(a, d, e, failed && b.state == Idle)
    ensures e == Ok && d.state != Connecting ==> Pumping(a, d)
    ensures SameSession(a, d) ==> SameSession(a, b) && (|d.frames| > |b.frames| ==> |d.frames| > |a.frames|)
    ensures SameSession(a, d) && !failed ==> SameSession(c, d)
    ensures b.state != Idle && SameSession(c, d) ==> SameSession(a, d)
    ensures b.state == Idle ==> a.hardCloses < b.hardCloses
    ensures b.state == Idle && !failed ==> e == Ok
  {
  }

  lemma PumpTurn(a: Mark, was: Counts, b: Mark, now: Counts, e: Error, rounds: seq<Round>, cap: nat)
    requires PumpDone(a, was, b, now, e, rounds, cap)
    ensures 0 < |rounds| <= MAX_RECV_ROUNDS && Bounded(was, now, MAX_RECV_ROUNDS, cap)
    ensures Pumped(a, b, e, now.deadErrors > was.deadErrors)
    ensures now.deadReads == was.deadReads + (if ReadsClosed(rounds) then 1 else 0)
    ensures ReadsClosed(rounds) ==> a.hardCloses < b.hardCloses
    ensures Garbled(rounds) ==> SameSession(a, b) && e != Ok
    ensures e != KeepAliveTimeout
  {
    BudgetBound(|rounds|, cap);
    hide Budget;
  }

  /** The mark is taken from this log. */
  predicate At(m: Mark, log: Log)
  {
    && m.connects == log.connects && m.notices == log.notices && m.received == log.received && m.frames == log.frames
    && m.late == log.late && m.hardCloses == log.counts.hardCloses
  }

  lemma SameMark(m: Mark)
    requires m.rxLen == 0 && m.busy == 0
    ensures m.(rxLen := 0, busy := 0) == m
  {
  }

  lemma TurnFine(a: Mark, la: Log, b: Mark, lb: Log, rounds: seq<Round>, cap: nat)
    requires At(a, la) && At(b, lb) && Online(a.state) && (b.state != Idle ==> !b.late)
    requires PumpDone(a, la.counts, b, lb.counts, Ok, rounds, cap)
    ensures rounds != [] && TurnOk(la, lb, Ok, rounds, cap)
    ensures StepOk(a, b, Ok, lb.counts.deadErrors > la.counts.deadErrors)
  {
    PumpTurn(a, la.counts, b, lb.counts, Ok, rounds, cap);
    hide PumpDone, ReadsClosed, Bounded, Garbled, Over, Progress;
    PumpedFine(a, b);
  }

  /** pump_rx() failed, which led from b to c. */
  lemma {:induction false} TurnFailed(a: Mark, la: Log, b: Mark, lb: Log, c: Mark, lc: Log, e: Error,
      rounds: seq<Round>, cap: nat)
    requires At(a, la) && At(b, lb) && At(c, lc) && Online(a.state) && Quiet(lb, lc) && e != Ok
    requires PumpDone(a, la.counts, b, lb.counts, e, rounds, cap)
    requires Garbled(rounds) ==> Parse(lb.received, cap) == Parsed(lb.frames, Broken(e))
    requires a.connects == |a.notices| + 1 && (b.state == Idle ==> b.connects == |b.notices|)
    requires if b.state != Idle then Ends(b, c, e) && !c.late
             else c == b.(lastError := e, busy := 0, received := c.received, frames := c.frames, rxLen := 0)
    ensures rounds != [] && TurnOk(la, lc, e, rounds, cap)
    ensures StepOk(a, c, e, lc.counts.deadErrors > la.counts.deadErrors)
  {
    hide PumpDone, ReadsClosed, Bounded, Garbled, Parse, Quiet, Over, Pumped, StepOk;
    PumpTurn(a, la.counts, b, lb.counts, e, rounds, cap);
    QuietSince(lb, lc);
    BoundedSame(la.counts, lb.counts, lc.counts, MAX_RECV_ROUNDS, cap);
    PumpedEnds(a, b, c, e, lb.counts.deadErrors > la.counts.deadErrors);
  }

  lemma BoundedSame(a: Counts, b: Counts, c: Counts, r: nat, cap: nat)
    requires Bounded(a, b, r, cap) && SameReads(b, c)
    ensures Bounded(a, c, r, cap)
  {
  }

  lemma PumpedFine(a: Mark, b: Mark)
    requires Pumped(a, b, Ok, false) && a.state != Idle && (b.state != Idle ==> !b.late)
    ensures StepOk(a, b, Ok, false)
  {
  }

  /** shutdown() with the error of pump_rx(). */
  lemma PumpedEnds(a: Mark, b: Mark, c: Mark, e: Error, failed: bool)
    requires Online(a.state) && Pumped(a, b, e, failed) && e != Ok
    requires a.connects == |a.notices| + 1 && (b.state == Idle ==> b.connects == |b.notices|)
    requires if b.state != Idle then Ends(b, c, e) && !c.late
             else c == b.(lastError := e, busy := 0, received := c.received, frames := c.frames, rxLen := 0)
    ensures StepOk(a, c, e, failed)
  {
  }

  lemma WireKeeps(a: seq<bytes>, b: seq<bytes>, n: nat)
    requires a <= b && n <= |a|
    ensures forall x :: x in a[n..] ==> x in b[n..]
    ensures |b| > |a| ==> b[|b| - 1] in b[n..]
  {
    assert b[n..] == a[n..] + b[|a|..];
    if |b| > |a| { assert b[n..][|b| - 1 - n] == b[|b| - 1]; }
  }

  /** The slot's packet is to be repeated. */
  predicate Due(s: Slot, now: u32, forced: bool, retry: u32)
  {
    s.Live() && (forced || (retry != 0 && ElapsedMs(now, s.lastSentMs) >= retry))
  }

  /** The packet is what a slot that was due stores now. */
  ghost predicate RepeatOf(before: seq<Slot>, after: seq<Slot>, packet: bytes, now: u32, forced: bool, retry: u32)
    requires |before| == |after|
  {
    exists i :: 0 <= i < |before| && Due(before[i], now, forced, retry) && after[i].packet == packet
  }

  lemma RepeatNext(o0: seq<Slot>, o: seq<Slot>, o': seq<Slot>, i: nat, wire: seq<bytes>, wire': seq<bytes>, w: nat,
                   now: u32, forced: bool, retry: u32)
    requires i < |o0| == |o| == |o'| && o' == o[i := o'[i]] && w <= |wire|
    requires forall k :: w <= k < |wire| ==> RepeatOf(o0[..i], o[..i], wire[k], now, forced, retry)
    requires wire' == wire || (wire' == wire + [o'[i].packet] && Due(o0[i], now, forced, retry))
    ensures forall k :: w <= k < |wire'| ==> RepeatOf(o0[..i + 1], o'[..i + 1], wire'[k], now, forced, retry)
  {
    hide Due;
    forall k | w <= k < |wire'| ensures RepeatOf(o0[..i + 1], o'[..i + 1], wire'[k], now, forced, retry) {
      if k < |wire| {
        assert RepeatOf(o0[..i], o[..i], wire[k], now, forced, retry);
        var j :| 0 <= j < |o0[..i]| && Due(o0[..i][j], now, forced, retry) && o[..i][j].packet == wire[k];
        assert o0[..i + 1][j] == o0[..i][j] && o'[..i + 1][j] == o[..i][j];
      } else {
        assert o0[..i + 1][i] == o0[i] && o'[..i + 1][i] == o'[i];
      }
    }
  }

  /** A packet was queued in answer to one received. */
  function Replied(a: Log, packet: bytes, e: Inbound.Event): Log
  {
    a.(wire := a.wire + [packet], inbound := a.inbound + [e])
  }

  /** What a PUBLISH does before any handler runs: the receiver's half of the protocol. */
  ghost predicate Acknowledged(a: Log, b: Log, m: Message, cap: nat, room: bool, deliver: bool)
  {
    var t, id := Inbound.Tracked(a.inbound), m.packetId;
    if m.qos == AT_MOST_ONCE then deliver && b == a
    else if m.qos == AT_LEAST_ONCE then
      && deliver == ReceiverDispatches(t, cap, Pub1(id, 0), room)
      && b == if deliver then Replied(a, AckBytes(Puback, id), Inbound.AckQueued(id)) else a
    else
      && deliver == ReceiverDispatches(t, cap, Pub2(id, 0), room)
      && Inbound.Tracked(b.inbound) == ReceiverTracks(t, cap, Pub2(id, 0), room)
      && b == if deliver then Replied(a, AckBytes(Pubrec, id), Inbound.RecQueued(id))
              else if room && id in t then Replied(a, AckBytes(Pubrec, id), Inbound.RecRepeated(id))
              else a
  }

  function AnswerBytes(p: Backward): bytes
  {
    match p
    case Ack(id) => AckBytes(Puback, id)
    case Rec(id) => AckBytes(Pubrec, id)
    case Comp(id) => AckBytes(Pubcomp, id)
  }

  /** What the receiver's half of the protocol makes of a packet: its answer is queued, and what
      happens at that end is recorded. */
  function Receipt(a: Log, p: Forward, cap: nat, room: bool): Log
  {
    var t := Inbound.Tracked(a.inbound);
    var answer := ReceiverAnswers(t, cap, p, room);
    a.(wire := if answer.Some? then a.wire + [AnswerBytes(answer.value)] else a.wire,
       inbound := a.inbound + Halves.ArrivalEvents(t, cap, p, room))
  }

  /** A PUBLISH as the protocol sees it. */
  function Arrival(m: Message): Forward { if m.qos == AT_LEAST_ONCE then Pub1(m.packetId, 0) else Pub2(m.packetId, 0) }

  /** The history when a message has been acknowledged and its dispatch recorded, if it is dispatched. */
  function Arrived(a: Log, m: Message, cap: nat, room: bool): Log
  {
    if m.qos == AT_MOST_ONCE then Dispatches(a, m) else Receipt(a, Arrival(m), cap, room)
  }

  function Dispatches(a: Log, m: Message): Log { a.(inbound := a.inbound + [Inbound.Dispatched(m.qos, m.packetId)]) }

  /** Acknowledging and then dispatching exactly what is to be delivered is the protocol's step. */
  lemma ArrivalIsReceipt(a: Log, mid: Log, m: Message, cap: nat, room: bool, deliver: bool)
    requires ValidQos(m.qos) && Acknowledged(a, mid, m, cap, room, deliver)
    ensures Arrived(a, m, cap, room) == (if deliver then Dispatches(mid, m) else mid)
    ensures deliver == Delivers(a, m, cap, room)
  {
    hide AckBytes, Inbound.Tracked;
    var t := Inbound.Tracked(a.inbound);
    if m.qos != AT_MOST_ONCE {
      var events := Halves.ArrivalEvents(t, cap, Arrival(m), room);
      if events == [] {
        assert a.inbound + events == a.inbound;
      } else if |events| == 2 {
        assert a.inbound + events == a.inbound + [events[0]] + [events[1]];
      }
    }
  }

  /** on_delivery is called exactly if a publication completes. */
  function Reported(a: Log, p: Backward): seq<Call>
  {
    var done := SenderCompletes(a.inflight, p);
    if done.Some? then a.calls + [OnDelivery(done.value, p.id)] else a.calls
  }

  /** What the sender's half of the protocol makes of an acknowledgement. */
  ghost predicate Acks(a: Log, b: Log, p: Backward, room: bool)
  {
    && b == a.(inflight := SenderSlots(a.inflight, p), completed := Push(a.completed, SenderCompletes(a.inflight, p)),
               calls := Reported(a, p), out := b.out, wire := b.wire, fates := b.fates, stamps := b.stamps)
    && if SenderAnswers(a.inflight, p, room) then
         && b.wire == a.wire + [AckBytes(Pubrel, p.id)]
         && b.out == a.out + [Outbound.Got(p)] + [Outbound.Issued(p.id, AckBytes(Pubrel, p.id))]
       else b.wire == a.wire && b.out == a.out + [Outbound.Got(p)]
  }

  /** What the packets that carry only an id do. */
  ghost predicate IdHandled(kind: PacketType, a: Tables, b: Tables, id: u16, cap: nat, room: bool)
  {
    match kind
    case Puback => Acks(a.log, b.log, Ack(id), room) && b == a.(log := b.log)
    case Pubrec => Acks(a.log, b.log, Rec(id), room) && b == a.(log := b.log)
    case Pubcomp => Acks(a.log, b.log, Comp(id), room) && b == a.(log := b.log)
    case Pubrel => b == a.(log := Receipt(a.log, Rel(id), cap, room))
    case Unsuback => if Unknown(a.pending, id, Unsuback) then b == a else Dropped(a, b, id)
    case _ => false
  }

  /** on_suback is called exactly if the SUBACK answers a request. */
  ghost predicate SubackHandled(a: Tables, b: Tables, v: SubackView)
  {
    if Unknown(a.pending, v.packetId, Suback) then b == a
    else exists c :: Settled(a, c, v) && b == c.(log := Called(c.log, OnSuback(v.packetId, v.returnCodes)))
  }

  predicate Delivers(a: Log, m: Message, cap: nat, room: bool)
  {
    m.qos == AT_MOST_ONCE || ReceiverDispatches(Inbound.Tracked(a.inbound), cap, Arrival(m), room)
  }

  /** The calls of the handlers of the rows at these places. */
  predicate Inside(places: seq<nat>, n: nat) { forall k :: 0 <= k < |places| ==> places[k] < n }

  function Hearings(rows: Subscriptions.Table, places: seq<nat>, m: Message): seq<Hearing>
    requires Inside(places, |rows|)
  {
    seq(|places|, k requires 0 <= k < |places| => Hearing(Some(rows[places[k]].subId), m))
  }

  lemma HitsStart(rows: Subscriptions.Table, topic: bytes)
    ensures Hits(rows, topic, 0) == []
  {
  }

  /** Row i is one more of the rows that match, and one more that hears the message, if it matches. */
  lemma HitsNext(rows: Subscriptions.Table, places: seq<nat>, i: nat, m: Message, before: seq<Hearing>)
    requires i < |rows| && places == Hits(rows, m.topic, i) && Inside(places, |rows|)
    ensures Inside(places + [i], |rows|)
    ensures Hits(rows, m.topic, i + 1) <= Hits(rows, m.topic, |rows|)
    ensures Hits(rows, m.topic, i + 1)
            == if rows[i].hasHandler && Topic.Matches(rows[i].filter, m.topic) then places + [i] else places
    ensures before + Hearings(rows, places + [i], m)
            == before + Hearings(rows, places, m) + [Hearing(Some(rows[i].subId), m)]
  {
    hide Topic.Matches, Hearings;
    HitsGrow(rows, m.topic, i + 1);
    HearingsMore(rows, places, i, m, before);
  }

  lemma HearingsMore(rows: Subscriptions.Table, places: seq<nat>, i: nat, m: Message, before: seq<Hearing>)
    requires i < |rows| && Inside(places, |rows|)
    ensures Inside(places + [i], |rows|)
    ensures before + Hearings(rows, places + [i], m)
            == before + Hearings(rows, places, m) + [Hearing(Some(rows[i].subId), m)]
  {
    assert Hearings(rows, places + [i], m) == Hearings(rows, places, m) + [Hearing(Some(rows[i].subId), m)];
  }

  lemma HearingsNone(rows: Subscriptions.Table, m: Message, before: seq<Hearing>)
    ensures Inside([], |rows|) && before + Hearings(rows, [], m) == before
  {
  }

  lemma {:induction false} HitsInside(rows: Subscriptions.Table, topic: bytes, n: nat)
    requires n <= |rows|
    ensures forall k :: 0 <= k < |Hits(rows, topic, n)| ==> Hits(rows, topic, n)[k] < n
  {
    hide Topic.Matches;
    if n > 0 { HitsInside(rows, topic, n - 1); }
  }

  /** Who hears a message: the handler of every row that matches, in table order, or else the fallback. */
  ghost function Audience(rows: Subscriptions.Table, m: Message): seq<Hearing>
  {
    HitsInside(rows, m.topic, |rows|);
    var hits := Hits(rows, m.topic, |rows|);
    if hits == [] then [Hearing(None, m)] else Hearings(rows, hits, m)
  }

  /** A message that is dispatched is heard by its audience, up to a handler that ends the session. */
  ghost predicate HeardBy(rows: Subscriptions.Table, before: seq<Hearing>, after: seq<Hearing>,
      m: Message, dispatched: bool)
  {
    if dispatched then before < after && after[|before|..] <= Audience(rows, m) else after == before
  }

  ghost predicate PublishHandled(a: Tables, b: Tables, m: Message, cap: nat, room: bool)
  {
    && b == a.(log := Arrived(a.log, m, cap, room).(heard := b.log.heard))
    && HeardBy(a.subs, a.log.heard, b.log.heard, m, Delivers(a.log, m, cap, room))
  }

  /** The session is established, and on_connect called. */
  function Connects(a: Log, info: ConnackInfo): Log { Called(a.(path := a.path + [Connected]), OnConnect(info)) }

  /** What each kind of packet does, when it is accepted, up to the call of a handler. */
  ghost predicate PacketHandled(a: Tables, b: Tables, h: FixedHeader, body: bytes, cap: nat, room: bool)
  {
    match h.kind
    case Publish => DecodePublish(h, body).Success? && PublishHandled(a, b, DecodePublish(h, body).value, cap, room)
    case Connack => ConnackAccepts(body) && b == a.(log := Connects(a.log, DecodeConnack(body).value))
    case Pingresp => body == [] && b == a.(log := a.log.(pings := a.log.pings + [Response]))
    case Suback => DecodeSuback(body).Success? && SubackHandled(a, b, DecodeSuback(body).value)
    case _ => DecodePacketId(body).Success? && IdHandled(h.kind, a, b, DecodePacketId(body).value, cap, room)
  }

  /** The session that was under way ended with reason e; a handler may have asked for another. */
  ghost predicate Ends(a: Mark, b: Mark, e: Error)
  {
    Notified(a.notices, b.notices, e, a.received, a.frames) && a.connects <= b.connects
        && b.hardCloses == a.hardCloses
  }

  /** disconnect() closed the session at once, and then the application called abort() as well. */
  predicate AbortedLate(m: Mark) { m.late && LastReason(m.notices) == Ok }

  /** What step() reports: Ok, or an error that comes with the end of a session. It is the reason that
      was notified, except exactly when the session was closed by a disconnect() that could not queue
      its packet, and then recv() was called on the closed transport and failed (`failed`), or the
      application called abort() as well. */
  ghost predicate StepOk(a: Mark, b: Mark, e: Error, failed: bool)
  {
    && a.notices <= b.notices && a.connects <= b.connects && a.hardCloses <= b.hardCloses
    && (e != Ok ==> |a.notices| < |b.notices|)
    && (e != Ok && LastReason(b.notices) != e <==> failed || (a.state != Idle && AbortedLate(b)))
    && (failed || (a.state != Idle && AbortedLate(b)) ==> a.hardCloses < b.hardCloses)
  }

  lemma StepOkRefl(a: Mark)
    requires a.state != Idle ==> !a.late
    ensures StepOk(a, a, Ok, false)
  {
  }

  lemma StepOkMoved(a: Mark, b: Mark)
    requires b == a.(state := b.state) && !a.late
    ensures StepOk(a, b, Ok, false)
  {
  }

  /** A session that ended, for whatever reason the client had. */
  lemma StepOkEnded(a: Mark, b: Mark, e: Error)
    requires a.state != Idle && Ends(a, b, e) && !b.late
    ensures StepOk(a, b, e, false)
  {
  }

  lemma StepOkTrans(a: Mark, b: Mark, c: Mark, e: Error, failed: bool)
    requires a.state != Idle && StepOk(a, b, Ok, false) && StepOk(b, c, e, failed)
             && (b.state == Idle ==> c == b && e == Ok)
    ensures StepOk(a, c, e, failed)
  {
  }

  /** The round that failed found bytes that cannot become a packet. */
  predicate Garbled(rounds: seq<Round>) { rounds != [] && rounds[|rounds| - 1].fault == Malformed }

  /** What was received in the session that ended last cannot be cut into packets: those it handled are
      followed by bytes that cannot become one, and that is the reason it ended with. */
  ghost predicate BrokenInput(notices: seq<Notice>, e: Error, cap: nat)
  {
    && notices != []
    && var n := notices[|notices| - 1]; n.reason == e && Parse(n.received, cap) == Parsed(n.frames, Broken(e))
  }

  /** What step() reads: at most MAX_RECV_ROUNDS recv() calls and cap / 2 packets for each, whatever
      became of the session; a closed transport exactly if a handler closed the session with reason Ok,
      bytes had come and a round was left; and input that is not MQTT ends the session as such. */
  ghost predicate TurnOk(a: Log, b: Log, e: Error, rounds: seq<Round>, cap: nat)
  {
    && |rounds| <= MAX_RECV_ROUNDS && Bounded(a.counts, b.counts, MAX_RECV_ROUNDS, cap)
    && b.counts.deadReads == a.counts.deadReads + (if ReadsClosed(rounds) then 1 else 0)
    && (ReadsClosed(rounds) ==> a.counts.hardCloses < b.counts.hardCloses)
    && (Garbled(rounds) ==> e != Ok && BrokenInput(b.notices, e, cap))
  }

  lemma TurnNone(a: Log, b: Log, e: Error, cap: nat)
    requires Quiet(a, b)
    ensures TurnOk(a, b, e, [], cap)
  {
  }

  lemma TurnBefore(a: Log, b: Log, c: Log, e: Error, rounds: seq<Round>, cap: nat)
    requires Quiet(a, b) && TurnOk(b, c, e, rounds, cap)
    ensures TurnOk(a, c, e, rounds, cap)
  {
    hide BrokenInput, ReadsClosed, Garbled;
  }

  lemma TurnAfter(a: Log, b: Log, c: Log, e: Error, rounds: seq<Round>, cap: nat)
    requires TurnOk(a, b, Ok, rounds, cap) && Quiet(b, c)
    ensures TurnOk(a, c, e, rounds, cap)
  {
    hide BrokenInput, ReadsClosed, Garbled;
  }

  /** Without a disconnect() that closed at once, both promises hold. */
  lemma WithoutHardClose(a: Mark, b: Mark, la: Log, lb: Log, e: Error, failed: bool, rounds: seq<Round>, cap: nat)
    requires StepOk(a, b, e, failed) && TurnOk(la, lb, e, rounds, cap)
    requires a.hardCloses == b.hardCloses && la.counts.hardCloses == lb.counts.hardCloses
    ensures (e == Ok || e == LastReason(b.notices)) && lb.counts.deadReads == la.counts.deadReads
  {
    hide Bounded, ReadsClosed, Garbled;
  }

  /** One more recv(), on an open transport or not, that returned e. */
  function Reads(a: Counts, open: bool, e: Error): Counts
  {
    a.(recvs := a.recvs + 1, deadReads := a.deadReads + (if open then 0 else 1),
       deadErrors := a.deadErrors + (if !open && e != Ok && e != WouldBlock then 1 else 0))
  }

  predicate SameReads(a: Counts, b: Counts) { b == a.(hardCloses := b.hardCloses) }

  /** A packet was taken up, accepted with the effect of its kind, and then perhaps handlers ran; or it
      was refused, and nothing changed. */
  ghost predicate Outcome(taken: Tables, mid: Tables, last: Tables, h: FixedHeader, body: bytes, cap: nat, room: bool,
                          accepted: bool)
  {
    if accepted then
      && PacketHandled(taken, mid, h, body, cap, room)
      && Quiet(mid.log, last.log) && Subscriptions.Extends(mid.subs, last.subs)
    else last == taken.(log := taken.log.(busy := last.log.busy))
  }

  lemma QuietIdle(a: Log, b: Log)
    requires Quiet(a, b)
    ensures Quiet(a, b.(busy := 0))
  {
  }

  lemma GrownRows(a: Log, b: Log)
    requires Grown(a, b)
    ensures a.rows <= b.rows
  {
  }

  lemma GrownDispatches(a: Log, b: Log, m: Message, heard: seq<Hearing>)
    requires Grown(a, b) && b.heard <= heard
    ensures Grown(a, Dispatches(b, m).(heard := heard))
  {
  }

  lemma ArrivedCounts(a: Log, m: Message, cap: nat, room: bool)
    ensures Arrived(a, m, cap, room).counts == a.counts && Arrived(a, m, cap, room).heard == a.heard
  {
  }

  lemma GrownTold(a: Log, b: Log)
    requires Grown(a, b)
    ensures Grown(a, Told(b))
  {
  }

  lemma GrownCalled(a: Log, b: Log, call: Call)
    requires Grown(a, b)
    ensures Grown(a, Called(b, call))
  {
  }

  /** Those who heard a message are its audience, up to the one that ended the session. */
  lemma {:induction false} AudienceHeard(rows: Subscriptions.Table, m: Message, called: seq<nat>, fallback: bool)
    requires var hits := Hits(rows, m.topic, |rows|);
             && (called == hits || (called != [] && called <= hits))
             && (fallback <==> hits == [])
    requires Inside(called, |rows|)
    ensures var heard := if fallback then [Hearing(None, m)] else Hearings(rows, called, m);
            heard != [] && heard <= Audience(rows, m)
  {
    HitsInside(rows, m.topic, |rows|);
    hide Hits;
  }

  lemma AcksCounts(a: Log, b: Log, p: Backward)
    requires Acks(a, b, p, false)
    ensures b.counts == a.counts
  {
  }

  lemma GrownTakenUp(a: Log, packet: bytes)
    ensures Grown(a, TakenUp(a, packet))
  {
  }

  lemma QuietSince(a: Log, b: Log)
    requires Quiet(a, b)
    ensures Grown(a, b) && SameReads(a.counts, b.counts) && (a.resting ==> b.resting)
  {
  }

  /** Message handlers called on the way do not count. */
  lemma QuietHearings(a: Log, b: Log, c: Log)
    requires Quiet(a.(heard := b.heard), b) && Quiet(b.(heard := c.heard), c)
    ensures Quiet(a.(heard := c.heard), c)
  {
    assert Quiet(a.(heard := c.heard), b.(heard := c.heard));
    QuietTrans(a.(heard := c.heard), b.(heard := c.heard), c);
  }

  lemma SettledUnknown(a: Tables, b: Tables, v: SubackView)
    ensures Settled(a, b, v) ==> b.log.counts == a.log.counts && !Unknown(a.pending, v.packetId, Suback)
    ensures Expects(a.pending, v) ==> !Unknown(a.pending, v.packetId, Suback)
  {
  }

  lemma AcksAnyRoom(a: Log, b: Log, p: Backward)
    requires !p.Rec? && Acks(a, b, p, false)
    ensures Acks(a, b, p, true)
  {
  }

  /** The slot is live and works for publication u. */
  ghost predicate SlotHolds(s: Slot, m: map<u16, Entry>, u: nat)
  {
    s.Live() && s.packetId in m && m[s.packetId].uid == u
  }

  lemma FateOfSlot(o: seq<Slot>, m: map<u16, Entry>, pubs: seq<Publication>, fates: seq<Fate>,
      completed: seq<nat>, u: nat)
    requires SlotsOk(o, m, pubs) && FatesOk(fates, m, completed) && |fates| == |pubs| && u < |pubs|
    ensures fates[u] == InFlight <==> exists i :: 0 <= i < |o| && SlotHolds(o[i], m, u)
    ensures forall i :: 0 <= i < |o| && SlotHolds(o[i], m, u) ==> Stores(o[i], pubs[u])
  {
    hide Stores;
    forall i | 0 <= i < |o| && SlotHolds(o[i], m, u)
      ensures Stores(o[i], pubs[u]) && fates[u] == InFlight
    {
      assert SlotOk(o[i], m, pubs);
    }
    if fates[u] == InFlight {
      var id :| id in m && m[id].uid == u;
      var i :| 0 <= i < |o| && o[i].Live() && o[i].packetId == id;
      assert SlotHolds(o[i], m, u);
    }
  }

  predicate ConnackAccepts(body: bytes) { DecodeConnack(body).Success? && DecodeConnack(body).value.code == 0 }

  /** One SUBSCRIBE packet was queued, and registered. */
  ghost predicate Subscribed(v: View, w: View, subs: seq<TopicSubscription>, id: u16, handler: bool)
  {
    && Encodable(SendSubscribe(id, subs)) && id !in v.log.inflight
    && Registered(Queued(v, Image(SendSubscribe(id, subs))), w, subs, id, handler)
  }
}
