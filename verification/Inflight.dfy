/** The outbound slot table (outbound_ of include/mqtt/client.hpp): what each slot stores for
    retransmission, and what has become of every publication accepted so far. */
module Inflight {
  import opened Types
  import opened Packet
  import opened Codec
  import opened ExactlyOnce

  datatype Phase = Free | WaitPuback | WaitPubrec | WaitPubcomp

  /** `packet` is the stored packet, to its recorded length. */
  datatype Slot = Slot(phase: Phase, packetId: u16, packet: bytes, qos: QoS, lastSentMs: u32)
  {
    predicate Live() { phase != Free }
  }

  /** The arguments of an accepted publish() and the id it was given. */
  datatype Publication = Publication(topic: bytes, payload: bytes, qos: QoS, retain: bool, id: u16)

  function StageOf(p: Phase): Stage
    requires p != Free
  {
    match p case WaitPuback => AwaitPuback case WaitPubrec => AwaitPubrec case WaitPubcomp => AwaitPubcomp
  }

  predicate Publishable(p: Publication)
  {
    (p.qos == AT_LEAST_ONCE || p.qos == EXACTLY_ONCE) && p.id != 0
        && PublishArgsOk(p.topic, p.payload, p.qos, false, p.id)
  }

  /** The PUBLISH for a publication, first sent or repeated. */
  function PublishOf(p: Publication, dup: bool): bytes
    requires Publishable(p)
  {
    PublishBytes(p.topic, p.payload, p.qos, p.retain, dup, p.id)
  }

  /** What a live slot stores: until PUBREC the publish() arguments and the id, up to the DUP bit;
      after it exactly the PUBREL for the id. */
  ghost predicate Stores(s: Slot, p: Publication)
  {
    && s.packetId == p.id && s.qos == p.qos && Publishable(p)
    && match s.phase
       case Free => true
       case WaitPuback => p.qos == AT_LEAST_ONCE && (s.packet == PublishOf(p, false) || s.packet == PublishOf(p, true))
       case WaitPubrec => p.qos == EXACTLY_ONCE && (s.packet == PublishOf(p, false) || s.packet == PublishOf(p, true))
       case WaitPubcomp => p.qos == EXACTLY_ONCE && s.packet == AckBytes(Pubrel, p.id)
  }

  /** The slot of a QoS 2 publication after its PUBREC. */
  lemma PubrelStores(s: Slot, p: Publication)
    requires Stores(s, p) && s.phase == WaitPubrec
    ensures Stores(s.(phase := WaitPubcomp, packet := AckBytes(Pubrel, s.packetId)), p)
  {
  }

  ghost predicate SlotOk(s: Slot, m: map<u16, Entry>, pubs: seq<Publication>)
  {
    s.Live() ==>
      && s.packetId in m && m[s.packetId].stage == StageOf(s.phase)
      && m[s.packetId].uid < |pubs| && Stores(s, pubs[m[s.packetId].uid])
  }

  /** The table holds exactly the entries of `m`, one live slot each, under pairwise distinct ids. */
  ghost predicate SlotsOk(o: seq<Slot>, m: map<u16, Entry>, pubs: seq<Publication>)
  {
    && (forall i :: 0 <= i < |o| ==> SlotOk(o[i], m, pubs))
    && (forall i, j :: 0 <= i < j < |o| && o[i].Live() && o[j].Live() ==> o[i].packetId != o[j].packetId)
    && (forall id :: id in m ==> exists i :: 0 <= i < |o| && o[i].Live() && o[i].packetId == id)
  }

  predicate ValidPhase(qos: QoS, p: Phase) { p == if qos == AT_LEAST_ONCE then WaitPuback else WaitPubrec }

  /** publish() takes a free slot. */
  lemma TakeSlot(o: seq<Slot>, i: nat, s: Slot, m: map<u16, Entry>, pubs: seq<Publication>, p: Publication)
    requires SlotsOk(o, m, pubs) && i < |o| && !o[i].Live() && s.Live()
    requires p.id !in m && Stores(s, p) && ValidPhase(p.qos, s.phase)
    ensures SlotsOk(o[i := s], m[p.id := Entry(|pubs|, StageFor(p.qos))], pubs + [p])
  {
    hide Stores;
    var o', m', pubs' := o[i := s], m[p.id := Entry(|pubs|, StageFor(p.qos))], pubs + [p];
    assert s.packetId == p.id by { StoresId(s, p); }
    forall k | 0 <= k < |o'| ensures SlotOk(o'[k], m', pubs') { assert SlotOk(o[k], m, pubs); }
    forall id | id in m' ensures exists k :: 0 <= k < |o'| && o'[k].Live() && o'[k].packetId == id {
      if id == p.id {
        assert o'[i].packetId == id;
      } else {
        var k :| 0 <= k < |o| && o[k].Live() && o[k].packetId == id;
        assert o'[k] == o[k];
      }
    }
    forall a, b | 0 <= a < b < |o'| && o'[a].Live() && o'[b].Live() ensures o'[a].packetId != o'[b].packetId {
      assert SlotOk(o[a], m, pubs) && SlotOk(o[b], m, pubs);
    }
  }

  lemma StoresId(s: Slot, p: Publication)
    requires Stores(s, p)
    ensures s.packetId == p.id && p.id != 0
  {
  }

  /** A slot is rewritten without changing its id: retransmitted, stamped, or moved to PUBREL. */
  lemma RewriteSlot(o: seq<Slot>, i: nat, s: Slot, m: map<u16, Entry>, pubs: seq<Publication>)
    requires SlotsOk(o, m, pubs) && i < |o| && o[i].Live() && s.Live() && s.packetId == o[i].packetId
    requires m[s.packetId].uid < |pubs| && Stores(s, pubs[m[s.packetId].uid])
    ensures SlotsOk(o[i := s], m[s.packetId := Entry(m[s.packetId].uid, StageOf(s.phase))], pubs)
  {
    hide Stores;
    var id := s.packetId;
    var o', m' := o[i := s], m[id := Entry(m[id].uid, StageOf(s.phase))];
    assert SlotOk(o[i], m, pubs);
    forall k | 0 <= k < |o'| ensures SlotOk(o'[k], m', pubs) { assert SlotOk(o[k], m, pubs); }
    forall x | x in m' ensures exists k :: 0 <= k < |o'| && o'[k].Live() && o'[k].packetId == x {
      var k :| 0 <= k < |o| && o[k].Live() && o[k].packetId == x;
      assert o'[k].packetId == x;
    }
  }

  const FREE_SLOT := Slot(Free, 0, [], AT_MOST_ONCE, 0)

  function Released(s: Slot): Slot { s.(phase := Free, packetId := 0, packet := []) }

  lemma ReleaseSlot(o: seq<Slot>, i: nat, m: map<u16, Entry>, pubs: seq<Publication>)
    requires SlotsOk(o, m, pubs) && i < |o| && o[i].Live()
    ensures SlotsOk(o[i := Released(o[i])], m - {o[i].packetId}, pubs)
  {
    hide Stores;
    var id := o[i].packetId;
    var o', m' := o[i := Released(o[i])], m - {id};
    forall k | 0 <= k < |o'| ensures SlotOk(o'[k], m', pubs) { assert SlotOk(o[k], m, pubs); }
    forall x | x in m' ensures exists k :: 0 <= k < |o'| && o'[k].Live() && o'[k].packetId == x {
      var k :| 0 <= k < |o| && o[k].Live() && o[k].packetId == x;
      assert o'[k] == o[k];
    }
  }

  function AllReleased(o: seq<Slot>): (r: seq<Slot>)
    ensures |r| == |o| && forall i :: 0 <= i < |o| ==> r[i] == Released(o[i])
  {
    seq(|o|, i requires 0 <= i < |o| => Released(o[i]))
  }

  lemma ReleaseAll(o: seq<Slot>, pubs: seq<Publication>)
    ensures SlotsOk(AllReleased(o), map[], pubs)
  {
  }

  /** The id of a live slot is an entry, and an entry has a slot. */
  lemma LiveIffEntry(o: seq<Slot>, m: map<u16, Entry>, pubs: seq<Publication>, i: nat)
    requires SlotsOk(o, m, pubs) && i < |o| && o[i].Live()
    ensures o[i].packetId != 0 && o[i].packetId in m && m[o[i].packetId].stage == StageOf(o[i].phase)
    ensures m[o[i].packetId].uid < |pubs| && Stores(o[i], pubs[m[o[i].packetId].uid])
  {
    assert SlotOk(o[i], m, pubs);
    StoresId(o[i], pubs[m[o[i].packetId].uid]);
  }

  /** mark_dup: sets the DUP bit of a stored PUBLISH and leaves a PUBREL alone. */
  function MarkDup(packet: bytes): bytes
  {
    if packet == [] || packet[0] / 16 != 3 then packet
    else packet[0 := if packet[0] / 8 % 2 == 1 then packet[0] else packet[0] + 8]
  }

  lemma MarkDupPublish(p: Publication, dup: bool)
    requires Publishable(p)
    ensures MarkDup(PublishOf(p, dup)) == PublishOf(p, true)
  {
    hide VbiBytes;
    hide PublishBody;
    hide PublishArgsOk;
    var h0, h1 := PublishHeader(p.qos, p.retain, false), PublishHeader(p.qos, p.retain, true);
    assert ToByte(h1) == ToByte(h0) + 8 && ToByte(h0) / 16 == 3 && ToByte(h1) / 16 == 3;
    assert ToByte(h0) / 8 % 2 == 0 && ToByte(h1) / 8 % 2 == 1;
    assert PublishOf(p, dup)[0] == if dup then ToByte(h1) else ToByte(h0);
  }

  lemma MarkDupPubrel(id: u16)
    ensures MarkDup(AckBytes(Pubrel, id)) == AckBytes(Pubrel, id)
  {
  }

  /** What a marked slot stores is still what it has to store. */
  lemma MarkedStores(s: Slot, p: Publication, now: u32)
    requires s.Live() && Stores(s, p)
    ensures Stores(s.(packet := MarkDup(s.packet), lastSentMs := now), p)
  {
    hide PublishOf;
    hide AckBytes;
    hide MarkDup;
    MarkDupPublish(p, false);
    MarkDupPublish(p, true);
    MarkDupPubrel(p.id);
  }

  //
  // The fate of every publication
  //

  datatype Fate = InFlight | Completed | Discarded

  /** Each publication is in exactly one of the three states, and was reported complete as often as
      it completed: once or never. */
  ghost predicate FatesOk(fates: seq<Fate>, m: map<u16, Entry>, completed: seq<nat>)
  {
    && (forall id :: id in m ==> m[id].uid < |fates| && fates[m[id].uid] == InFlight)
    && (forall a, b :: a in m && b in m && a != b ==> m[a].uid != m[b].uid)
    && (forall u :: 0 <= u < |fates| && fates[u] == InFlight ==> exists id :: id in m && m[id].uid == u)
    && (forall u: nat :: Times(completed, u) == if u < |fates| && fates[u] == Completed then 1 else 0)
  }

  lemma FateAccept(fates: seq<Fate>, m: map<u16, Entry>, completed: seq<nat>, id: u16, stage: Stage)
    requires FatesOk(fates, m, completed) && id !in m
    ensures FatesOk(fates + [InFlight], m[id := Entry(|fates|, stage)], completed)
  {
    var f', m' := fates + [InFlight], m[id := Entry(|fates|, stage)];
    forall u | 0 <= u < |f'| && f'[u] == InFlight ensures exists x :: x in m' && m'[x].uid == u {
      if u == |fates| {
        assert m'[id].uid == u;
      } else {
        var x :| x in m && m[x].uid == u;
        assert x in m' && m'[x].uid == u;
      }
    }
  }

  lemma FateAdvance(fates: seq<Fate>, m: map<u16, Entry>, completed: seq<nat>, id: u16, stage: Stage)
    requires FatesOk(fates, m, completed) && id in m
    ensures FatesOk(fates, m[id := Entry(m[id].uid, stage)], completed)
  {
    var m' := m[id := Entry(m[id].uid, stage)];
    forall u | 0 <= u < |fates| && fates[u] == InFlight ensures exists x :: x in m' && m'[x].uid == u {
      var x :| x in m && m[x].uid == u;
      assert x in m' && m'[x].uid == u;
    }
  }

  lemma FateComplete(fates: seq<Fate>, m: map<u16, Entry>, completed: seq<nat>, id: u16)
    requires FatesOk(fates, m, completed) && id in m
    ensures FatesOk(fates[m[id].uid := Completed], m - {id}, completed + [m[id].uid])
  {
    var u0, m' := m[id].uid, m - {id};
    var f' := fates[u0 := Completed];
    forall u | 0 <= u < |f'| && f'[u] == InFlight ensures exists x :: x in m' && m'[x].uid == u {
      var x :| x in m && m[x].uid == u;
      assert x in m' && m'[x].uid == u;
    }
    forall u: nat ensures Times(completed + [u0], u) == if u < |f'| && f'[u] == Completed then 1 else 0 {
      TimesAppend(completed, u0, u);
    }
  }

  function AllDiscarded(fates: seq<Fate>): (r: seq<Fate>)
    ensures |r| == |fates| && forall u :: 0 <= u < |fates| ==>
              r[u] == if fates[u] == InFlight then Discarded else fates[u]
  {
    seq(|fates|, u requires 0 <= u < |fates| => if fates[u] == InFlight then Discarded else fates[u])
  }

  lemma FateDiscard(fates: seq<Fate>, m: map<u16, Entry>, completed: seq<nat>)
    requires FatesOk(fates, m, completed)
    ensures FatesOk(AllDiscarded(fates), map[], completed)
  {
  }
}
