/** Outbound QoS 1 and 2 (publish, handle_puback, handle_pubrec, handle_pubcomp and pump_retransmit
    of include/mqtt/client.hpp): the history of publications accepted, acknowledgements received and
    slot packets queued, and the sender's tables as a function of it. */
module Outbound {
  import opened Types
  import opened Codec
  import opened ExactlyOnce
  import opened Inflight

  datatype Event =
    | Accepted(pub: Publication)
    | Issued(id: u16, packet: bytes)   // a slot's packet was queued
    | Got(ack: Backward)
    | GivenUp                          // a clean session gave up what was in flight

  /** The sender's half of the protocol: what is under way, what was accepted, what was reported. */
  datatype Sender = Sender(slots: map<u16, Entry>, pubs: seq<Publication>, completed: seq<nat>)

  const START := Sender(map[], [], [])

  function Step(s: Sender, e: Event): Sender
  {
    match e
    case Accepted(p) => s.(slots := s.slots[p.id := Entry(|s.pubs|, StageFor(p.qos))], pubs := s.pubs + [p])
    case Issued(_, _) => s
    case Got(ack) => s.(slots := SenderSlots(s.slots, ack),
        completed := Push(s.completed, SenderCompletes(s.slots, ack)))
    case GivenUp => s.(slots := map[])
  }

  function Replay(h: seq<Event>): Sender
  {
    if h == [] then START else Step(Replay(h[..|h| - 1]), h[|h| - 1])
  }

  lemma {:induction false} ReplayAppend(h: seq<Event>, e: Event)
    ensures Replay(h + [e]) == Step(Replay(h), e)
  {
    assert (h + [e])[..|h|] == h;
  }

  /** What has to be queued for `id`: the PUBLISH until its PUBREC, then the PUBREL. */
  ghost predicate RightPacket(s: Sender, id: u16, packet: bytes)
  {
    && id in s.slots && s.slots[id].uid < |s.pubs|
    && var p := s.pubs[s.slots[id].uid];
       && Publishable(p) && p.id == id
       && if s.slots[id].stage == AwaitPubcomp then packet == AckBytes(Pubrel, id)
          else packet == PublishOf(p, false) || packet == PublishOf(p, true)
  }

  /** An id is taken up only when it is free, and only the right packet is queued for it. */
  ghost predicate DisciplinedAt(h: seq<Event>, i: nat)
    requires i < |h|
  {
    match h[i]
    case Accepted(p) => p.id !in Replay(h[..i]).slots && Publishable(p)
    case Issued(id, packet) => RightPacket(Replay(h[..i]), id, packet)
    case _ => true
  }

  ghost predicate Disciplined(h: seq<Event>) { forall i :: 0 <= i < |h| ==> DisciplinedAt(h, i) }

  lemma {:induction false} DisciplinedAppend(h: seq<Event>, e: Event)
    requires Disciplined(h)
    requires match e
             case Accepted(p) => p.id !in Replay(h).slots && Publishable(p)
             case Issued(id, packet) => RightPacket(Replay(h), id, packet)
             case _ => true
    ensures Disciplined(h + [e])
  {
    var g := h + [e];
    hide RightPacket, Publishable, Replay;
    forall i | 0 <= i < |g| ensures DisciplinedAt(g, i) {
      assert g[..i] == h[..i];
      if i < |h| {
        assert DisciplinedAt(h, i);
      } else {
        assert g[..i] == h;
      }
    }
  }

  lemma DisciplinedFront(h: seq<Event>)
    requires Disciplined(h) && h != []
    ensures Disciplined(h[..|h| - 1])
  {
    var g := h[..|h| - 1];
    forall i | 0 <= i < |g| ensures DisciplinedAt(g, i) {
      assert DisciplinedAt(h, i);
      assert g[..i] == h[..i];
    }
  }

  lemma DisciplinedLast(h: seq<Event>)
    requires Disciplined(h) && h != []
    ensures DisciplinedAt(h, |h| - 1)
  {
  }

  //
  // Why a publication is reported delivered
  //

  /** Publication u was accepted at i. */
  ghost predicate AcceptedAt(h: seq<Event>, i: nat, u: nat)
  {
    i < |h| && h[i].Accepted? && |Replay(h[..i]).pubs| == u
  }

  ghost predicate GotAfter(h: seq<Event>, i: nat, ack: Backward) { exists j :: i < j < |h| && h[j] == Got(ack) }

  /** How the slot of `id` came to be in its stage. */
  ghost predicate SlotExplained(h: seq<Event>, id: u16)
    requires id in Replay(h).slots
  {
    var e := Replay(h).slots[id];
    exists i: nat :: AcceptedAt(h, i, e.uid) && StageExplained(h, i, id, e)
  }

  ghost predicate StageExplained(h: seq<Event>, i: nat, id: u16, e: Entry)
  {
    && i < |h| && h[i].Accepted? && e.uid < |Replay(h).pubs| && h[i].pub == Replay(h).pubs[e.uid] && h[i].pub.id == id
    && (e.stage == AwaitPuback <==> h[i].pub.qos == AT_LEAST_ONCE)
    && (e.stage == AwaitPubcomp ==> GotAfter(h, i, Rec(id)))
  }

  lemma AcceptedLater(h: seq<Event>, e: Event, i: nat, u: nat)
    requires AcceptedAt(h, i, u)
    ensures AcceptedAt(h + [e], i, u) && (h + [e])[i] == h[i]
  {
    assert (h + [e])[..i] == h[..i];
  }

  lemma GotLater(h: seq<Event>, e: Event, i: nat, ack: Backward)
    requires GotAfter(h, i, ack) || (e == Got(ack) && i < |h|)
    ensures GotAfter(h + [e], i, ack)
  {
    if GotAfter(h, i, ack) {
      var j :| i < j < |h| && h[j] == Got(ack);
      assert (h + [e])[j] == Got(ack);
    } else {
      assert (h + [e])[|h|] == Got(ack);
    }
  }

  /** A slot keeps its explanation while its stage does, or turns to PUBREL on a PUBREC. */
  lemma {:induction false} SlotLater(h: seq<Event>, e: Event, id: u16)
    requires id in Replay(h).slots && SlotExplained(h, id) && id in Replay(h + [e]).slots
    requires Replay(h + [e]).slots[id] == Replay(h).slots[id] ||
             (e == Got(Rec(id)) && Replay(h).slots[id].stage == AwaitPubrec
              && Replay(h + [e]).slots[id] == Entry(Replay(h).slots[id].uid, AwaitPubcomp))
    ensures SlotExplained(h + [e], id)
  {
    ReplayAppend(h, e);
    hide Replay;
    var old' := Replay(h).slots[id];
    var i: nat :| AcceptedAt(h, i, old'.uid) && StageExplained(h, i, id, old');
    AcceptedLater(h, e, i, old'.uid);
    if old'.stage == AwaitPubcomp || e == Got(Rec(id)) { GotLater(h, e, i, Rec(id)); }
    assert StageExplained(h + [e], i, id, Replay(h + [e]).slots[id]);
  }

  ghost predicate AllExplained(h: seq<Event>) { forall id :: id in Replay(h).slots ==> SlotExplained(h, id) }

  lemma AcceptExplains(h: seq<Event>, p: Publication)
    requires Publishable(p)
    ensures SlotExplained(h + [Accepted(p)], p.id)
  {
    var g := h + [Accepted(p)];
    ReplayAppend(h, Accepted(p));
    hide Replay, Publishable;
    assert g[..|h|] == h;
    assert AcceptedAt(g, |h|, |Replay(h).pubs|);
    assert p.qos == AT_LEAST_ONCE || p.qos == EXACTLY_ONCE by { QosOf(p); }
    assert StageExplained(g, |h|, p.id, Replay(g).slots[p.id]);
  }

  lemma QosOf(p: Publication)
    requires Publishable(p)
    ensures p.qos == AT_LEAST_ONCE || p.qos == EXACTLY_ONCE
  {
  }

  lemma StepExplained(h: seq<Event>, e: Event)
    requires AllExplained(h) && Disciplined(h + [e])
    ensures AllExplained(h + [e])
  {
    var g := h + [e];
    assert DisciplinedAt(g, |h|) && g[..|h|] == h;
    ReplayAppend(h, e);
    hide Replay, SlotExplained;
    forall id | id in Replay(g).slots ensures SlotExplained(g, id) {
      if e.Accepted? && id == e.pub.id { AcceptExplains(h, e.pub); } else { SlotLater(h, e, id); }
    }
  }

  lemma {:induction false} EverythingExplained(h: seq<Event>)
    requires Disciplined(h)
    ensures AllExplained(h)
  {
    if h != [] {
      var front, e := h[..|h| - 1], h[|h| - 1];
      DisciplinedFront(h);
      EverythingExplained(front);
      assert front + [e] == h;
      StepExplained(front, e);
    }
  }

  /** The k-th completion happens at j. */
  ghost predicate CompletedAt(h: seq<Event>, j: nat, k: nat)
  {
    && j < |h| && h[j].Got? && |Replay(h[..j]).completed| == k && |Replay(h[..j + 1]).completed| == k + 1
  }

  /** At j came the last acknowledgement of a publication accepted at i: its PUBACK (QoS 1), or its PUBCOMP
      after its PUBREC (QoS 2), under its packet id. */
  ghost predicate AnsweredAt(h: seq<Event>, i: nat, j: nat, p: Publication)
  {
    && i < j < |h| && h[i] == Accepted(p)
    && if p.qos == AT_LEAST_ONCE then h[j] == Got(Ack(p.id))
       else h[j] == Got(Comp(p.id)) && GotAfter(h[..j], i, Rec(p.id))
  }

  lemma AnsweredLast(h: seq<Event>, ack: Backward) returns (i: nat)
    requires ack.id in Replay(h).slots && SlotExplained(h, ack.id) && SenderCompletes(Replay(h).slots, ack).Some?
    ensures var u := SenderCompletes(Replay(h).slots, ack).value;
            u < |Replay(h).pubs| && AcceptedAt(h, i, u) && AnsweredAt(h + [Got(ack)], i, |h|, Replay(h).pubs[u])
  {
    hide Replay;
    var e := Replay(h).slots[ack.id];
    i :| AcceptedAt(h, i, e.uid) && StageExplained(h, i, ack.id, e);
    assert (h + [Got(ack)])[..|h|] == h;
  }

  /** Every publication reported delivered was accepted, and after that its PUBACK came (QoS 1), or
      its PUBREC and then its PUBCOMP (QoS 2), under its packet id; the last of these is the one at which
      it was reported. */
  lemma {:induction false} ReportedAfterAcknowledgement(h: seq<Event>, k: nat) returns (i: nat, j: nat)
    requires Disciplined(h) && k < |Replay(h).completed|
    ensures var u := Replay(h).completed[k];
            && u < |Replay(h).pubs| && AcceptedAt(h, i, u) && CompletedAt(h, j, k)
            && AnsweredAt(h, i, j, Replay(h).pubs[u])
  {
    hide Replay, SlotExplained, Disciplined, AcceptedAt, AnsweredAt, CompletedAt;
    NothingReplayed();
    assert h != [];
    var front, e := h[..|h| - 1], h[|h| - 1];
    DisciplinedFront(h);
    assert front + [e] == h;
    ReplayAppend(front, e);
    if k < |Replay(front).completed| {
      i, j := ReportedAfterAcknowledgement(front, k);
      ReportedLater(front, e, i, j, k, Replay(front).completed[k], Replay(front).pubs[Replay(front).completed[k]]);
    } else {
      EverythingExplained(front);
      i := AnsweredLast(front, e.ack);
      j := |front|;
      AcceptedLater(front, e, i, Replay(h).completed[k]);
      CompletedLast(front, e, k);
    }
  }

  lemma NothingReplayed()
    ensures Replay([]) == START
  {
  }

  lemma ReportedLater(h: seq<Event>, e: Event, i: nat, j: nat, k: nat, u: nat, p: Publication)
    requires AcceptedAt(h, i, u) && CompletedAt(h, j, k) && AnsweredAt(h, i, j, p)
    ensures AcceptedAt(h + [e], i, u) && CompletedAt(h + [e], j, k) && AnsweredAt(h + [e], i, j, p)
  {
    hide Replay;
    var g := h + [e];
    assert g[..i] == h[..i] && g[..j] == h[..j] && g[..j + 1] == h[..j + 1];
  }

  lemma CompletedLast(h: seq<Event>, e: Event, k: nat)
    requires e.Got? && |Replay(h).completed| == k && |Replay(h + [e]).completed| == k + 1
    ensures CompletedAt(h + [e], |h|, k)
  {
    hide Replay;
    assert (h + [e])[..|h|] == h && (h + [e])[..|h| + 1] == h + [e];
  }

  /** No two reports rest on the same acknowledgement. */
  lemma ReportsApart(h: seq<Event>, k: nat, l: nat) returns (j: nat, j': nat)
    requires Disciplined(h) && k < l < |Replay(h).completed|
    ensures j != j' && CompletedAt(h, j, k) && CompletedAt(h, j', l)
  {
    var i;
    i, j := ReportedAfterAcknowledgement(h, k);
    i, j' := ReportedAfterAcknowledgement(h, l);
  }

  //
  // After PUBREC
  //

  predicate Releases(e: Event, id: u16) { e == Got(Comp(id)) || e == GivenUp }

  predicate IsPublish(packet: bytes) { packet != [] && packet[0] / 16 == 3 }

  lemma {:induction false} StaysPubrel(h: seq<Event>, i: nat, j: nat, id: u16)
    requires Disciplined(h) && i <= j <= |h| && id in Replay(h[..i]).slots
             && Replay(h[..i]).slots[id].stage == AwaitPubcomp
    requires forall k :: i <= k < j ==> !Releases(h[k], id)
    ensures id in Replay(h[..j]).slots && Replay(h[..j]).slots[id].stage == AwaitPubcomp
  {
    hide RightPacket, Publishable, Replay;
    if i < j {
      StaysPubrel(h, i, j - 1, id);
      assert DisciplinedAt(h, j - 1);
      assert h[..j] == h[..j - 1] + [h[j - 1]];
      ReplayAppend(h[..j - 1], h[j - 1]);
    }
  }

  lemma IssuedIsPubrel(h: seq<Event>, j: nat, id: u16)
    requires Disciplined(h) && j < |h| && h[j].Issued? && h[j].id == id
    requires id in Replay(h[..j]).slots && Replay(h[..j]).slots[id].stage == AwaitPubcomp
    ensures !IsPublish(h[j].packet)
  {
    assert DisciplinedAt(h, j);
    assert AckBytes(Pubrel, id)[0] / 16 == 6;
  }

  lemma PacketKind(s: Sender, id: u16, packet: bytes)
    requires RightPacket(s, id, packet)
    ensures IsPublish(packet) <==> s.slots[id].stage != AwaitPubcomp
  {
    assert AckBytes(Pubrel, id)[0] / 16 == 6;
    if s.slots[id].stage != AwaitPubcomp {
      var p := s.pubs[s.slots[id].uid];
      PublishFirst(p, false);
      PublishFirst(p, true);
    }
  }

  lemma PublishFirst(p: Publication, dup: bool)
    requires Publishable(p)
    ensures IsPublish(PublishOf(p, dup))
  {
  }

  /** Once a PUBREC has been handled no PUBLISH is queued for its id until the PUBCOMP, or a clean
      session, has released it. */
  lemma NoPublishAfterPubrec(h: seq<Event>, i: nat, j: nat, id: u16)
    requires Disciplined(h) && i < j < |h| && h[i] == Got(Rec(id)) && h[j].Issued? && h[j].id == id
             && IsPublish(h[j].packet)
    requires id in Replay(h[..i]).slots && Replay(h[..i]).slots[id].stage != AwaitPuback
    ensures exists k :: i < k < j && Releases(h[k], id)
  {
    if forall k :: i < k < j ==> !Releases(h[k], id) {
      assert h[..i + 1] == h[..i] + [h[i]];
      ReplayAppend(h[..i], h[i]);
      StaysPubrel(h, i + 1, j, id);
      IssuedIsPubrel(h, j, id);
    }
  }

  //
  // The history and the tables
  //

  /** The tables are what the history makes of them. */
  ghost predicate HistoryOk(h: seq<Event>, slots: map<u16, Entry>, pubs: seq<Publication>, completed: seq<nat>)
  {
    Disciplined(h) && Replay(h) == Sender(slots, pubs, completed)
  }

  lemma Accept(h: seq<Event>, m: map<u16, Entry>, pubs: seq<Publication>, completed: seq<nat>,
      p: Publication, packet: bytes)
    requires HistoryOk(h, m, pubs, completed) && p.id !in m && Publishable(p)
    requires packet == PublishOf(p, false) || packet == PublishOf(p, true)
    ensures HistoryOk(h + [Accepted(p)] + [Issued(p.id, packet)],
            m[p.id := Entry(|pubs|, StageFor(p.qos))], pubs + [p], completed)
  {
    hide PublishOf;
    QosOf(p);
    hide Publishable;
    ReplayAppend(h, Accepted(p));
    DisciplinedAppend(h, Accepted(p));
    var g := h + [Accepted(p)];
    hide Replay, Disciplined;
    assert RightPacket(Replay(g), p.id, packet);
    ReplayAppend(g, Issued(p.id, packet));
    DisciplinedAppend(g, Issued(p.id, packet));
  }

  lemma Hear(h: seq<Event>, m: map<u16, Entry>, pubs: seq<Publication>, completed: seq<nat>, ack: Backward)
    requires HistoryOk(h, m, pubs, completed)
    ensures HistoryOk(h + [Got(ack)], SenderSlots(m, ack), pubs, Push(completed, SenderCompletes(m, ack)))
  {
    ReplayAppend(h, Got(ack));
    DisciplinedAppend(h, Got(ack));
  }

  lemma Drop(h: seq<Event>, m: map<u16, Entry>, pubs: seq<Publication>, completed: seq<nat>)
    requires HistoryOk(h, m, pubs, completed)
    ensures HistoryOk(h + [GivenUp], map[], pubs, completed)
  {
    ReplayAppend(h, GivenUp);
    DisciplinedAppend(h, GivenUp);
  }

  /** A live slot's packet is the right one. */
  lemma Issue(h: seq<Event>, m: map<u16, Entry>, pubs: seq<Publication>, completed: seq<nat>, s: Slot)
    requires HistoryOk(h, m, pubs, completed) && s.Live() && SlotOk(s, m, pubs)
    ensures HistoryOk(h + [Issued(s.packetId, s.packet)], m, pubs, completed)
  {
    hide PublishOf, Publishable, AckBytes, Disciplined;
    ReplayAppend(h, Issued(s.packetId, s.packet));
    assert RightPacket(Replay(h), s.packetId, s.packet);
    DisciplinedAppend(h, Issued(s.packetId, s.packet));
  }

  lemma Begin()
    ensures HistoryOk([], map[], [], [])
  {
  }
}
