/** The two ends of the protocol of ExactlyOnce.dfy, each seen alone: what happens at one end of a
    run is a history of the kind that the client records (`log.out` at the sending end, `log.inbound`
    at the receiving end), and that end's tables are what the history makes of them. The client's
    invariant says the same of its own histories and tables. Conversely, every history that the client
    can record is what happens at one end of the protocol, if the channels may bring anything. */
module Halves {
  import opened Types
  import opened ExactlyOnce
  import opened Inflight
  import opened Utf8
  import Outbound
  import Inbound

  /** The protocol knows a publication by its id and QoS only. */
  function Anonymous(id: u16, qos: QoS): Publication { Publication([0x61], [], qos, false, id) }

  lemma AnonymousPublishable(id: u16, qos: QoS)
    requires id != 0 && (qos == AT_LEAST_ONCE || qos == EXACTLY_ONCE)
    ensures Publishable(Anonymous(id, qos))
  {
    LetterDecodes();
  }

  function SenderEvents(n: Net, a: Action): seq<Outbound.Event>
  {
    match a
    case Accept(id, qos) =>
      if id == 0 || id in n.slots || (qos != AT_LEAST_ONCE && qos != EXACTLY_ONCE) then []
      else [Outbound.Accepted(Anonymous(id, qos))]
    case TakeBackward(_) => if n.bwd == [] then [] else [Outbound.Got(n.bwd[0])]
    case Forget => [Outbound.GivenUp]
    case _ => []
  }

  function SenderTrace(cap: nat, actions: seq<Action>): seq<Outbound.Event>
  {
    if actions == [] then []
    else
      var front := actions[..|actions| - 1];
      SenderTrace(cap, front) + SenderEvents(Run(Initial, cap, front), actions[|actions| - 1])
  }

  ghost predicate SenderAgrees(n: Net, s: Outbound.Sender)
  {
    && n.slots == s.slots && n.delivered == s.completed && |n.accepted| == |s.pubs|
    && forall u :: 0 <= u < |s.pubs| ==> s.pubs[u].qos == n.accepted[u]
  }

  lemma {:induction false} SenderStep(n: Net, cap: nat, a: Action, h: seq<Outbound.Event>)
    requires SenderAgrees(n, Outbound.Replay(h)) && Outbound.Disciplined(h)
    ensures SenderAgrees(Next(n, cap, a), Outbound.Replay(h + SenderEvents(n, a)))
            && Outbound.Disciplined(h + SenderEvents(n, a))
  {
    hide Outbound.Replay, Outbound.Disciplined, Outbound.RightPacket, Publishable;
    var events := SenderEvents(n, a);
    if events == [] {
      assert h + events == h;
    } else {
      var e := events[0];
      assert events == [e];
      Outbound.ReplayAppend(h, e);
      if a.Accept? { AnonymousPublishable(a.id, a.qos); }
      Outbound.DisciplinedAppend(h, e);
    }
  }

  /** In every run the sending end's table, and what it reported, are the replay of what happened there. */
  lemma {:induction false} SendingHalf(cap: nat, actions: seq<Action>)
    ensures SenderAgrees(Run(Initial, cap, actions), Outbound.Replay(SenderTrace(cap, actions)))
    ensures Outbound.Disciplined(SenderTrace(cap, actions))
  {
    if actions != [] {
      var front := actions[..|actions| - 1];
      SendingHalf(cap, front);
      SenderStep(Run(Initial, cap, front), cap, actions[|actions| - 1], SenderTrace(cap, front));
    }
  }

  function ReceiverEvents(n: Net, cap: nat, a: Action): seq<Inbound.Event>
  {
    match a
    case TakeForward(room) => if n.fwd == [] then [] else ArrivalEvents(n.tracked, cap, n.fwd[0], room)
    case Forget => [Inbound.Forgotten]
    case _ => []
  }

  function ArrivalEvents(tracked: set<u16>, cap: nat, p: Forward, room: bool): seq<Inbound.Event>
  {
    match p
    case Pub1(id, _) => if room then [Inbound.AckQueued(id), Inbound.Dispatched(AT_LEAST_ONCE, id)] else []
    case Pub2(id, _) =>
      if ReceiverDispatches(tracked, cap, p, room) then [Inbound.RecQueued(id), Inbound.Dispatched(EXACTLY_ONCE, id)]
      else if room && id in tracked then [Inbound.RecRepeated(id)]
      else []
    case Rel(id) => if room then [Inbound.Event.Released(id)] else []
  }

  function ReceiverTrace(cap: nat, actions: seq<Action>): seq<Inbound.Event>
  {
    if actions == [] then []
    else
      var front := actions[..|actions| - 1];
      ReceiverTrace(cap, front) + ReceiverEvents(Run(Initial, cap, front), cap, actions[|actions| - 1])
  }

  lemma {:induction false} Records(h: seq<Inbound.Event>, e: Inbound.Event)
    requires Inbound.Disciplined(h) && Inbound.DisciplinedAt(h + [e], |h|)
    ensures Inbound.Disciplined(h + [e]) && Inbound.Tracked(h + [e]) == Inbound.Track(Inbound.Tracked(h), e)
  {
    hide Inbound.DisciplinedAt;
    Inbound.TrackedAppend(h, e);
    Inbound.DisciplinedAppend(h, e);
  }

  /** An acknowledgement directly followed by the dispatch. */
  lemma {:induction false} RecordsDispatch(h: seq<Inbound.Event>, ack: Inbound.Event, qos: QoS)
    requires Inbound.Disciplined(h)
    requires (ack.AckQueued? && qos == AT_LEAST_ONCE)
             || (ack.RecQueued? && qos == EXACTLY_ONCE && ack.id !in Inbound.Tracked(h))
    ensures var g := h + [ack, Inbound.Dispatched(qos, ack.id)];
            Inbound.Disciplined(g) && Inbound.Tracked(g) == Inbound.Track(Inbound.Tracked(h), ack)
  {
    var g, e := h + [ack], Inbound.Dispatched(qos, ack.id);
    assert g[..|h|] == h;
    hide Inbound.Tracked;
    Records(h, ack);
    Records(g, e);
    assert g + [e] == h + [ack, e];
  }

  lemma {:induction false} ArrivalStep(cap: nat, p: Forward, room: bool, h: seq<Inbound.Event>)
    requires Inbound.Disciplined(h)
    ensures var g := h + ArrivalEvents(Inbound.Tracked(h), cap, p, room);
            Inbound.Disciplined(g) && ReceiverTracks(Inbound.Tracked(h), cap, p, room) == Inbound.Tracked(g)
  {
    hide Inbound.Tracked, Inbound.Disciplined;
    var t := Inbound.Tracked(h);
    assert forall e :: (h + [e])[..|h|] == h;
    if ArrivalEvents(t, cap, p, room) == [] {
      assert h + [] == h;
    } else if ReceiverDispatches(t, cap, p, room) {
      RecordsDispatch(h, if p.Pub1? then Inbound.AckQueued(p.id) else Inbound.RecQueued(p.id),
                      if p.Pub1? then AT_LEAST_ONCE else EXACTLY_ONCE);
    } else {
      Records(h, if p.Pub2? then Inbound.RecRepeated(p.id) else Inbound.Event.Released(p.id));
    }
  }

  lemma {:induction false} ReceiverStep(n: Net, cap: nat, a: Action, h: seq<Inbound.Event>)
    requires n.tracked == Inbound.Tracked(h) && Inbound.Disciplined(h)
    ensures var g := h + ReceiverEvents(n, cap, a);
            Next(n, cap, a).tracked == Inbound.Tracked(g) && Inbound.Disciplined(g)
  {
    hide Inbound.Tracked, Inbound.Disciplined, ArrivalEvents;
    if a.TakeForward? && n.fwd != [] {
      ArrivalStep(cap, n.fwd[0], a.room, h);
    } else if a.Forget? {
      Records(h, Inbound.Forgotten);
    } else {
      assert h + [] == h;
    }
  }

  /** In every run the ids tracked at the receiving end are those that its history tracks, and the
      history is disciplined: acknowledged before dispatched, and never dispatched while tracked. */
  lemma {:induction false} ReceivingHalf(cap: nat, actions: seq<Action>)
    ensures Run(Initial, cap, actions).tracked == Inbound.Tracked(ReceiverTrace(cap, actions))
    ensures Inbound.Disciplined(ReceiverTrace(cap, actions))
  {
    if actions != [] {
      var front := actions[..|actions| - 1];
      ReceivingHalf(cap, front);
      ReceiverStep(Run(Initial, cap, front), cap, actions[|actions| - 1], ReceiverTrace(cap, front));
    }
  }

  //
  // Every history is one end of a run
  //

  /** An action at one end, after the channels have come to hold anything at all. */
  datatype Turn = Turn(action: Action, fwd: seq<Forward>, bwd: seq<Backward>)

  function Brought(n: Net, t: Turn): Net { n.(fwd := t.fwd, bwd := t.bwd) }

  function Amid(cap: nat, turns: seq<Turn>): Net
  {
    if turns == [] then Initial
    else
      var n, t := Amid(cap, turns[..|turns| - 1]), turns[|turns| - 1];
      Next(Brought(n, t), cap, t.action)
  }

  /** The events at either end. */
  function SentAmid(cap: nat, turns: seq<Turn>): seq<Outbound.Event>
  {
    if turns == [] then []
    else
      var front, t := turns[..|turns| - 1], turns[|turns| - 1];
      SentAmid(cap, front) + SenderEvents(Brought(Amid(cap, front), t), t.action)
  }

  function ReceivedAmid(cap: nat, turns: seq<Turn>): seq<Inbound.Event>
  {
    if turns == [] then []
    else
      var front, t := turns[..|turns| - 1], turns[|turns| - 1];
      ReceivedAmid(cap, front) + ReceiverEvents(Brought(Amid(cap, front), t), cap, t.action)
  }

  lemma {:induction false} AmidAppend(cap: nat, turns: seq<Turn>, t: Turn)
    ensures Amid(cap, turns + [t]) == Next(Brought(Amid(cap, turns), t), cap, t.action)
    ensures SentAmid(cap, turns + [t]) == SentAmid(cap, turns) + SenderEvents(Brought(Amid(cap, turns), t), t.action)
    ensures ReceivedAmid(cap, turns + [t]) ==
            ReceivedAmid(cap, turns) + ReceiverEvents(Brought(Amid(cap, turns), t), cap, t.action)
  {
    assert (turns + [t])[..|turns|] == turns;
  }

  /** What makes the sending end do this. */
  function SenderTurn(e: Outbound.Event): Turn
  {
    match e
    case Accepted(p) => Turn(Accept(p.id, p.qos), [], [])
    case Issued(id, _) => Turn(Resend(id), [], [])
    case Got(ack) => Turn(TakeBackward(false), [], [ack])
    case GivenUp => Turn(Forget, [], [])
  }

  function SenderTurns(h: seq<Outbound.Event>): seq<Turn>
  {
    if h == [] then [] else SenderTurns(h[..|h| - 1]) + [SenderTurn(h[|h| - 1])]
  }

  /** What the protocol sees of an event: publications without their contents, repetitions not at all. */
  function Seen(e: Outbound.Event): seq<Outbound.Event>
  {
    match e
    case Accepted(p) => [Outbound.Accepted(Anonymous(p.id, p.qos))]
    case Issued(_, _) => []
    case _ => [e]
  }

  function SeenOf(h: seq<Outbound.Event>): seq<Outbound.Event>
  {
    if h == [] then [] else SeenOf(h[..|h| - 1]) + Seen(h[|h| - 1])
  }

  lemma {:induction false} SenderTurnAgrees(n: Net, cap: nat, h: seq<Outbound.Event>, e: Outbound.Event)
    requires SenderAgrees(n, Outbound.Replay(h)) && Outbound.DisciplinedAt(h + [e], |h|)
    ensures var t := SenderTurn(e);
            && SenderAgrees(Next(Brought(n, t), cap, t.action), Outbound.Replay(h + [e]))
            && SenderEvents(Brought(n, t), t.action) == Seen(e)
  {
    hide Outbound.Replay, Outbound.RightPacket, Publishable;
    assert (h + [e])[..|h|] == h;
    Outbound.ReplayAppend(h, e);
    if e.Accepted? {
      AcceptedKind(e.pub);
      AcceptAgrees(n, cap, Outbound.Replay(h), e.pub);
    }
  }

  lemma AcceptAgrees(n: Net, cap: nat, s: Outbound.Sender, p: Publication)
    requires SenderAgrees(n, s) && p.id !in s.slots && p.id != 0 && (p.qos == AT_LEAST_ONCE || p.qos == EXACTLY_ONCE)
    ensures SenderAgrees(Next(n.(fwd := [], bwd := []), cap, Accept(p.id, p.qos)),
            Outbound.Step(s, Outbound.Accepted(p)))
  {
  }

  /** A packet queued for a slot is the one that the protocol's sender repeats: the PUBREL exactly in the
      last stage. */
  lemma {:induction false} IssuedAgrees(n: Net, cap: nat, h: seq<Outbound.Event>, id: u16, packet: bytes)
    requires SenderAgrees(n, Outbound.Replay(h)) && Outbound.RightPacket(Outbound.Replay(h), id, packet)
    ensures id in n.slots && Next(n.(fwd := [], bwd := []), cap, Resend(id)).fwd == [Stored(id, n.slots[id])]
    ensures Stored(id, n.slots[id]).Rel? <==> !Outbound.IsPublish(packet)
  {
    IssuedKind(Outbound.Replay(h), id, packet);
  }

  lemma AcceptedKind(p: Publication)
    requires Publishable(p)
    ensures p.id != 0 && (p.qos == AT_LEAST_ONCE || p.qos == EXACTLY_ONCE)
  {
  }

  /** A PUBREL is repeated exactly in the last stage. */
  lemma IssuedKind(s: Outbound.Sender, id: u16, packet: bytes)
    requires Outbound.RightPacket(s, id, packet)
    ensures id in s.slots && (Outbound.IsPublish(packet) <==> s.slots[id].stage != AwaitPubcomp)
  {
    Outbound.PacketKind(s, id, packet);
  }

  /** Every history of the kind the client records is what happens at the sending end of the protocol, in
      some surroundings: the same table, the same reports and the same events. */
  lemma {:induction false} EverySenderIsHalf(cap: nat, h: seq<Outbound.Event>)
    requires Outbound.Disciplined(h)
    ensures SenderAgrees(Amid(cap, SenderTurns(h)), Outbound.Replay(h)) && SentAmid(cap, SenderTurns(h)) == SeenOf(h)
  {
    hide Outbound.Disciplined, Outbound.Replay, Outbound.DisciplinedAt, Next, SenderEvents, ReceiverEvents,
         SenderAgrees, Amid, SentAmid, ReceivedAmid, Seen, SenderTurn;
    if h == [] {
      NothingSent(cap);
    } else {
      var front, e := h[..|h| - 1], h[|h| - 1];
      Outbound.DisciplinedFront(h);
      Outbound.DisciplinedLast(h);
      EverySenderIsHalf(cap, front);
      assert front + [e] == h;
      SenderTurnAgrees(Amid(cap, SenderTurns(front)), cap, front, e);
      AmidAppend(cap, SenderTurns(front), SenderTurn(e));
    }
  }

  lemma NothingSent(cap: nat)
    ensures SenderAgrees(Amid(cap, []), Outbound.Replay([])) && SentAmid(cap, []) == []
    ensures Amid(cap, []).tracked == Inbound.Tracked([]) && ReceivedAmid(cap, []) == []
  {
  }

  /** What makes the receiving end do this; a dispatch comes with its acknowledgement. */
  function ReceiverTurn(e: Inbound.Event): seq<Turn>
  {
    match e
    case AckQueued(id) => [Turn(TakeForward(true), [Pub1(id, 0)], [])]
    case RecQueued(id) => [Turn(TakeForward(true), [Pub2(id, 0)], [])]
    case RecRepeated(id) => [Turn(TakeForward(true), [Pub2(id, 0)], [])]
    case Released(id) => [Turn(TakeForward(true), [Rel(id)], [])]
    case Forgotten => [Turn(Forget, [], [])]
    case Dispatched(_, _) => []
  }

  function ReceiverTurns(h: seq<Inbound.Event>): seq<Turn>
  {
    if h == [] then [] else ReceiverTurns(h[..|h| - 1]) + ReceiverTurn(h[|h| - 1])
  }

  /** What then happens there: a first acknowledgement and the dispatch. */
  function Meant(e: Inbound.Event): seq<Inbound.Event>
  {
    match e
    case AckQueued(id) => [e, Inbound.Dispatched(AT_LEAST_ONCE, id)]
    case RecQueued(id) => [e, Inbound.Dispatched(EXACTLY_ONCE, id)]
    case Dispatched(_, _) => []
    case _ => [e]
  }

  function MeantOf(h: seq<Inbound.Event>): seq<Inbound.Event>
  {
    if h == [] then [] else MeantOf(h[..|h| - 1]) + Meant(h[|h| - 1])
  }

  lemma {:induction false} ReceiverTurnAgrees(n: Net, cap: nat, h: seq<Inbound.Event>, e: Inbound.Event)
    requires n.tracked == Inbound.Tracked(h) && Inbound.DisciplinedAt(h + [e], |h|)
             && !e.Dispatched? && |n.tracked| < cap
    ensures var t := ReceiverTurn(e)[0];
            && Next(Brought(n, t), cap, t.action).tracked == Inbound.Tracked(h + [e])
            && ReceiverEvents(Brought(n, t), cap, t.action) == Meant(e)
  {
    assert (h + [e])[..|h|] == h;
    Inbound.TrackedAppend(h, e);
    hide Inbound.Tracked;
  }

  /** Every inbound history of the kind the client records is what happens at the receiving end of the
      protocol, in some surroundings and with a table that is large enough: it tracks the same ids and
      acknowledges the same, and that end dispatches with every first acknowledgement, where alone the
      client does. */
  lemma {:induction false} EveryReceiverIsHalf(cap: nat, h: seq<Inbound.Event>)
    requires Inbound.Disciplined(h) && |h| <= cap
    ensures Amid(cap, ReceiverTurns(h)).tracked == Inbound.Tracked(h) && |Inbound.Tracked(h)| <= |h|
    ensures ReceivedAmid(cap, ReceiverTurns(h)) == MeantOf(h)
  {
    hide Inbound.Disciplined, Inbound.Tracked, Inbound.DisciplinedAt, Next, SenderEvents, ReceiverEvents, Amid,
         SentAmid, ReceivedAmid;
    if h == [] {
      NothingSent(cap);
      NothingTracked();
    } else {
      var front, e := h[..|h| - 1], h[|h| - 1];
      assert front + [e] == h;
      DisciplinedBefore(front, e);
      EveryReceiverIsHalf(cap, front);
      Inbound.TrackedAppend(front, e);
      if e.Dispatched? {
        assert ReceiverTurns(front) + [] == ReceiverTurns(front);
        assert MeantOf(front) + [] == MeantOf(front);
      } else {
        ReceiverTurnAgrees(Amid(cap, ReceiverTurns(front)), cap, front, e);
        assert ReceiverTurn(e) == [ReceiverTurn(e)[0]];
        AmidAppend(cap, ReceiverTurns(front), ReceiverTurn(e)[0]);
      }
    }
  }

  lemma NothingTracked()
    ensures Inbound.Tracked([]) == {}
  {
  }

  lemma DisciplinedBefore(h: seq<Inbound.Event>, e: Inbound.Event)
    requires Inbound.Disciplined(h + [e])
    ensures Inbound.Disciplined(h) && Inbound.DisciplinedAt(h + [e], |h|)
  {
    forall i | 0 <= i < |h| ensures Inbound.DisciplinedAt(h, i) {
      assert Inbound.DisciplinedAt(h + [e], i);
      assert (h + [e])[..i] == h[..i];
    }
  }
}
