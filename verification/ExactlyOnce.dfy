/** The two halves of QoS 2 delivery that the client implements, joined back to back:
    the sender half (publish, handle_pubrec, handle_pubcomp, pump_retransmit) and the
    receiver half (handle_publish, handle_pubrel) of include/mqtt/client.hpp, talking
    over two FIFO channels that a lost connection empties.

    Packets are abstract here: a PUBLISH carries the identity of the publication it was
    made from. Client.dfy shows that the packet handlers move the client's tables as these
    steps do. */
module ExactlyOnce {
  import opened Types

  datatype Stage = AwaitPuback | AwaitPubrec | AwaitPubcomp
  datatype Entry = Entry(uid: nat, stage: Stage)

  datatype Forward = Pub1(id: u16, uid: nat) | Pub2(id: u16, uid: nat) | Rel(id: u16)
  datatype Backward = Ack(id: u16) | Rec(id: u16) | Comp(id: u16)

  /** `slots` is the sender's live table by packet id, `tracked` the receiver's inbound id
      table. `accepted` holds the QoS of every publication accepted so far, by identity;
      `dispatched` and `delivered` are the histories of application calls at either end. */
  datatype Net = Net(
    slots: map<u16, Entry>, tracked: set<u16>,
    fwd: seq<Forward>, bwd: seq<Backward>,
    accepted: seq<QoS>, dispatched: seq<nat>, delivered: seq<nat>)

  const Initial := Net(map[], {}, [], [], [], [], [])

  /** Everything that can happen next. `room` says whether the transmit queue of the end
      that reacts has room for its answer. */
  datatype Action =
    | Accept(id: u16, qos: QoS)
    | Resend(id: u16)
    | TakeForward(room: bool)
    | TakeBackward(room: bool)
    | Cut
    | Forget

  function StageFor(qos: QoS): Stage { if qos == AT_LEAST_ONCE then AwaitPuback else AwaitPubrec }

  /** What the slot of `id` retransmits: the PUBLISH until PUBREC, then the PUBREL. */
  function Stored(id: u16, e: Entry): Forward
  {
    match e.stage
    case AwaitPuback => Pub1(id, e.uid)
    case AwaitPubrec => Pub2(id, e.uid)
    case AwaitPubcomp => Rel(id)
  }

  /** The sender's table after a packet from the peer, and the publication it completes, if any.
      This is what the packet handlers of the client are held to. */
  function SenderSlots(slots: map<u16, Entry>, p: Backward): map<u16, Entry>
  {
    if p.id !in slots then slots
    else
      match (p, slots[p.id].stage)
      case (Ack(id), AwaitPuback) => slots - {id}
      case (Rec(id), AwaitPubrec) => slots[id := Entry(slots[id].uid, AwaitPubcomp)]
      case (Comp(id), AwaitPubcomp) => slots - {id}
      case _ => slots
  }

  function SenderCompletes(slots: map<u16, Entry>, p: Backward): Option<nat>
  {
    if p.id in slots && ((p.Ack? && slots[p.id].stage == AwaitPuback) || (p.Comp? && slots[p.id].stage == AwaitPubcomp))
    then Some(slots[p.id].uid) else None
  }

  /** A PUBREC for a publication that it can answer is followed by the PUBREL. */
  predicate SenderAnswers(slots: map<u16, Entry>, p: Backward, room: bool)
  {
    room && p.Rec? && p.id in slots && slots[p.id].stage != AwaitPuback
  }

  /** The receiver's id table after a packet, and whether the packet is handed to the application. */
  function ReceiverTracks(tracked: set<u16>, cap: nat, p: Forward, room: bool): set<u16>
  {
    match p
    case Pub1(_, _) => tracked
    case Pub2(id, _) => if id in tracked || |tracked| >= cap || !room then tracked else tracked + {id}
    case Rel(id) => if room then tracked - {id} else tracked
  }

  predicate ReceiverDispatches(tracked: set<u16>, cap: nat, p: Forward, room: bool)
  {
    match p
    case Pub1(_, _) => room
    case Pub2(id, _) => id !in tracked && |tracked| < cap && room
    case Rel(_) => false
  }

  /** The acknowledgement, if one is queued. */
  function ReceiverAnswers(tracked: set<u16>, cap: nat, p: Forward, room: bool): Option<Backward>
  {
    match p
    case Pub1(id, _) => if room then Some(Ack(id)) else None
    case Pub2(id, _) => if room && (id in tracked || |tracked| < cap) then Some(Rec(id)) else None
    case Rel(id) => if room then Some(Comp(id)) else None
  }

  function Push<T>(s: seq<T>, o: Option<T>): seq<T> { if o.Some? then s + [o.value] else s }

  function OnForward(n: Net, cap: nat, p: Forward, room: bool): Net
  {
    n.(bwd := Push(n.bwd, ReceiverAnswers(n.tracked, cap, p, room)),
       tracked := ReceiverTracks(n.tracked, cap, p, room),
       dispatched := if ReceiverDispatches(n.tracked, cap, p, room) then n.dispatched + [p.uid] else n.dispatched)
  }

  function OnBackward(n: Net, p: Backward, room: bool): Net
  {
    n.(slots := SenderSlots(n.slots, p),
       delivered := Push(n.delivered, SenderCompletes(n.slots, p)),
       fwd := if SenderAnswers(n.slots, p, room) then n.fwd + [Rel(p.id)] else n.fwd)
  }

  /** One step; an action that is not enabled changes nothing. `cap` bounds the receiver's table. */
  function Next(n: Net, cap: nat, a: Action): Net
  {
    match a
    case Accept(id, qos) =>
      if id == 0 || id in n.slots || (qos != AT_LEAST_ONCE && qos != EXACTLY_ONCE) then n
      else
        var e := Entry(|n.accepted|, StageFor(qos));
        n.(slots := n.slots[id := e], accepted := n.accepted + [qos], fwd := n.fwd + [Stored(id, e)])
    case Resend(id) => if id in n.slots then n.(fwd := n.fwd + [Stored(id, n.slots[id])]) else n
    case TakeForward(room) => if n.fwd == [] then n else OnForward(n.(fwd := n.fwd[1..]), cap, n.fwd[0], room)
    case TakeBackward(room) => if n.bwd == [] then n else OnBackward(n.(bwd := n.bwd[1..]), n.bwd[0], room)
    case Cut => n.(fwd := [], bwd := [])
    case Forget => n.(fwd := [], bwd := [], slots := map[], tracked := {})
  }

  function Run(n: Net, cap: nat, actions: seq<Action>): Net
  {
    if actions == [] then n else Next(Run(n, cap, actions[..|actions| - 1]), cap, actions[|actions| - 1])
  }

  //
  // What a channel holds about one packet id
  //

  function About(s: seq<Forward>, id: u16): seq<Forward>
  {
    if s == [] then []
    else (if s[0].id == id && !s[0].Pub1? then [s[0]] else []) + About(s[1..], id)
  }

  function Answers(s: seq<Backward>, id: u16): seq<Backward>
  {
    if s == [] then []
    else (if s[0].id == id && !s[0].Ack? then [s[0]] else []) + Answers(s[1..], id)
  }

  lemma {:induction false} AboutAppend(s: seq<Forward>, p: Forward, id: u16)
    ensures About(s + [p], id) == if p.id == id && !p.Pub1? then About(s, id) + [p] else About(s, id)
  {
    if s == [] {
      assert s + [p] == [p] && [p][1..] == [];
    } else {
      assert (s + [p])[1..] == s[1..] + [p];
      AboutAppend(s[1..], p, id);
    }
  }

  lemma {:induction false} AnswersAppend(s: seq<Backward>, p: Backward, id: u16)
    ensures Answers(s + [p], id) == if p.id == id && !p.Ack? then Answers(s, id) + [p] else Answers(s, id)
  {
    if s == [] {
      assert s + [p] == [p] && [p][1..] == [];
    } else {
      assert (s + [p])[1..] == s[1..] + [p];
      AnswersAppend(s[1..], p, id);
    }
  }

  lemma {:induction false} AboutHead(s: seq<Forward>, id: u16)
    requires s != []
    ensures if s[0].id == id && !s[0].Pub1? then About(s, id) != [] && About(s, id)[0] == s[0]
            && About(s, id)[1..] == About(s[1..], id)
            else About(s, id) == About(s[1..], id)
  {
  }

  lemma {:induction false} AnswersHead(s: seq<Backward>, id: u16)
    requires s != []
    ensures if s[0].id == id && !s[0].Ack? then Answers(s, id) != [] && Answers(s, id)[0] == s[0]
            && Answers(s, id)[1..] == Answers(s[1..], id)
            else Answers(s, id) == Answers(s[1..], id)
  {
  }

  /** How often `uid` occurs in a history. */
  function Times(history: seq<nat>, uid: nat): nat
  {
    if history == [] then 0
    else Times(history[..|history| - 1], uid) + if history[|history| - 1] == uid then 1 else 0
  }

  lemma {:induction false} TimesAppend(history: seq<nat>, x: nat, uid: nat)
    ensures Times(history + [x], uid) == Times(history, uid) + if x == uid then 1 else 0
  {
    assert (history + [x])[..|history|] == history;
  }

  //
  // The invariant, one packet id at a time
  //

  ghost predicate OnlyPubrel(w: seq<Forward>) { forall i :: 0 <= i < |w| ==> w[i].Rel? }
  ghost predicate OnlyPubcomp(v: seq<Backward>) { forall i :: 0 <= i < |v| ==> v[i].Comp? }
  ghost predicate OnlyPubrec(v: seq<Backward>) { forall i :: 0 <= i < |v| ==> v[i].Rec? }

  /** Every PUBLISH in the word is of publication `uid`. */
  ghost predicate PublishesOf(w: seq<Forward>, uid: nat) { forall i :: 0 <= i < |w| && w[i].Pub2? ==> w[i].uid == uid }
  ghost predicate OnlyPublish(w: seq<Forward>) { forall i :: 0 <= i < |w| ==> w[i].Pub2? }

  ghost predicate PubrelsThenPublishes(w: seq<Forward>) { forall i, j :: 0 <= i < j < |w| && w[i].Pub2? ==> w[j].Pub2? }
  ghost predicate PublishesThenPubrels(w: seq<Forward>) { forall i, j :: 0 <= i < j < |w| && w[i].Rel? ==> w[j].Rel? }
  ghost predicate PubcompsThenPubrecs(v: seq<Backward>) { forall i, j :: 0 <= i < j < |v| && v[i].Rec? ==> v[j].Rec? }
  ghost predicate PubrecsThenPubcomps(v: seq<Backward>) { forall i, j :: 0 <= i < j < |v| && v[i].Comp? ==> v[j].Comp? }

  /** The two channels as the conversation about one packet id allows them. Stale PUBRELs and
      PUBCOMPs of an earlier use of the id may linger, but always ahead of the current use. */
  ghost predicate WordsOk(slot: Option<Entry>, tracked: bool, w: seq<Forward>, v: seq<Backward>)
  {
    match slot
    case None => !tracked && OnlyPubrel(w) && OnlyPubcomp(v)
    case Some(e) =>
      match e.stage
      case AwaitPuback => !tracked && OnlyPubrel(w) && OnlyPubcomp(v)
      case AwaitPubrec =>
        && PublishesOf(w, e.uid)
        && if tracked then OnlyPublish(w) && PubcompsThenPubrecs(v)
           else PubrelsThenPublishes(w) && OnlyPubcomp(v)
      case AwaitPubcomp =>
        && PublishesOf(w, e.uid)
        && if tracked then PublishesThenPubrels(w) && OnlyPubrec(v)
           else OnlyPubrel(w) && PubrecsThenPubcomps(v)
  }

  function SlotOf(n: Net, id: u16): Option<Entry> { if id in n.slots then Some(n.slots[id]) else None }

  ghost predicate ConversationOk(n: Net, id: u16)
  {
    WordsOk(SlotOf(n, id), id in n.tracked, About(n.fwd, id), Answers(n.bwd, id))
  }

  /** How often an in-flight QoS 2 publication has been dispatched: exactly once as soon as the
      receiver tracks its id or PUBREC has come back, and never before. */
  ghost predicate SlotCountsOk(n: Net, id: u16)
    requires id in n.slots
  {
    var e := n.slots[id];
    && e.uid < |n.accepted|
    && n.accepted[e.uid] == (if e.stage == AwaitPuback then AT_LEAST_ONCE else EXACTLY_ONCE)
    && Times(n.delivered, e.uid) == 0
    && (e.stage != AwaitPuback ==>
          Times(n.dispatched, e.uid) == if e.stage == AwaitPubrec && id !in n.tracked then 0 else 1)
  }

  /** The verdict on one publication. */
  ghost predicate PublicationOk(n: Net, uid: nat)
    requires uid < |n.accepted|
  {
    && Times(n.delivered, uid) <= 1
    && (n.accepted[uid] == EXACTLY_ONCE ==>
          Times(n.dispatched, uid) <= 1 && Times(n.delivered, uid) <= Times(n.dispatched, uid))
  }

  ghost predicate Conversations(n: Net) { forall id: u16 :: ConversationOk(n, id) }

  ghost predicate Ledger(n: Net)
  {
    && (forall id :: id in n.slots ==> SlotCountsOk(n, id))
    && (forall i, j :: i in n.slots && j in n.slots && i != j ==> n.slots[i].uid != n.slots[j].uid)
    && (forall uid :: 0 <= uid < |n.accepted| ==> PublicationOk(n, uid))
    && (forall uid: nat :: uid >= |n.accepted| ==> Times(n.dispatched, uid) == 0 && Times(n.delivered, uid) == 0)
    && (forall i :: 0 <= i < |n.fwd| && n.fwd[i].Pub1? ==>
          n.fwd[i].uid < |n.accepted| && n.accepted[n.fwd[i].uid] == AT_LEAST_ONCE)
  }

  ghost predicate Inv(n: Net) { Conversations(n) && Ledger(n) }

  //
  // What each step does to the conversation about one id
  //

  lemma WordsAfterSend(e: Entry, tracked: bool, w: seq<Forward>, v: seq<Backward>, p: Forward)
    requires WordsOk(Some(e), tracked, w, v) && !p.Pub1?
    requires if e.stage == AwaitPubrec then p.Pub2? && p.uid == e.uid else e.stage == AwaitPubcomp && p.Rel?
    ensures WordsOk(Some(e), tracked, w + [p], v)
  {
  }

  /** A PUBLISH at the head of the channel belongs to the slot's current publication. */
  lemma WordsAfterPublish(slot: Option<Entry>, tracked: bool, w: seq<Forward>, v: seq<Backward>, p: Backward)
    requires WordsOk(slot, tracked, w, v) && w != [] && w[0].Pub2? && p.Rec?
    ensures slot.Some? && slot.value.uid == w[0].uid && slot.value.stage != AwaitPuback
    ensures !tracked ==> slot.value.stage == AwaitPubrec
    ensures WordsOk(slot, tracked, w[1..], v) && WordsOk(slot, true, w[1..], v + [p])
  {
  }

  lemma WordsAfterPubrel(slot: Option<Entry>, tracked: bool, w: seq<Forward>, v: seq<Backward>, p: Backward)
    requires WordsOk(slot, tracked, w, v) && w != [] && w[0].Rel? && p.Comp?
    ensures tracked ==> slot.Some? && slot.value.stage == AwaitPubcomp
    ensures WordsOk(slot, tracked, w[1..], v) && WordsOk(slot, false, w[1..], v + [p])
  {
  }

  lemma WordsAfterPubrec(e: Entry, tracked: bool, w: seq<Forward>, v: seq<Backward>, p: Forward)
    requires WordsOk(Some(e), tracked, w, v) && v != [] && v[0].Rec? && p.Rel?
    ensures e.stage == AwaitPubrec ==> tracked
    ensures e.stage != AwaitPuback
    ensures WordsOk(Some(Entry(e.uid, AwaitPubcomp)), tracked, w, v[1..])
    ensures WordsOk(Some(Entry(e.uid, AwaitPubcomp)), tracked, w + [p], v[1..])
  {
  }

  lemma WordsAfterPubcomp(e: Entry, tracked: bool, w: seq<Forward>, v: seq<Backward>)
    requires WordsOk(Some(e), tracked, w, v) && v != [] && v[0].Comp?
    ensures e.stage == AwaitPubcomp ==> !tracked && WordsOk(None, tracked, w, v[1..])
    ensures e.stage != AwaitPubcomp ==> WordsOk(Some(e), tracked, w, v[1..])
  {
  }

  lemma WordsAfterStray(tracked: bool, w: seq<Forward>, v: seq<Backward>)
    requires WordsOk(None, tracked, w, v) && v != []
    ensures WordsOk(None, tracked, w, v[1..])
  {
  }

  lemma WordsAfterPuback(e: Entry, tracked: bool, w: seq<Forward>, v: seq<Backward>)
    requires WordsOk(Some(e), tracked, w, v) && e.stage == AwaitPuback
    ensures WordsOk(None, tracked, w, v)
  {
  }

  //
  // Every step keeps the invariant
  //

  lemma AcceptConversation(n: Net, cap: nat, x: u16, qos: QoS, id: u16)
    requires Conversations(n)
    ensures ConversationOk(Next(n, cap, Accept(x, qos)), id)
  {
    assert ConversationOk(n, id);
    AboutAppend(n.fwd, Stored(x, Entry(|n.accepted|, StageFor(qos))), id);
  }

  lemma AcceptLedger(n: Net, cap: nat, x: u16, qos: QoS)
    requires Inv(n)
    ensures Ledger(Next(n, cap, Accept(x, qos)))
  {
    var m := Next(n, cap, Accept(x, qos));
    if m != n {
      assert ConversationOk(n, x);
      forall id | id in m.slots ensures SlotCountsOk(m, id) {
        if id != x { assert SlotCountsOk(n, id); }
      }
      forall i, j | i in m.slots && j in m.slots && i != j ensures m.slots[i].uid != m.slots[j].uid {
        if i != x { assert SlotCountsOk(n, i); }
        if j != x { assert SlotCountsOk(n, j); }
      }
      forall uid | 0 <= uid < |m.accepted| ensures PublicationOk(m, uid) {
        if uid < |n.accepted| { assert PublicationOk(n, uid); }
      }
    }
  }

  lemma ResendKeeps(n: Net, cap: nat, x: u16)
    requires Inv(n)
    ensures Inv(Next(n, cap, Resend(x)))
  {
    var m := Next(n, cap, Resend(x));
    if x in n.slots {
      var p := Stored(x, n.slots[x]);
      forall id: u16 ensures ConversationOk(m, id) {
        assert ConversationOk(n, id);
        AboutAppend(n.fwd, p, id);
        if id == x && !p.Pub1? {
          WordsAfterSend(n.slots[x], x in n.tracked, About(n.fwd, x), Answers(n.bwd, x), p);
        }
      }
      assert SlotCountsOk(n, x);
      LedgerFrame(n, m);
    }
  }

  /** The ledger does not look at the channels, except for the QoS 1 packets under way. */
  lemma LedgerFrame(n: Net, m: Net)
    requires Ledger(n)
    requires m.slots == n.slots && m.tracked == n.tracked && m.accepted == n.accepted
    requires m.dispatched == n.dispatched && m.delivered == n.delivered
    requires forall i :: 0 <= i < |m.fwd| && m.fwd[i].Pub1? ==>
                           m.fwd[i].uid < |m.accepted| && m.accepted[m.fwd[i].uid] == AT_LEAST_ONCE
    ensures Ledger(m)
  {
    forall id | id in m.slots ensures SlotCountsOk(m, id) { assert SlotCountsOk(n, id); }
    forall uid | 0 <= uid < |m.accepted| ensures PublicationOk(m, uid) { assert PublicationOk(n, uid); }
  }

  /** A packet reaches the receiver: what it does to the conversation it belongs to. */
  lemma ForwardSame(n: Net, cap: nat, room: bool)
    requires n.fwd != [] && ConversationOk(n, n.fwd[0].id)
    ensures ConversationOk(Next(n, cap, TakeForward(room)), n.fwd[0].id)
  {
    hide WordsOk;
    hide About;
    hide Answers;
    var p, id := n.fwd[0], n.fwd[0].id;
    AboutHead(n.fwd, id);
    var w, v := About(n.fwd, id), Answers(n.bwd, id);
    match p
    case Pub1(_, _) => AnswersAppend(n.bwd, Ack(id), id);
    case Pub2(_, _) =>
      AnswersAppend(n.bwd, Rec(id), id);
      WordsAfterPublish(SlotOf(n, id), id in n.tracked, w, v, Rec(id));
    case Rel(_) =>
      AnswersAppend(n.bwd, Comp(id), id);
      WordsAfterPubrel(SlotOf(n, id), id in n.tracked, w, v, Comp(id));
  }

  /** ... and that it leaves every other conversation alone. */
  lemma ForwardOther(n: Net, cap: nat, room: bool, id: u16)
    requires n.fwd != [] && n.fwd[0].id != id && ConversationOk(n, id)
    ensures ConversationOk(Next(n, cap, TakeForward(room)), id)
  {
    hide WordsOk;
    hide About;
    hide Answers;
    AboutHead(n.fwd, id);
    AnswersAppend(n.bwd, Ack(n.fwd[0].id), id);
    AnswersAppend(n.bwd, Rec(n.fwd[0].id), id);
    AnswersAppend(n.bwd, Comp(n.fwd[0].id), id);
  }

  lemma PublishArrivesLedger(n: Net, cap: nat, room: bool)
    requires Inv(n) && n.fwd != [] && n.fwd[0].Pub2?
    ensures Ledger(Next(n, cap, TakeForward(room)))
  {
    hide About;
    hide Answers;
    var x, u, m := n.fwd[0].id, n.fwd[0].uid, Next(n, cap, TakeForward(room));
    assert ConversationOk(n, x);
    AboutHead(n.fwd, x);
    WordsAfterPublish(SlotOf(n, x), x in n.tracked, About(n.fwd, x), Answers(n.bwd, x), Rec(x));
    assert SlotCountsOk(n, x);
    if x in n.tracked || |n.tracked| >= cap || !room {
      LedgerFrame(n, m);
    } else {
      forall uid: nat ensures Times(m.dispatched, uid) == Times(n.dispatched, uid) + if u == uid then 1 else 0 {
        TimesAppend(n.dispatched, u, uid);
      }
      forall id | id in m.slots ensures SlotCountsOk(m, id) { assert SlotCountsOk(n, id); }
      forall uid | 0 <= uid < |m.accepted| ensures PublicationOk(m, uid) { assert PublicationOk(n, uid); }
    }
  }

  lemma PubrelArrivesLedger(n: Net, cap: nat, room: bool)
    requires Inv(n) && n.fwd != [] && n.fwd[0].Rel?
    ensures Ledger(Next(n, cap, TakeForward(room)))
  {
    var x, m := n.fwd[0].id, Next(n, cap, TakeForward(room));
    assert ConversationOk(n, x);
    AboutHead(n.fwd, x);
    WordsAfterPubrel(SlotOf(n, x), x in n.tracked, About(n.fwd, x), Answers(n.bwd, x), Comp(x));
    forall id | id in m.slots ensures SlotCountsOk(m, id) { assert SlotCountsOk(n, id); }
    forall uid | 0 <= uid < |m.accepted| ensures PublicationOk(m, uid) { assert PublicationOk(n, uid); }
  }

  /** A QoS 1 PUBLISH reaches the receiver: nothing of QoS 2 is touched. */
  lemma AtLeastOnceArrivesLedger(n: Net, cap: nat, room: bool)
    requires Inv(n) && n.fwd != [] && n.fwd[0].Pub1?
    ensures Ledger(Next(n, cap, TakeForward(room)))
  {
    var u, m := n.fwd[0].uid, Next(n, cap, TakeForward(room));
    forall uid: nat ensures Times(n.dispatched + [u], uid) == Times(n.dispatched, uid) + if u == uid then 1 else 0 {
      TimesAppend(n.dispatched, u, uid);
    }
    forall id | id in m.slots ensures SlotCountsOk(m, id) { assert SlotCountsOk(n, id); }
    forall uid | 0 <= uid < |m.accepted| ensures PublicationOk(m, uid) { assert PublicationOk(n, uid); }
  }

  /** A packet reaches the sender. */
  lemma BackwardSame(n: Net, cap: nat, room: bool)
    requires n.bwd != [] && ConversationOk(n, n.bwd[0].id)
    ensures ConversationOk(Next(n, cap, TakeBackward(room)), n.bwd[0].id)
  {
    hide WordsOk;
    hide About;
    hide Answers;
    var p, id := n.bwd[0], n.bwd[0].id;
    AnswersHead(n.bwd, id);
    AboutAppend(n.fwd, Rel(id), id);
    var w, v := About(n.fwd, id), Answers(n.bwd, id);
    if id in n.slots {
      match p
      case Rec(_) => WordsAfterPubrec(n.slots[id], id in n.tracked, w, v, Rel(id));
      case Comp(_) => WordsAfterPubcomp(n.slots[id], id in n.tracked, w, v);
      case Ack(_) =>
        if n.slots[id].stage == AwaitPuback { WordsAfterPuback(n.slots[id], id in n.tracked, w, v); }
    } else if !p.Ack? {
      WordsAfterStray(id in n.tracked, w, v);
    }
  }

  lemma BackwardOther(n: Net, cap: nat, room: bool, id: u16)
    requires n.bwd != [] && n.bwd[0].id != id && ConversationOk(n, id)
    ensures ConversationOk(Next(n, cap, TakeBackward(room)), id)
  {
    hide WordsOk;
    hide About;
    hide Answers;
    AnswersHead(n.bwd, id);
    AboutAppend(n.fwd, Rel(n.bwd[0].id), id);
  }

  lemma PubrecArrivesLedger(n: Net, cap: nat, room: bool)
    requires Inv(n) && n.bwd != [] && n.bwd[0].Rec?
    ensures Ledger(Next(n, cap, TakeBackward(room)))
  {
    hide About;
    hide Answers;
    var x, m := n.bwd[0].id, Next(n, cap, TakeBackward(room));
    assert ConversationOk(n, x);
    AnswersHead(n.bwd, x);
    if x in n.slots {
      WordsAfterPubrec(n.slots[x], x in n.tracked, About(n.fwd, x), Answers(n.bwd, x), Rel(x));
      assert SlotCountsOk(n, x);
    }
    forall id | id in m.slots ensures SlotCountsOk(m, id) { assert SlotCountsOk(n, id); }
    forall uid | 0 <= uid < |m.accepted| ensures PublicationOk(m, uid) { assert PublicationOk(n, uid); }
  }

  /** A slot that completes leaves the table, and its publication is reported. */
  lemma CompletionLedger(n: Net, m: Net, x: u16)
    requires Ledger(n) && ConversationOk(n, x) && x in n.slots
    requires n.slots[x].stage != AwaitPubrec
    requires m == n.(slots := n.slots - {x}, delivered := n.delivered + [n.slots[x].uid], bwd := m.bwd)
    ensures Ledger(m)
  {
    var u := n.slots[x].uid;
    assert SlotCountsOk(n, x);
    forall uid: nat ensures Times(m.delivered, uid) == Times(n.delivered, uid) + if u == uid then 1 else 0 {
      TimesAppend(n.delivered, u, uid);
    }
    forall id | id in m.slots ensures SlotCountsOk(m, id) { assert SlotCountsOk(n, id); }
    forall uid | 0 <= uid < |m.accepted| ensures PublicationOk(m, uid) { assert PublicationOk(n, uid); }
  }

  lemma CompletionArrivesLedger(n: Net, cap: nat, room: bool)
    requires Inv(n) && n.bwd != [] && !n.bwd[0].Rec?
    ensures Ledger(Next(n, cap, TakeBackward(room)))
  {
    var p := n.bwd[0];
    assert ConversationOk(n, p.id);
    if p.id in n.slots && (if p.Ack? then n.slots[p.id].stage == AwaitPuback else n.slots[p.id].stage == AwaitPubcomp) {
      CompletionLedger(n, Next(n, cap, TakeBackward(room)), p.id);
    } else {
      LedgerFrame(n, Next(n, cap, TakeBackward(room)));
    }
  }

  lemma CutKeeps(n: Net, cap: nat, a: Action)
    requires Inv(n) && (a == Cut || a == Forget)
    ensures Inv(Next(n, cap, a))
  {
    var m := Next(n, cap, a);
    forall id: u16 ensures ConversationOk(m, id) { assert ConversationOk(n, id); }
    forall id | id in m.slots ensures SlotCountsOk(m, id) { assert SlotCountsOk(n, id); }
    forall uid | 0 <= uid < |m.accepted| ensures PublicationOk(m, uid) { assert PublicationOk(n, uid); }
  }

  lemma NextKeeps(n: Net, cap: nat, a: Action)
    requires Inv(n)
    ensures Inv(Next(n, cap, a))
  {
    match a
    case Accept(x, qos) =>
      forall id: u16 ensures ConversationOk(Next(n, cap, a), id) { AcceptConversation(n, cap, x, qos, id); }
      AcceptLedger(n, cap, x, qos);
    case Resend(x) => ResendKeeps(n, cap, x);
    case TakeForward(room) =>
      if n.fwd != [] {
        forall id: u16 ensures ConversationOk(Next(n, cap, a), id) {
          assert ConversationOk(n, id);
          if id == n.fwd[0].id { ForwardSame(n, cap, room); } else { ForwardOther(n, cap, room, id); }
        }
        match n.fwd[0]
        case Pub1(_, _) => AtLeastOnceArrivesLedger(n, cap, room);
        case Pub2(_, _) => PublishArrivesLedger(n, cap, room);
        case Rel(_) => PubrelArrivesLedger(n, cap, room);
      }
    case TakeBackward(room) =>
      if n.bwd != [] {
        forall id: u16 ensures ConversationOk(Next(n, cap, a), id) {
          assert ConversationOk(n, id);
          if id == n.bwd[0].id { BackwardSame(n, cap, room); } else { BackwardOther(n, cap, room, id); }
        }
        if n.bwd[0].Rec? {
          PubrecArrivesLedger(n, cap, room);
        } else {
          CompletionArrivesLedger(n, cap, room);
        }
      }
    case Cut => CutKeeps(n, cap, a);
    case Forget => CutKeeps(n, cap, a);
  }

  lemma {:induction false} RunKeeps(cap: nat, actions: seq<Action>)
    ensures Inv(Run(Initial, cap, actions))
  {
    if actions == [] {
      forall id: u16 ensures ConversationOk(Initial, id) {}
    } else {
      RunKeeps(cap, actions[..|actions| - 1]);
      NextKeeps(Run(Initial, cap, actions[..|actions| - 1]), cap, actions[|actions| - 1]);
    }
  }

  /** Exactly once, over every run: whatever is published, lost, repeated, refused for want of
      room, cut off or reconnected, no accepted QoS 2 publication is dispatched twice, and one
      that the sender reported delivered has been dispatched exactly once. Completion itself is
      reported at most once at either QoS. */
  lemma {:induction false} ExactlyOnceDelivery(cap: nat, actions: seq<Action>, uid: nat)
    requires var n := Run(Initial, cap, actions); uid < |n.accepted|
    ensures var n := Run(Initial, cap, actions);
            && Times(n.delivered, uid) <= 1
            && (n.accepted[uid] == EXACTLY_ONCE ==>
                  && Times(n.dispatched, uid) <= 1
                  && (Times(n.delivered, uid) == 1 ==> Times(n.dispatched, uid) == 1))
  {
    RunKeeps(cap, actions);
    assert PublicationOk(Run(Initial, cap, actions), uid);
  }

  //
  // Forgetting at one end only
  //

  predicate WithinCapacity(n: Net, cap: nat) { 0 !in n.slots && |n.tracked| <= cap }

  lemma {:induction false} RunWithinCapacity(cap: nat, actions: seq<Action>)
    ensures WithinCapacity(Run(Initial, cap, actions), cap)
  {
    if actions != [] {
      var n := Run(Initial, cap, actions[..|actions| - 1]);
      RunWithinCapacity(cap, actions[..|actions| - 1]);
      match actions[|actions| - 1]
      case TakeForward(room) =>
        if n.fwd != [] && n.fwd[0].Rel? {
          assert |n.tracked - {n.fwd[0].id}| <= |n.tracked|;
        }
      case _ =>
    }
  }

  /** A broker that lost the session on its side while the client kept its inbound ids
      (CONNACK with session_present 0 on a CleanSession 0 connection). */
  function SenderForgets(n: Net): Net { n.(fwd := [], bwd := [], slots := map[]) }

  /** A broker that lost its inbound ids while the client, as sender, kept its slots. */
  function ReceiverForgets(n: Net): Net { n.(fwd := [], bwd := [], tracked := {}) }

  /** What both ends promise about one publication. */
  ghost predicate Promised(n: Net, uid: nat)
    requires uid < |n.accepted|
  {
    n.accepted[uid] == EXACTLY_ONCE ==>
      Times(n.dispatched, uid) <= 1 && (Times(n.delivered, uid) >= 1 ==> Times(n.dispatched, uid) == 1)
  }

  ghost predicate AlwaysPromised(n: Net, cap: nat)
  {
    forall more: seq<Action>, uid: nat ::
      uid < |Run(n, cap, more).accepted| ==> Promised(Run(n, cap, more), uid)
  }

  lemma {:induction false} RunFromKeeps(n: Net, cap: nat, more: seq<Action>)
    requires Inv(n)
    ensures Inv(Run(n, cap, more))
  {
    if more != [] {
      RunFromKeeps(n, cap, more[..|more| - 1]);
      NextKeeps(Run(n, cap, more[..|more| - 1]), cap, more[|more| - 1]);
    }
  }

  lemma InvPromises(n: Net, cap: nat)
    requires Inv(n)
    ensures AlwaysPromised(n, cap)
  {
    forall more: seq<Action>, uid: nat | uid < |Run(n, cap, more).accepted| ensures Promised(Run(n, cap, more), uid) {
      RunFromKeeps(n, cap, more);
      assert PublicationOk(Run(n, cap, more), uid);
    }
  }

  lemma {:induction false} RunOne(n: Net, cap: nat, more: seq<Action>, a: Action)
    ensures Run(n, cap, more + [a]) == Next(Run(n, cap, more), cap, a)
  {
    assert (more + [a])[..|more|] == more;
  }

  /** A publication that meets a stale inbound id is acknowledged to the end and never dispatched. */
  lemma StaleIdSwallows(n: Net, cap: nat, x: u16)
    requires x != 0 && x in n.tracked && n.slots == map[] && n.fwd == [] && n.bwd == []
    requires Times(n.dispatched, |n.accepted|) == 0
    ensures exists more: seq<Action> ::
              var m := Run(n, cap, more); |n.accepted| < |m.accepted| && !Promised(m, |n.accepted|)
  {
    hide Run, Next, Times;
    var more := [Accept(x, EXACTLY_ONCE), TakeForward(true), TakeBackward(true), TakeForward(true), TakeBackward(true)];
    RunOfFive(n, cap, more[0], more[1], more[2], more[3], more[4]);
    var m := Swallowed(n, cap, x);
    assert Run(n, cap, more) == m;
    TimesAppend(n.delivered, |n.accepted|, |n.accepted|);
  }

  lemma Swallowed(n: Net, cap: nat, x: u16) returns (m: Net)
    requires x != 0 && x in n.tracked && n.slots == map[] && n.fwd == [] && n.bwd == []
    ensures m == Next(Next(Next(Next(Next(n, cap, Accept(x, EXACTLY_ONCE)), cap, TakeForward(true)), cap,
                                TakeBackward(true)), cap, TakeForward(true)), cap, TakeBackward(true))
    ensures m.accepted == n.accepted + [EXACTLY_ONCE]
    ensures m.delivered == n.delivered + [|n.accepted|] && m.dispatched == n.dispatched
  {
    m := Next(n, cap, Accept(x, EXACTLY_ONCE));
    assert m.fwd == [Pub2(x, |n.accepted|)];
    m := Next(m, cap, TakeForward(true));
    assert m.fwd == [] && m.bwd == [Rec(x)];
    m := Next(m, cap, TakeBackward(true));
    assert m.bwd == [] && m.fwd == [Rel(x)];
    m := Next(m, cap, TakeForward(true));
    assert m.fwd == [] && m.bwd == [Comp(x)];
    m := Next(m, cap, TakeBackward(true));
  }

  lemma {:induction false} RunNone(n: Net, cap: nat)
    ensures Run(n, cap, []) == n
  {
  }

  lemma {:induction false} RunOfFive(n: Net, cap: nat, a: Action, b: Action, c: Action, d: Action, e: Action)
    ensures Run(n, cap, [a, b, c, d, e]) == Next(Next(Next(Next(Next(n, cap, a), cap, b), cap, c), cap, d), cap, e)
  {
    hide Next;
    assert [] + [a] == [a] && [a] + [b] == [a, b] && [a, b] + [c] == [a, b, c];
    assert [a, b, c] + [d] == [a, b, c, d] && [a, b, c, d] + [e] == [a, b, c, d, e];
    RunNone(n, cap);
    hide Run;
    RunOne(n, cap, [], a);
    RunOne(n, cap, [a], b);
    RunOne(n, cap, [a, b], c);
    RunOne(n, cap, [a, b, c], d);
    RunOne(n, cap, [a, b, c, d], e);
  }

  /** Losing the session at the sending end only is safe exactly when the receiver tracks no id. */
  lemma {:induction false} SenderForgetsSafely(cap: nat, actions: seq<Action>)
    ensures var n := Run(Initial, cap, actions);
            AlwaysPromised(SenderForgets(n), cap) <==> n.tracked == {}
  {
    var n := Run(Initial, cap, actions);
    var m := SenderForgets(n);
    RunKeeps(cap, actions);
    RunWithinCapacity(cap, actions);
    if n.tracked == {} {
      ForgottenSenderInv(n);
      InvPromises(m, cap);
    } else {
      var x :| x in n.tracked;
      assert ConversationOk(n, x);
      StaleIdSwallows(m, cap, x);
    }
  }

  lemma ForgottenSenderInv(n: Net)
    requires Inv(n) && n.tracked == {}
    ensures Inv(SenderForgets(n))
  {
    var m := SenderForgets(n);
    forall id: u16 ensures ConversationOk(m, id) {}
    forall uid | 0 <= uid < |m.accepted| ensures PublicationOk(m, uid) { assert PublicationOk(n, uid); }
  }

  lemma ForgottenReceiverInv(n: Net)
    requires Inv(n)
    requires forall id :: id in n.slots && n.slots[id].stage == AwaitPubrec ==> id !in n.tracked
    ensures Inv(ReceiverForgets(n))
  {
    var m := ReceiverForgets(n);
    forall id: u16 ensures ConversationOk(m, id) {}
    forall id | id in m.slots ensures SlotCountsOk(m, id) { assert SlotCountsOk(n, id); }
    forall uid | 0 <= uid < |m.accepted| ensures PublicationOk(m, uid) { assert PublicationOk(n, uid); }
  }

  /** Losing the inbound ids at the receiving end only is safe exactly when every dispatched
      publication has already had its PUBREC handled by the sender. */
  lemma {:induction false} ReceiverForgetsSafely(cap: nat, actions: seq<Action>)
    ensures var n := Run(Initial, cap, actions);
            AlwaysPromised(ReceiverForgets(n), cap) <==>
            forall id :: id in n.slots && n.slots[id].stage == AwaitPubrec ==> id !in n.tracked
  {
    var n := Run(Initial, cap, actions);
    var m := ReceiverForgets(n);
    RunKeeps(cap, actions);
    RunWithinCapacity(cap, actions);
    if forall id :: id in n.slots && n.slots[id].stage == AwaitPubrec ==> id !in n.tracked {
      ForgottenReceiverInv(n);
      InvPromises(m, cap);
    } else {
      var x :| x in n.slots && n.slots[x].stage == AwaitPubrec && x in n.tracked;
      assert SlotCountsOk(n, x);
      assert |n.tracked| > 0;
      UntrackedRepeats(m, cap, x);
    }
  }

  /** A publication whose id the receiver lost is dispatched again when its PUBLISH is repeated. */
  lemma UntrackedRepeats(n: Net, cap: nat, x: u16)
    requires x in n.slots && n.slots[x].stage == AwaitPubrec && n.tracked == {} && cap > 0
    requires n.fwd == [] && n.slots[x].uid < |n.accepted| && n.accepted[n.slots[x].uid] == EXACTLY_ONCE
    requires Times(n.dispatched, n.slots[x].uid) == 1
    ensures !AlwaysPromised(n, cap)
  {
    var u := n.slots[x].uid;
    var n1 := Next(n, cap, Resend(x));
    assert n1.fwd == [Pub2(x, u)];
    var n2 := Next(n1, cap, TakeForward(true));
    assert n2.dispatched == n.dispatched + [u];
    TimesAppend(n.dispatched, u, u);
    RunOne(n, cap, [], Resend(x));
    RunOne(n, cap, [Resend(x)], TakeForward(true));
    assert Run(n, cap, [Resend(x)] + [TakeForward(true)]) == n2;
    assert !Promised(n2, u);
  }
}
