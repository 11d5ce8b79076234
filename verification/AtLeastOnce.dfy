/** QoS 1 on the protocol of ExactlyOnce.dfy. A PUBACK names only a packet id, so one that answers
    an older publication completes a newer one that was given the same id. A publication is sure to
    be dispatched before it is reported delivered exactly when nothing of that kind was under way
    when it was accepted. */
module AtLeastOnce {
  import opened Types
  import opened ExactlyOnce

  /** Neither channel holds a QoS 1 packet under this id. */
  ghost predicate NothingUnderWay(n: Net, x: u16)
  {
    && (forall i :: 0 <= i < |n.fwd| && n.fwd[i].Pub1? ==> n.fwd[i].id != x)
    && (forall j :: 0 <= j < |n.bwd| && n.bwd[j].Ack? ==> n.bwd[j].id != x)
  }

  /** Whatever happens next, publication u is not reported delivered without having been dispatched. */
  ghost predicate NeverHollow(n: Net, cap: nat, u: nat)
  {
    forall more: seq<Action> :: Times(Run(n, cap, more).delivered, u) >= 1 ==>
          Times(Run(n, cap, more).dispatched, u) >= 1
  }

  //
  // Safe when nothing is under way
  //

  ghost predicate Unowned(n: Net, u: nat) { forall id :: id in n.slots ==> n.slots[id].uid != u }

  /** Publication u holds the slot of x, and everything under way for x at QoS 1 is its own. */
  ghost predicate Waiting(n: Net, x: u16, u: nat)
  {
    && x in n.slots && n.slots[x] == Entry(u, AwaitPuback)
    && (forall id :: id in n.slots && id != x ==> n.slots[id].uid != u)
    && (forall i :: 0 <= i < |n.fwd| && n.fwd[i].Pub1? && n.fwd[i].id == x ==> n.fwd[i].uid == u)
    && (forall j :: 0 <= j < |n.bwd| && n.bwd[j].Ack? ==> n.bwd[j].id != x)
  }

  ghost predicate Owed(n: Net, x: u16, u: nat)
  {
    || Times(n.dispatched, u) >= 1
    || (Times(n.delivered, u) == 0 && u < |n.accepted| && (Waiting(n, x, u) || Unowned(n, u)))
  }

  lemma WaitingForward(n: Net, cap: nat, x: u16, u: nat, room: bool)
    requires Waiting(n, x, u) && n.fwd != [] && !(n.fwd[0].Pub1? && n.fwd[0].id == x && room)
    ensures Waiting(Next(n, cap, TakeForward(room)), x, u)
  {
    var m := Next(n, cap, TakeForward(room));
    assert m.fwd == n.fwd[1..] && m.slots == n.slots;
    assert |m.bwd| <= |n.bwd| + 1 && m.bwd[..|n.bwd|] == n.bwd;
  }

  lemma OwedForward(n: Net, cap: nat, x: u16, u: nat, room: bool)
    requires Owed(n, x, u)
    ensures Owed(Next(n, cap, TakeForward(room)), x, u)
  {
    var m := Next(n, cap, TakeForward(room));
    if n.fwd != [] {
      var p := n.fwd[0];
      if !p.Rel? { TimesAppend(n.dispatched, p.uid, u); }
      hide Times;
      if Waiting(n, x, u) && !(p.Pub1? && p.id == x && room) { WaitingForward(n, cap, x, u, room); }
      hide Waiting;
      assert m.slots == n.slots && m.delivered == n.delivered && m.accepted == n.accepted;
    }
  }

  lemma WaitingBackward(n: Net, cap: nat, x: u16, u: nat, room: bool)
    requires Waiting(n, x, u) && n.bwd != []
    ensures Waiting(Next(n, cap, TakeBackward(room)), x, u)
  {
    var m := Next(n, cap, TakeBackward(room));
    assert m.bwd == n.bwd[1..] && m.slots.Keys <= n.slots.Keys;
    assert |m.fwd| <= |n.fwd| + 1 && m.fwd[..|n.fwd|] == n.fwd;
  }

  lemma OwedBackward(n: Net, cap: nat, x: u16, u: nat, room: bool)
    requires Owed(n, x, u)
    ensures Owed(Next(n, cap, TakeBackward(room)), x, u)
  {
    var m := Next(n, cap, TakeBackward(room));
    if n.bwd != [] {
      var p := n.bwd[0];
      if p.id in n.slots { TimesAppend(n.delivered, n.slots[p.id].uid, u); }
      hide Times;
      assert m.dispatched == n.dispatched && m.accepted == n.accepted;
      if Waiting(n, x, u) { WaitingBackward(n, cap, x, u, room); }
    }
  }

  lemma OwedNext(n: Net, cap: nat, x: u16, u: nat, a: Action)
    requires Owed(n, x, u)
    ensures Owed(Next(n, cap, a), x, u)
  {
    match a
    case TakeForward(room) => OwedForward(n, cap, x, u, room);
    case TakeBackward(room) => OwedBackward(n, cap, x, u, room);
    case _ =>
  }

  lemma {:induction false} OwedRun(n: Net, cap: nat, x: u16, u: nat, more: seq<Action>)
    requires Owed(n, x, u)
    ensures Owed(Run(n, cap, more), x, u)
  {
    if more != [] {
      OwedRun(n, cap, x, u, more[..|more| - 1]);
      OwedNext(Run(n, cap, more[..|more| - 1]), cap, x, u, more[|more| - 1]);
    }
  }

  //
  // Identities
  //

  ghost predicate AllBelow(h: seq<nat>, k: nat) { forall i :: 0 <= i < |h| ==> h[i] < k }

  /** Every identity in sight belongs to an accepted publication. */
  ghost predicate Known(n: Net)
  {
    && AllBelow(n.dispatched, |n.accepted|) && AllBelow(n.delivered, |n.accepted|)
    && (forall id :: id in n.slots ==> n.slots[id].uid < |n.accepted|)
    && (forall i :: 0 <= i < |n.fwd| && !n.fwd[i].Rel? ==> n.fwd[i].uid < |n.accepted|)
  }

  lemma KnownForward(n: Net, cap: nat, room: bool)
    requires Known(n)
    ensures Known(Next(n, cap, TakeForward(room)))
  {
    if n.fwd != [] {
      var m := Next(n, cap, TakeForward(room));
      assert m.fwd == n.fwd[1..] && m.slots == n.slots && m.accepted == n.accepted && m.delivered == n.delivered;
    }
  }

  lemma KnownBackward(n: Net, cap: nat, room: bool)
    requires Known(n)
    ensures Known(Next(n, cap, TakeBackward(room)))
  {
    if n.bwd != [] {
      var m := Next(n, cap, TakeBackward(room));
      assert m.dispatched == n.dispatched && m.accepted == n.accepted;
      assert |m.fwd| <= |n.fwd| + 1 && m.fwd[..|n.fwd|] == n.fwd;
    }
  }

  lemma KnownNext(n: Net, cap: nat, a: Action)
    requires Known(n)
    ensures Known(Next(n, cap, a))
  {
    match a
    case TakeForward(room) => KnownForward(n, cap, room);
    case TakeBackward(room) => KnownBackward(n, cap, room);
    case _ =>
  }

  lemma {:induction false} RunKnown(cap: nat, actions: seq<Action>)
    ensures Known(Run(Initial, cap, actions))
  {
    if actions != [] {
      RunKnown(cap, actions[..|actions| - 1]);
      KnownNext(Run(Initial, cap, actions[..|actions| - 1]), cap, actions[|actions| - 1]);
    }
  }

  lemma {:induction false} TimesOfNew(h: seq<nat>, u: nat)
    requires AllBelow(h, u)
    ensures Times(h, u) == 0
  {
    if h != [] { TimesOfNew(h[..|h| - 1], u); }
  }

  //
  // Unsafe when something is
  //

  /** Some continuation reports u delivered without dispatching it. */
  ghost predicate Hollow(n: Net, cap: nat, u: nat)
  {
    exists more: seq<Action> :: Times(Run(n, cap, more).delivered, u) >= 1
        && Times(Run(n, cap, more).dispatched, u) == 0
  }

  lemma {:induction false} RunFirst(n: Net, cap: nat, a: Action, more: seq<Action>)
    ensures Run(n, cap, [a] + more) == Run(Next(n, cap, a), cap, more)
  {
    if more == [] {
      assert [a] + more == [a];
      assert [a][..0] == [];
    } else {
      var front := more[..|more| - 1];
      RunFirst(n, cap, a, front);
      assert ([a] + more)[..|more|] == [a] + front;
    }
  }

  lemma HollowLater(n: Net, cap: nat, u: nat, a: Action)
    requires Hollow(Next(n, cap, a), cap, u)
    ensures Hollow(n, cap, u)
  {
    var m := Next(n, cap, a);
    var more :| Times(Run(m, cap, more).delivered, u) >= 1 && Times(Run(m, cap, more).dispatched, u) == 0;
    RunFirst(n, cap, a, more);
  }

  /** A PUBACK under way for x completes u without its having been dispatched. */
  lemma {:induction false} StalePuback(n: Net, cap: nat, x: u16, u: nat, j: nat)
    requires x in n.slots && n.slots[x] == Entry(u, AwaitPuback) && Times(n.dispatched, u) == 0
    requires j < |n.bwd| && n.bwd[j] == Ack(x)
    ensures Hollow(n, cap, u)
    decreases j
  {
    var a := TakeBackward(true);
    var m := Next(n, cap, a);
    if n.bwd[0] == Ack(x) {
      TimesAppend(n.delivered, u, u);
      RunOne(n, cap, [], a);
      assert [] + [a] == [a];
      assert Run(n, cap, [a]) == m;
    } else {
      StalePuback(m, cap, x, u, j - 1);
      HollowLater(n, cap, u, a);
    }
  }

  /** So does an older PUBLISH under way for x, once it is answered. */
  lemma {:induction false} StalePublish(n: Net, cap: nat, x: u16, u: nat, i: nat)
    requires x in n.slots && n.slots[x] == Entry(u, AwaitPuback) && Times(n.dispatched, u) == 0
    requires i < |n.fwd| && n.fwd[i].Pub1? && n.fwd[i].id == x
    requires forall k :: 0 <= k <= i && !n.fwd[k].Rel? ==> n.fwd[k].uid != u
    ensures Hollow(n, cap, u)
    decreases i
  {
    var a := TakeForward(true);
    var m := Next(n, cap, a);
    var p := n.fwd[0];
    if !p.Rel? { TimesAppend(n.dispatched, p.uid, u); }
    if i == 0 {
      assert m.bwd[|n.bwd|] == Ack(x);
      StalePuback(m, cap, x, u, |n.bwd|);
    } else {
      assert m.fwd == n.fwd[1..];
      StalePublish(m, cap, x, u, i - 1);
    }
    HollowLater(n, cap, u, a);
  }

  /** At least once, exactly: a QoS 1 publication accepted under id x can only be reported delivered
      after it was dispatched if and only if no QoS 1 packet under x was still under way. */
  lemma {:induction false} DeliveredMeansDispatched(cap: nat, actions: seq<Action>, x: u16)
    requires var n := Run(Initial, cap, actions); x != 0 && x !in n.slots
    ensures var n := Run(Initial, cap, actions);
            NeverHollow(Next(n, cap, Accept(x, AT_LEAST_ONCE)), cap, |n.accepted|) <==> NothingUnderWay(n, x)
  {
    var n := Run(Initial, cap, actions);
    var u, m := |n.accepted|, Next(n, cap, Accept(x, AT_LEAST_ONCE));
    RunKnown(cap, actions);
    TimesOfNew(n.dispatched, u);
    TimesOfNew(n.delivered, u);
    if NothingUnderWay(n, x) {
      assert Owed(m, x, u);
      forall more: seq<Action> | Times(Run(m, cap, more).delivered, u) >= 1
        ensures Times(Run(m, cap, more).dispatched, u) >= 1
      {
        OwedRun(m, cap, x, u, more);
      }
    } else if j :| 0 <= j < |n.bwd| && n.bwd[j].Ack? && n.bwd[j].id == x {
      StalePuback(m, cap, x, u, j);
    } else {
      var i :| 0 <= i < |n.fwd| && n.fwd[i].Pub1? && n.fwd[i].id == x;
      StalePublish(m, cap, x, u, i);
    }
  }

  /** A run that shows it: the first publication is sent twice and answered twice ... */
  lemma AnsweredTwice()
    ensures var n2 := Next(Next(Initial, 0, Accept(1, AT_LEAST_ONCE)), 0, Resend(1));
            var n4 := Next(Next(n2, 0, TakeForward(true)), 0, TakeForward(true));
            Next(n4, 0, TakeBackward(true)) == Net(map[], {}, [], [Ack(1)], [AT_LEAST_ONCE], [0, 0], [0])
  {
    var n1 := Next(Initial, 0, Accept(1, AT_LEAST_ONCE));
    var n2 := Next(n1, 0, Resend(1));
    assert n2.fwd == [Pub1(1, 0), Pub1(1, 0)];
    var n4 := Next(Next(n2, 0, TakeForward(true)), 0, TakeForward(true));
    assert n4.fwd == [] && n4.bwd == [Ack(1), Ack(1)] && n4.dispatched == [0, 0];
    assert n4.slots == map[1 := Entry(0, AwaitPuback)];
  }

  /** ... and the second one takes over its id and is completed by the answer that is left. */
  lemma SecondAnswerCompletesTheNext(n: Net)
    requires n == Net(map[], {}, [], [Ack(1)], [AT_LEAST_ONCE], [0, 0], [0])
    ensures var m := Next(Next(n, 0, Accept(1, AT_LEAST_ONCE)), 0, TakeBackward(true));
            m.accepted == [AT_LEAST_ONCE, AT_LEAST_ONCE] && m.delivered == [0, 1] && m.dispatched == [0, 0]
  {
  }
}
