/** Inbound QoS 1 and 2 (handle_publish, handle_pubrel and inbound_ids_ of
    include/mqtt/client.hpp): the history of acknowledgements queued and messages dispatched,
    the discipline it follows, and the id table as a function of it. */
module Inbound {
  import opened Types

  datatype Event =
    | AckQueued(id: u16)        // PUBACK
    | RecQueued(id: u16)        // PUBREC for an id not tracked before
    | RecRepeated(id: u16)      // PUBREC for an id already tracked
    | Released(id: u16)         // PUBCOMP
    | Forgotten                 // a clean session discarded the table
    | Dispatched(qos: QoS, id: u16)

  function Track(before: set<u16>, e: Event): set<u16>
  {
    match e
    case RecQueued(id) => before + {id}
    case Released(id) => before - {id}
    case Forgotten => {}
    case _ => before
  }

  /** The ids with a PUBREC queued and neither released nor forgotten since. */
  function Tracked(h: seq<Event>): set<u16>
  {
    if h == [] then {} else Track(Tracked(h[..|h| - 1]), h[|h| - 1])
  }

  /** A message is dispatched directly after its acknowledgement was queued; an id is taken up only when
      it is not tracked, and acknowledged again only when it is. */
  ghost predicate DisciplinedAt(h: seq<Event>, i: nat)
    requires i < |h|
  {
    match h[i]
    case RecQueued(id) => id !in Tracked(h[..i])
    case RecRepeated(id) => id in Tracked(h[..i])
    case Dispatched(qos, id) =>
      && (qos == AT_LEAST_ONCE ==> i > 0 && h[i - 1] == AckQueued(id))
      && (qos == EXACTLY_ONCE ==> i > 0 && h[i - 1] == RecQueued(id))
    case _ => true
  }

  ghost predicate Disciplined(h: seq<Event>) { forall i :: 0 <= i < |h| ==> DisciplinedAt(h, i) }

  lemma DisciplinedAppend(h: seq<Event>, e: Event)
    requires Disciplined(h) && DisciplinedAt(h + [e], |h|)
    ensures Disciplined(h + [e])
  {
    forall i | 0 <= i < |h + [e]| ensures DisciplinedAt(h + [e], i) {
      if i < |h| {
        assert DisciplinedAt(h, i);
        assert (h + [e])[..i] == h[..i];
      }
    }
  }

  lemma {:induction false} TrackedAppend(h: seq<Event>, e: Event)
    ensures Tracked(h + [e]) == Track(Tracked(h), e)
  {
    assert (h + [e])[..|h|] == h;
  }

  predicate Frees(e: Event, id: u16) { e == Released(id) || e == Forgotten }

  lemma {:induction false} StaysTracked(h: seq<Event>, i: nat, j: nat, id: u16)
    requires i <= j <= |h| && id in Tracked(h[..i])
    requires forall k :: i <= k < j ==> !Frees(h[k], id)
    ensures id in Tracked(h[..j])
  {
    if i < j {
      StaysTracked(h, i, j - 1, id);
      assert h[..j] == h[..j - 1] + [h[j - 1]];
      TrackedAppend(h[..j - 1], h[j - 1]);
    }
  }

  /** No QoS 2 id is dispatched twice unless it was released, or the table forgotten, in between. */
  lemma NoDoubleDispatch(h: seq<Event>, i: nat, j: nat, id: u16)
    requires Disciplined(h) && i < j < |h|
    requires h[i] == Dispatched(EXACTLY_ONCE, id) && h[j] == Dispatched(EXACTLY_ONCE, id)
    ensures exists k :: i < k < j && Frees(h[k], id)
  {
    assert DisciplinedAt(h, i) && DisciplinedAt(h, j);
    assert DisciplinedAt(h, j - 1);
    if forall k :: i < k < j ==> !Frees(h[k], id) {
      assert h[..i] == h[..i - 1] + [h[i - 1]];
      TrackedAppend(h[..i - 1], h[i - 1]);
      StaysTracked(h, i, j - 1, id);
    }
  }

  /** Every QoS 1 or QoS 2 dispatch comes after its acknowledgement was queued. */
  lemma AcknowledgedFirst(h: seq<Event>, i: nat)
    requires Disciplined(h) && i < |h| && h[i].Dispatched? && h[i].qos != AT_MOST_ONCE && ValidQos(h[i].qos)
    ensures exists k :: 0 <= k < i && h[k] == if h[i].qos == AT_LEAST_ONCE then AckQueued(h[i].id)
            else RecQueued(h[i].id)
  {
    assert DisciplinedAt(h, i);
  }

  //
  // The id table
  //

  ghost predicate Distinct(ids: seq<u16>) { forall i, j :: 0 <= i < j < |ids| ==> ids[i] != ids[j] }

  function Elements(ids: seq<u16>): set<u16> { set i | 0 <= i < |ids| :: ids[i] }

  /** The table is duplicate-free, within capacity, and exactly what the history tracks. */
  ghost predicate TableOk(ids: seq<u16>, h: seq<Event>, cap: nat)
  {
    |ids| <= cap && Distinct(ids) && Elements(ids) == Tracked(h) && Disciplined(h)
  }

  /** Appending an event that neither takes up nor frees an id. */
  lemma Note(ids: seq<u16>, h: seq<Event>, cap: nat, e: Event)
    requires TableOk(ids, h, cap) && !e.RecQueued? && !e.Released? && !e.Forgotten? && DisciplinedAt(h + [e], |h|)
    ensures TableOk(ids, h + [e], cap)
  {
    TrackedAppend(h, e);
    DisciplinedAppend(h, e);
  }

  lemma Take(ids: seq<u16>, h: seq<Event>, cap: nat, id: u16)
    requires TableOk(ids, h, cap) && id !in ids && |ids| < cap
    ensures TableOk(ids + [id], h + [RecQueued(id)], cap)
  {
    TrackedAppend(h, RecQueued(id));
    assert (h + [RecQueued(id)])[..|h|] == h;
    DisciplinedAppend(h, RecQueued(id));
    var ids' := ids + [id];
    forall x | x in Elements(ids) + {id} ensures x in Elements(ids') {
      if x == id {
        assert ids'[|ids|] == id;
      } else {
        var k :| 0 <= k < |ids| && ids[k] == x;
        assert ids'[k] == x;
      }
    }
    assert Elements(ids') == Elements(ids) + {id};
  }

  /** inbound_remove: the first occurrence goes, if there is one. */
  function Remove(ids: seq<u16>, id: u16): seq<u16>
  {
    if ids == [] then []
    else if ids[0] == id then ids[1..]
    else [ids[0]] + Remove(ids[1..], id)
  }

  lemma {:induction false} RemoveShape(ids: seq<u16>, id: u16) returns (k: nat)
    ensures k <= |ids| && Remove(ids, id) == (if k < |ids| then ids[..k] + ids[k + 1..] else ids)
    ensures k < |ids| ==> ids[k] == id
    ensures k == |ids| ==> id !in ids
  {
    if ids == [] || ids[0] == id {
      k := 0;
    } else {
      k := RemoveShape(ids[1..], id);
      RestWithout(ids, k);
      k := k + 1;
    }
  }

  lemma RestWithout(ids: seq<u16>, k: nat)
    requires k < |ids|
    ensures k + 1 < |ids| ==> [ids[0]] + (ids[1..][..k] + ids[1..][k + 1..]) == ids[..k + 1] + ids[k + 2..]
    ensures [ids[0]] + ids[1..] == ids
  {
  }

  /** inbound_remove, as a loop. */
  method RemoveFirst(ids: seq<u16>, id: u16) returns (r: seq<u16>)
    ensures r == Remove(ids, id)
  {
    var i := 0;
    while i < |ids| && ids[i] != id
      invariant i <= |ids| && Remove(ids, id) == ids[..i] + Remove(ids[i..], id)
    {
      assert ids[i..][1..] == ids[i + 1..];
      assert ids[..i] + ([ids[i]] + Remove(ids[i + 1..], id)) == ids[..i + 1] + Remove(ids[i + 1..], id);
      i := i + 1;
    }
    r := ids[..i] + if i < |ids| then ids[i + 1..] else [];
  }

  lemma {:induction false} RemoveElements(ids: seq<u16>, id: u16)
    requires Distinct(ids)
    ensures Elements(Remove(ids, id)) == Elements(ids) - {id} && Distinct(Remove(ids, id)) && |Remove(ids, id)| <= |ids|
  {
    var k := RemoveShape(ids, id);
    hide Remove;
    var r := Remove(ids, id);
    if k < |ids| {
      forall x | x in Elements(ids) - {id} ensures x in Elements(r) {
        var i :| 0 <= i < |ids| && ids[i] == x;
        assert r[if i < k then i else i - 1] == x;
      }
      forall x | x in Elements(r) ensures x in Elements(ids) - {id} {
        var i :| 0 <= i < |r| && r[i] == x;
        assert ids[if i < k then i else i + 1] == x;
      }
    } else {
      assert id !in Elements(ids);
    }
  }

  lemma {:induction false} Release(ids: seq<u16>, h: seq<Event>, cap: nat, id: u16)
    requires TableOk(ids, h, cap)
    ensures TableOk(Remove(ids, id), h + [Released(id)], cap)
  {
    TrackedAppend(h, Released(id));
    DisciplinedAppend(h, Released(id));
    RemoveElements(ids, id);
    hide Remove, Tracked, Elements, Disciplined, Distinct;
  }

  lemma Forget(ids: seq<u16>, h: seq<Event>, cap: nat)
    requires TableOk(ids, h, cap)
    ensures TableOk([], h + [Forgotten], cap)
  {
    TrackedAppend(h, Forgotten);
    DisciplinedAppend(h, Forgotten);
  }

  lemma {:induction false} InTable(ids: seq<u16>, h: seq<Event>, cap: nat, id: u16)
    requires TableOk(ids, h, cap)
    ensures id in ids <==> id in Tracked(h)
  {
  }

  lemma {:induction false} ElementsSize(ids: seq<u16>)
    requires Distinct(ids)
    ensures |Elements(ids)| == |ids|
  {
    if ids == [] {
      assert Elements(ids) == {};
    } else {
      var front, last := ids[..|ids| - 1], ids[|ids| - 1];
      ElementsSize(front);
      forall x | x in Elements(ids) ensures x in Elements(front) + {last} {
        var i :| 0 <= i < |ids| && ids[i] == x;
        if i < |front| { assert front[i] == x; }
      }
      forall x | x in Elements(front) ensures x in Elements(ids) && x != last {
        var i :| 0 <= i < |front| && front[i] == x;
        assert ids[i] == x;
      }
      assert ids[|ids| - 1] in Elements(ids);
      assert Elements(ids) == Elements(front) + {last};
    }
  }
}
