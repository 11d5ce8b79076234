/** The subscription table and the table of requests awaiting their acknowledgement
    (subscriptions_ and pending_ of include/mqtt/client.hpp), as values. */
module Subscriptions {
  import opened Types
  import IdAllocator
  import Topic

  datatype Row = Row(subId: u16, filter: bytes, requestedQos: QoS, grantedQos: byte, needsResub: bool, hasHandler: bool)
  type Table = seq<Row>

  /** A SUBSCRIBE or UNSUBSCRIBE under way; `subs` names the rows it covers, in wire order. */
  datatype PendingAck = PendingAck(packetId: u16, expected: PacketType, subs: seq<u16>, sentMs: u32)

  /** What happens to rows. */
  datatype Change =
    | Added(subId: u16, filter: bytes)
    | Refused(subId: u16, filter: bytes)        // by a SUBACK
    | Unsubscribed(subId: u16, filter: bytes)   // by an UNSUBACK

  ghost predicate DistinctIds(t: Table) { forall i, j :: 0 <= i < j < |t| ==> t[i].subId != t[j].subId }
  ghost predicate DistinctFilters(t: Table) { forall i, j :: 0 <= i < j < |t| ==> t[i].filter != t[j].filter }

  function Ids(t: Table): set<int> { set i | 0 <= i < |t| :: t[i].subId as int }

  //
  // Single-row operations
  //

  /** erase_subscription: the row with this id goes, and the rows after it move up. */
  function EraseRow(t: Table, sid: u16): Table
  {
    if t == [] then []
    else if t[0].subId == sid then t[1..]
    else [t[0]] + EraseRow(t[1..], sid)
  }

  /** find_by_sub_id and the update of what it found. */
  function GrantRow(t: Table, sid: u16, code: byte): Table
  {
    if t == [] then []
    else if t[0].subId == sid then [t[0].(grantedQos := code, needsResub := false)] + t[1..]
    else [t[0]] + GrantRow(t[1..], sid, code)
  }

  /** What one return code of a SUBACK does to the row it is about. */
  function Settle(t: Table, sid: u16, code: byte): Table
  {
    if code == SUBACK_FAILURE then EraseRow(t, sid) else GrantRow(t, sid, code)
  }

  /** What a whole SUBACK does, code by code. */
  function SettleAll(t: Table, sids: seq<u16>, codes: bytes): Table
    requires |sids| == |codes|
  {
    if sids == [] then t
    else
      var n := |sids| - 1;
      Settle(SettleAll(t, sids[..n], codes[..n]), sids[n], codes[n])
  }

  //
  // Order does not matter
  //

  lemma {:induction false} SettleHead(t: Table, sid: u16, code: byte)
    requires t != [] && t[0].subId != sid
    ensures Settle(t, sid, code) == [t[0]] + Settle(t[1..], sid, code)
  {
  }

  /** Settling two different rows commutes, although erasing one moves the other. */
  lemma {:induction false} SettleCommutes(t: Table, x: u16, cx: byte, y: u16, cy: byte)
    requires x != y
    ensures Settle(Settle(t, x, cx), y, cy) == Settle(Settle(t, y, cy), x, cx)
  {
    if t != [] {
      var head, tail := t[0], t[1..];
      if head.subId == x {
        SettleHead(t, y, cy);
        var t2 := Settle(t, y, cy);
        assert t2[0] == head && t2[1..] == Settle(tail, y, cy);
        if cx != SUBACK_FAILURE {
          var t1 := Settle(t, x, cx);
          assert t1[0].subId == x && t1[1..] == tail;
          SettleHead(t1, y, cy);
        }
      } else if head.subId == y {
        SettleHead(t, x, cx);
        var t1 := Settle(t, x, cx);
        assert t1[0] == head && t1[1..] == Settle(tail, x, cx);
        if cy != SUBACK_FAILURE {
          var t2 := Settle(t, y, cy);
          assert t2[0].subId == y && t2[1..] == tail;
          SettleHead(t2, x, cx);
        }
      } else {
        SettleHead(t, x, cx);
        SettleHead(t, y, cy);
        var t1, t2 := Settle(t, x, cx), Settle(t, y, cy);
        assert t1[1..] == Settle(tail, x, cx) && t2[1..] == Settle(tail, y, cy);
        SettleHead(t1, y, cy);
        SettleHead(t2, x, cx);
        SettleCommutes(tail, x, cx, y, cy);
      }
    }
  }

  lemma {:induction false} SettleAllCommutesOne(t: Table, sids: seq<u16>, codes: bytes, y: u16, cy: byte)
    requires |sids| == |codes| && y !in sids
    ensures Settle(SettleAll(t, sids, codes), y, cy) == SettleAll(Settle(t, y, cy), sids, codes)
  {
    hide Settle;
    if sids != [] {
      var n := |sids| - 1;
      SettleAllCommutesOne(t, sids[..n], codes[..n], y, cy);
      SettleCommutes(SettleAll(t, sids[..n], codes[..n]), sids[n], codes[n], y, cy);
    }
  }

  /** Two SUBACKs about disjoint rows may be handled in either order. */
  lemma {:induction false} SubacksConfluent(t: Table, a: seq<u16>, ca: bytes, b: seq<u16>, cb: bytes)
    requires |a| == |ca| && |b| == |cb|
    requires forall x :: x in a ==> x !in b
    ensures SettleAll(SettleAll(t, a, ca), b, cb) == SettleAll(SettleAll(t, b, cb), a, ca)
  {
    hide Settle;
    if b != [] {
      var n := |b| - 1;
      assert forall x :: x in b[..n] ==> x in b;
      SubacksConfluent(t, a, ca, b[..n], cb[..n]);
      SettleAllCommutesOne(SettleAll(t, b[..n], cb[..n]), a, ca, b[n], cb[n]);
    }
  }

  function Retire(p: seq<PendingAck>, id: u16): seq<PendingAck>
  {
    if p == [] then [] else if p[0].packetId == id then p[1..] else [p[0]] + Retire(p[1..], id)
  }

  /** So may the requests they answer be retired in either order. */
  lemma {:induction false} RetireCommutes(p: seq<PendingAck>, a: u16, b: u16)
    requires a != b
    ensures Retire(Retire(p, a), b) == Retire(Retire(p, b), a)
  {
    if p != [] {
      var tail := p[1..];
      RetireCommutes(tail, a, b);
      if p[0].packetId == a {
        assert ([p[0]] + Retire(tail, b))[1..] == Retire(tail, b);
      } else if p[0].packetId == b {
        assert ([p[0]] + Retire(tail, a))[1..] == Retire(tail, a);
      } else {
        assert ([p[0]] + Retire(tail, a))[1..] == Retire(tail, a);
        assert ([p[0]] + Retire(tail, b))[1..] == Retire(tail, b);
      }
    }
  }

  /** Under distinct ids, erasing the request at k is retiring it by its id. */
  lemma {:induction false} RetireIsErase(p: seq<PendingAck>, k: nat)
    requires k < |p| && forall i, j :: 0 <= i < j < |p| ==> p[i].packetId != p[j].packetId
    ensures Retire(p, p[k].packetId) == p[..k] + p[k + 1..]
  {
    if k > 0 {
      assert p[0].packetId != p[k].packetId;
      RetireIsErase(p[1..], k - 1);
      assert p[1..][k - 1] == p[k];
      assert [p[0]] + (p[1..][..k - 1] + p[1..][k..]) == p[..k] + p[k + 1..];
    }
  }

  //
  // A SUBACK touches exactly the rows it names
  //

  /** Whether some code refuses `sid`, and the last code that grants it. */
  predicate IsRefused(sids: seq<u16>, codes: bytes, sid: u16)
    requires |sids| == |codes|
  {
    exists i :: 0 <= i < |sids| && sids[i] == sid && codes[i] == SUBACK_FAILURE
  }

  function Granted(row: Row, sids: seq<u16>, codes: bytes): Row
    requires |sids| == |codes|
  {
    if sids == [] then row
    else
      var n := |sids| - 1;
      if sids[n] == row.subId then row.(grantedQos := codes[n], needsResub := false)
      else Granted(row, sids[..n], codes[..n])
  }

  /** The rows that survive a SUBACK, each with what it was granted, in their old order. */
  function Survivors(t: Table, sids: seq<u16>, codes: bytes): Table
    requires |sids| == |codes|
  {
    if t == [] then []
    else if IsRefused(sids, codes, t[0].subId) then Survivors(t[1..], sids, codes)
    else [Granted(t[0], sids, codes)] + Survivors(t[1..], sids, codes)
  }

  lemma {:induction false} SurvivorsOfNone(t: Table)
    ensures Survivors(t, [], []) == t
  {
    if t != [] { SurvivorsOfNone(t[1..]); }
  }

  /** Every survivor is a row that was not refused, with what it was granted. */
  lemma {:induction false} SurvivorFrom(t: Table, sids: seq<u16>, codes: bytes, i: nat) returns (j: nat)
    requires |sids| == |codes| && i < |Survivors(t, sids, codes)|
    ensures j < |t| && Survivors(t, sids, codes)[i] == Granted(t[j], sids, codes) && !IsRefused(sids, codes, t[j].subId)
    ensures Survivors(t, sids, codes)[i].subId == t[j].subId && Survivors(t, sids, codes)[i].filter == t[j].filter
  {
    hide IsRefused;
    if IsRefused(sids, codes, t[0].subId) {
      j := SurvivorFrom(t[1..], sids, codes, i);
      j := j + 1;
    } else if i == 0 {
      GrantedKeepsId(t[0], sids, codes);
      j := 0;
    } else {
      j := SurvivorFrom(t[1..], sids, codes, i - 1);
      j := j + 1;
    }
  }

  lemma {:induction false} GrantedKeepsId(row: Row, sids: seq<u16>, codes: bytes)
    requires |sids| == |codes|
    ensures var r := Granted(row, sids, codes);
            r.subId == row.subId && r.filter == row.filter && r.requestedQos == row.requestedQos
                && r.hasHandler == row.hasHandler
    ensures row.subId !in sids ==> Granted(row, sids, codes) == row
  {
    if sids != [] { GrantedKeepsId(row, sids[..|sids| - 1], codes[..|sids| - 1]); }
  }

  lemma RefusedStep(sids: seq<u16>, codes: bytes, sid: u16)
    requires |sids| == |codes| && sids != []
    ensures var n := |sids| - 1;
            IsRefused(sids, codes, sid) <==>
              IsRefused(sids[..n], codes[..n], sid) || (sids[n] == sid && codes[n] == SUBACK_FAILURE)
  {
    var n := |sids| - 1;
    if IsRefused(sids[..n], codes[..n], sid) {
      var i :| 0 <= i < n && sids[..n][i] == sid && codes[..n][i] == SUBACK_FAILURE;
      assert sids[i] == sid && codes[i] == SUBACK_FAILURE;
    }
    if IsRefused(sids, codes, sid) && !(sids[n] == sid && codes[n] == SUBACK_FAILURE) {
      var i :| 0 <= i < |sids| && sids[i] == sid && codes[i] == SUBACK_FAILURE;
      assert sids[..n][i] == sid && codes[..n][i] == SUBACK_FAILURE;
    }
  }

  /** One more code, on the rows that have survived so far. */
  lemma {:induction false} SurvivorsStep(t: Table, sids: seq<u16>, codes: bytes)
    requires |sids| == |codes| && sids != [] && DistinctIds(t)
    ensures var n := |sids| - 1;
            Survivors(t, sids, codes) == Settle(Survivors(t, sids[..n], codes[..n]), sids[n], codes[n])
  {
    hide IsRefused;
    if t != [] {
      var n, row, tail := |sids| - 1, t[0], t[1..];
      var sids', codes', x, c := sids[..n], codes[..n], sids[n], codes[n];
      assert DistinctIds(tail);
      SurvivorsStep(tail, sids, codes);
      RefusedStep(sids, codes, row.subId);
      GrantedKeepsId(row, sids', codes');
      var rest := Survivors(tail, sids', codes');
      if row.subId == x && !IsRefused(sids', codes', x) {
        NoOtherRow(tail, sids', codes', x);
        SettleAbsent(rest, x, c);
        assert ([Granted(row, sids', codes')] + rest)[1..] == rest;
      } else if !IsRefused(sids', codes', row.subId) {
        SettleHead([Granted(row, sids', codes')] + rest, x, c);
        assert ([Granted(row, sids', codes')] + rest)[1..] == rest;
      }
    }
  }

  lemma {:induction false} NoOtherRow(tail: Table, sids: seq<u16>, codes: bytes, x: u16)
    requires |sids| == |codes| && forall j :: 0 <= j < |tail| ==> tail[j].subId != x
    ensures forall i :: 0 <= i < |Survivors(tail, sids, codes)| ==> Survivors(tail, sids, codes)[i].subId != x
  {
    forall i | 0 <= i < |Survivors(tail, sids, codes)| ensures Survivors(tail, sids, codes)[i].subId != x {
      var j := SurvivorFrom(tail, sids, codes, i);
    }
  }

  lemma {:induction false} SettleAbsent(t: Table, x: u16, c: byte)
    requires forall i :: 0 <= i < |t| ==> t[i].subId != x
    ensures Settle(t, x, c) == t
  {
    if t != [] {
      SettleHead(t, x, c);
      SettleAbsent(t[1..], x, c);
    }
  }

  /** A SUBACK erases exactly the rows it refuses and updates exactly those it grants; every
      other row keeps its contents and its place. */
  lemma {:induction false} SubackExact(t: Table, sids: seq<u16>, codes: bytes)
    requires |sids| == |codes| && DistinctIds(t)
    ensures SettleAll(t, sids, codes) == Survivors(t, sids, codes)
  {
    if sids == [] {
      SurvivorsOfNone(t);
    } else {
      SubackExact(t, sids[..|sids| - 1], codes[..|sids| - 1]);
      SurvivorsStep(t, sids, codes);
    }
  }

  //
  // Accounting: what every table the client reaches satisfies
  //

  ghost predicate TableOk(t: Table, max: nat)
  {
    && |t| <= max && DistinctIds(t) && DistinctFilters(t)
    && (forall i :: 0 <= i < |t| ==> t[i].subId != 0 && Topic.ValidFilter(t[i].filter))
  }

  function RowIds(t: Table): set<u16> { set i | 0 <= i < |t| :: t[i].subId }

  /** `granted` are rows, and each of them holds a QoS that a SUBACK granted. */
  ghost predicate GrantedOk(t: Table, granted: set<u16>)
  {
    && granted <= RowIds(t)
    && forall i :: 0 <= i < |t| && t[i].subId in granted ==> t[i].grantedQos != SUBACK_FAILURE
  }

  /** An outstanding SUBSCRIBE covers the row. */
  ghost predicate Named(pending: seq<PendingAck>, sid: u16)
  {
    exists k :: 0 <= k < |pending| && pending[k].expected == Suback && sid in pending[k].subs
  }

  /** Every row is flagged for re-subscription, named by an outstanding SUBSCRIBE (or by the one
      being put together, `extra`), or has been granted in this session. */
  ghost predicate Covered(t: Table, pending: seq<PendingAck>, granted: set<u16>, extra: seq<u16>)
  {
    forall i :: 0 <= i < |t| ==>
      t[i].needsResub || t[i].subId in granted || t[i].subId in extra || Named(pending, t[i].subId)
  }

  /** Outside an established session every row waits for re-subscription. */
  ghost predicate AllFlagged(t: Table) { forall i :: 0 <= i < |t| ==> t[i].needsResub }

  function Flagged(t: Table): (r: Table)
    ensures |r| == |t|
    ensures forall i :: 0 <= i < |t| ==> r[i] == t[i].(needsResub := true)
  {
    seq(|t|, i requires 0 <= i < |t| => t[i].(needsResub := true))
  }

  /** The same subscriptions in the same places; only the re-subscription flags may differ. */
  ghost predicate SameRows(a: Table, b: Table)
  {
    |a| == |b| && forall i :: 0 <= i < |a| ==> a[i].(needsResub := true) == b[i].(needsResub := true)
  }

  lemma FlaggedOk(t: Table, max: nat)
    requires TableOk(t, max)
    ensures TableOk(Flagged(t), max) && AllFlagged(Flagged(t))
  {
    hide Topic.ValidFilter;
  }

  lemma GapBehindFirst(t: Table, k: nat)
    requires 0 < k < |t|
    ensures [t[0]] + (t[1..][..k - 1] + t[1..][k..]) == t[..k] + t[k + 1..]
  {
    assert t[1..][..k - 1] == t[1..k] && t[1..][k..] == t[k + 1..] && [t[0]] + t[1..k] == t[..k];
  }

  lemma {:induction false} EraseShape(t: Table, sid: u16) returns (k: nat)
    ensures k <= |t| && EraseRow(t, sid) == if k < |t| then t[..k] + t[k + 1..] else t
    ensures k < |t| ==> t[k].subId == sid
    ensures forall i :: 0 <= i < k ==> t[i].subId != sid
  {
    if t == [] {
      k := 0;
    } else if t[0].subId == sid {
      k := 0;
    } else {
      k := EraseShape(t[1..], sid);
      k := k + 1;
      if k < |t| {
        GapBehindFirst(t, k);
      } else {
        assert [t[0]] + t[1..] == t;
      }
    }
  }

  lemma {:induction false} GrantShape(t: Table, sid: u16, code: byte) returns (k: nat)
    ensures k <= |t| && GrantRow(t, sid, code) == if k < |t|
            then t[k := t[k].(grantedQos := code, needsResub := false)] else t
    ensures k < |t| ==> t[k].subId == sid
    ensures forall i :: 0 <= i < k ==> t[i].subId != sid
  {
    if t == [] {
      k := 0;
    } else if t[0].subId == sid {
      k := 0;
    } else {
      k := GrantShape(t[1..], sid, code);
      k := k + 1;
    }
  }

  /** Settling one row keeps the table sound. */
  lemma SettleKeeps(t: Table, sid: u16, code: byte, max: nat)
    requires TableOk(t, max)
    ensures TableOk(Settle(t, sid, code), max)
  {
    hide Topic.ValidFilter;
    if code == SUBACK_FAILURE {
      EraseKeeps(t, sid, max);
    } else {
      var k := GrantShape(t, sid, code);
    }
  }

  lemma {:induction false} EraseKeeps(t: Table, sid: u16, max: nat)
    requires TableOk(t, max)
    ensures TableOk(EraseRow(t, sid), max)
  {
    var k := EraseShape(t, sid);
    hide EraseRow, TableOk;
    var r := EraseRow(t, sid);
    if k < |t| {
      forall i | 0 <= i < |r| ensures r[i] == t[Above(i, k)] { }
      GapKeeps(t, r, k, max);
    }
  }

  /** Where the row at i was before the one at k went. */
  function Above(i: nat, k: nat): nat { if i < k then i else i + 1 }

  lemma GapKeeps(t: Table, r: Table, k: nat, max: nat)
    requires TableOk(t, max) && k < |t| == |r| + 1 && forall i :: 0 <= i < |r| ==> r[i] == t[Above(i, k)]
    ensures TableOk(r, max)
  {
    hide Topic.ValidFilter;
  }

  /** Re-requesting a row already in the table. */
  lemma RegisterOld(t: Table, i: nat, qos: QoS, handler: bool, max: nat, pending: seq<PendingAck>,
      granted: set<u16>, extra: seq<u16>)
    requires i < |t| && TableOk(t, max) && Covered(t, pending, granted, extra)
    ensures var t' := t[i := t[i].(requestedQos := qos, hasHandler := handler, needsResub := false)];
            TableOk(t', max) && Covered(t', pending, granted, extra + [t[i].subId])
  {
    hide Topic.ValidFilter;
    hide Named;
  }

  /** Adding a row for a filter the table does not have. */
  lemma RegisterNew(t: Table, row: Row, max: nat, pending: seq<PendingAck>, granted: set<u16>, extra: seq<u16>)
    requires TableOk(t, max) && Covered(t, pending, granted, extra) && |t| < max
    requires row.subId != 0 && Topic.ValidFilter(row.filter)
    requires forall i :: 0 <= i < |t| ==> t[i].subId != row.subId && t[i].filter != row.filter
    ensures TableOk(t + [row], max) && Covered(t + [row], pending, granted, extra + [row.subId])
  {
    hide Topic.ValidFilter;
    hide Named;
  }

  /** The request under construction becomes an outstanding one. */
  lemma CoverPush(t: Table, pending: seq<PendingAck>, granted: set<u16>, ack: PendingAck)
    requires Covered(t, pending, granted, ack.subs) && ack.expected == Suback
    ensures Covered(t, pending + [ack], granted, [])
  {
    var p := pending + [ack];
    forall i | 0 <= i < |t|
      ensures t[i].needsResub || t[i].subId in granted || t[i].subId in [] || Named(p, t[i].subId)
    {
      if t[i].subId in ack.subs {
        assert p[|pending|] == ack;
      } else if Named(pending, t[i].subId) {
        var k :| 0 <= k < |pending| && pending[k].expected == Suback && t[i].subId in pending[k].subs;
        assert p[k] == pending[k];
      }
    }
  }

  lemma CoverMore(t: Table, pending: seq<PendingAck>, granted: set<u16>, ack: PendingAck)
    requires Covered(t, pending, granted, [])
    ensures Covered(t, pending + [ack], granted, [])
  {
    var p := pending + [ack];
    forall i | 0 <= i < |t|
      ensures t[i].needsResub || t[i].subId in granted || t[i].subId in [] || Named(p, t[i].subId)
    {
      if Named(pending, t[i].subId) {
        var k :| 0 <= k < |pending| && pending[k].expected == Suback && t[i].subId in pending[k].subs;
        assert p[k] == pending[k];
      }
    }
  }

  /** Retiring a request all of whose rows are accounted for otherwise. */
  lemma CoverRetire(t: Table, pending: seq<PendingAck>, granted: set<u16>, k: nat)
    requires k < |pending| && Covered(t, pending, granted, [])
    requires pending[k].expected == Suback ==> forall x :: x in pending[k].subs && x in RowIds(t) ==> x in granted
    ensures Covered(t, pending[..k] + pending[k + 1..], granted, [])
  {
    var p := pending[..k] + pending[k + 1..];
    forall i | 0 <= i < |t|
      ensures t[i].needsResub || t[i].subId in granted || t[i].subId in [] || Named(p, t[i].subId)
    {
      assert t[i].subId in RowIds(t);
      if !t[i].needsResub && t[i].subId !in granted {
        var j :| 0 <= j < |pending| && pending[j].expected == Suback && t[i].subId in pending[j].subs;
        assert j != k;
        assert p[if j < k then j else j - 1] == pending[j];
      }
    }
  }

  //
  // Requests
  //

  /** find_subscription: the row for a filter, or the end of the table. */
  method Find(t: Table, filter: bytes) returns (i: nat)
    ensures i <= |t| && (i < |t| ==> t[i].filter == filter) && (i == |t| <==> !Knows(t, filter))
  {
    i := 0;
    while i < |t|
      invariant i <= |t| && forall k :: 0 <= k < i ==> t[k].filter != filter
    {
      if t[i].filter == filter { return; }
      i := i + 1;
    }
  }

  ghost predicate Knows(t: Table, filter: bytes) { exists i :: 0 <= i < |t| && t[i].filter == filter }

  /** How many entries of a request name a filter without a row; a new filter named twice counts twice. */
  ghost function NewCount(t: Table, subs: seq<TopicSubscription>): nat
  {
    if subs == [] then 0
    else NewCount(t, subs[..|subs| - 1]) + if Knows(t, subs[|subs| - 1].filter) then 0 else 1
  }

  lemma {:induction false} NewCountMonotone(t: Table, subs: seq<TopicSubscription>, j: nat)
    requires j <= |subs|
    ensures NewCount(t, subs[..j]) <= NewCount(t, subs)
  {
    hide Knows;
    if j == |subs| {
      assert subs[..j] == subs;
    } else {
      NewCountMonotone(t, subs[..|subs| - 1], j);
      assert subs[..|subs| - 1][..j] == subs[..j];
    }
  }

  lemma {:induction false} NewCountStep(t: Table, subs: seq<TopicSubscription>, j: nat)
    requires j < |subs|
    ensures NewCount(t, subs[..j + 1]) == NewCount(t, subs[..j]) + if Knows(t, subs[j].filter) then 0 else 1
  {
    assert subs[..j + 1][..j] == subs[..j];
  }

  method CountNew(t: Table, subs: seq<TopicSubscription>) returns (n: nat)
    ensures n == NewCount(t, subs)
  {
    n := 0;
    var j := 0;
    assert subs[..0] == [];
    while j < |subs|
      invariant j <= |subs| && n == NewCount(t, subs[..j])
    {
      var i := Find(t, subs[j].filter);
      NewCountStep(t, subs, j);
      if i == |t| { n := n + 1; }
      j := j + 1;
    }
    assert subs[..j] == subs;
  }

  /** The QoS of the last entry for a filter. */
  function LastQos(subs: seq<TopicSubscription>, filter: bytes): QoS
  {
    if subs == [] then AT_MOST_ONCE
    else if subs[|subs| - 1].filter == filter then subs[|subs| - 1].qos
    else LastQos(subs[..|subs| - 1], filter)
  }

  ghost predicate HasRow(t: Table, sid: u16, filter: bytes, qos: QoS, handler: bool)
  {
    exists i :: 0 <= i < |t| && IsRow(t[i], sid, filter, qos, handler)
  }

  predicate IsRow(r: Row, sid: u16, filter: bytes, qos: QoS, handler: bool)
  {
    r.subId == sid && r.filter == filter && r.requestedQos == qos && r.hasHandler == handler && !r.needsResub
  }

  /** Rows keep their place, their id, their filter and what they were granted; more may follow. */
  ghost predicate Extends(a: Table, b: Table)
  {
    |a| <= |b| && forall i :: 0 <= i < |a| ==>
                     b[i].subId == a[i].subId && b[i].filter == a[i].filter && b[i].grantedQos == a[i].grantedQos
  }

  lemma SameRowsTrans(a: Table, b: Table, c: Table)
    requires SameRows(a, b) && SameRows(b, c)
    ensures SameRows(a, c)
  {
    assert forall i :: 0 <= i < |b| ==> b[i].(needsResub := true) == c[i].(needsResub := true);
  }

  lemma SameRowsAt(a: Table, b: Table, i: nat)
    requires SameRows(a, b) && i < |a|
    ensures |a| == |b| && b[i].filter == a[i].filter && b[i].hasHandler == a[i].hasHandler && b[i].subId == a[i].subId
  {
    assert a[i].(needsResub := true) == b[i].(needsResub := true);
  }

  lemma SameRowsRefl(a: Table)
    ensures SameRows(a, a)
  {
  }

  lemma ExtendsRefl(a: Table)
    ensures Extends(a, a)
  {
  }

  lemma SameRowsExtend(a: Table, b: Table)
    requires SameRows(a, b)
    ensures Extends(a, b)
  {
    assert forall i :: 0 <= i < |a| ==> a[i].(needsResub := true) == b[i].(needsResub := true);
  }

  lemma ExtendsTrans(a: Table, b: Table, c: Table)
    requires Extends(a, b) && Extends(b, c)
    ensures Extends(a, c)
  {
  }

  lemma {:induction false} IdsFew(t: Table)
    ensures |Ids(t)| <= |t|
  {
    if t == [] {
      assert Ids(t) == {};
    } else {
      var front, last := t[..|t| - 1], t[|t| - 1];
      IdsFew(front);
      forall x | x in Ids(t) ensures x in Ids(front) + {last.subId as int} {
        var i :| 0 <= i < |t| && t[i].subId as int == x;
        if i < |front| { assert front[i] == t[i]; }
      }
      IdAllocator.SubsetSize(Ids(t), Ids(front) + {last.subId as int});
    }
  }

  /** alloc_sub_id: a nonzero id that no row has. */
  method AllocSubId(t: Table, next: u16) returns (sid: u16)
    requires |t| < 65535
    ensures sid != 0 && forall i :: 0 <= i < |t| ==> t[i].subId != sid
    ensures IdAllocator.FirstFree(next, Ids(t), sid)
  {
    IdsFew(t);
    var after;
    sid, after := IdAllocator.Alloc(next, Ids(t));
    forall i | 0 <= i < |t| ensures t[i].subId != sid { assert t[i].subId as int in Ids(t); }
  }

  /** One entry of a request takes up its row, or a new one. */
  method RegisterOne(t0: Table, next: u16, s: TopicSubscription, handler: bool, max: nat,
                     ghost pending: seq<PendingAck>, ghost granted: set<u16>, ghost ids: seq<u16>)
    returns (t: Table, sid: u16, next': u16)
    requires TableOk(t0, max) && max < 65535 && Covered(t0, pending, granted, ids)
    requires Topic.ValidFilter(s.filter) && (Knows(t0, s.filter) || |t0| < max)
    ensures TableOk(t, max) && Covered(t, pending, granted, ids + [sid]) && Extends(t0, t)
    ensures |t| == |t0| + if Knows(t0, s.filter) then 0 else 1
    ensures HasRow(t, sid, s.filter, s.qos, handler)
    ensures forall i :: 0 <= i < |t0| && t0[i].filter != s.filter ==> t[i] == t0[i]
  {
    hide Topic.ValidFilter;
    hide Named;
    next' := next;
    var i := Find(t0, s.filter);
    if i < |t0| {
      RegisterOld(t0, i, s.qos, handler, max, pending, granted, ids);
      t := t0[i := t0[i].(requestedQos := s.qos, hasHandler := handler, needsResub := false)];
      sid := t0[i].subId;
      assert IsRow(t[i], sid, s.filter, s.qos, handler);
    } else {
      sid := AllocSubId(t0, next);
      next' := sid;
      var row := Row(sid, s.filter, s.qos, 0, false, handler);
      RegisterNew(t0, row, max, pending, granted, ids);
      t := t0 + [row];
      assert IsRow(t[|t0|], sid, s.filter, s.qos, handler);
    }
  }

  /** The loop of subscribe(): every filter of the request has its row, named in wire order, with
      the QoS it was last requested with; the rows there were keep their identity and place. */
  method Register(t0: Table, next: u16, subs: seq<TopicSubscription>, handler: bool, max: nat,
                  ghost pending: seq<PendingAck>, ghost granted: set<u16>)
    returns (t: Table, ids: seq<u16>, next': u16)
    requires TableOk(t0, max) && max < 65535 && Covered(t0, pending, granted, []) && |t0| + NewCount(t0, subs) <= max
    requires forall j :: 0 <= j < |subs| ==> Topic.ValidFilter(subs[j].filter)
    ensures TableOk(t, max) && Covered(t, pending, granted, ids) && Extends(t0, t) && |ids| == |subs|
    ensures forall j :: 0 <= j < |subs| ==> HasRow(t, ids[j], subs[j].filter, LastQos(subs, subs[j].filter), handler)
  {
    hide TableOk, Covered, HasRow, Knows, Topic.ValidFilter;
    t, ids, next' := t0, [], next;
    var j := 0;
    while j < |subs|
      invariant j <= |subs| && |ids| == j && TableOk(t, max) && Covered(t, pending, granted, ids) && Extends(t0, t)
      invariant |t| <= |t0| + NewCount(t0, subs[..j])
      invariant forall k :: 0 <= k < j ==>
                  HasRow(t, ids[k], subs[k].filter, LastQos(subs[..j], subs[k].filter), handler)
    {
      ghost var before := t;
      NewCountStep(t0, subs, j);
      NewCountMonotone(t0, subs, j + 1);
      KnowsExtends(t0, t, subs[j].filter);
      var sid;
      t, sid, next' := RegisterOne(t, next', subs[j], handler, max, pending, granted, ids);
      RowsAfter(before, t, subs, ids, sid, j, handler, max);
      ids := ids + [sid];
      ExtendsTrans(t0, before, t);
      j := j + 1;
    }
    assert subs[..j] == subs;
  }

  lemma KnowsExtends(a: Table, b: Table, filter: bytes)
    requires Extends(a, b)
    ensures Knows(a, filter) ==> Knows(b, filter)
  {
    if Knows(a, filter) {
      var i :| 0 <= i < |a| && a[i].filter == filter;
      assert b[i].filter == filter;
    }
  }

  lemma RowsAfter(before: Table, t: Table, subs: seq<TopicSubscription>, ids: seq<u16>, sid: u16, j: nat,
      handler: bool, max: nat)
    requires j < |subs| && |ids| == j && TableOk(t, max) && Extends(before, t)
    requires forall k :: 0 <= k < j ==>
               HasRow(before, ids[k], subs[k].filter, LastQos(subs[..j], subs[k].filter), handler)
    requires HasRow(t, sid, subs[j].filter, subs[j].qos, handler)
    requires forall i :: 0 <= i < |before| && before[i].filter != subs[j].filter ==> t[i] == before[i]
    ensures forall k :: 0 <= k <= j ==>
              HasRow(t, (ids + [sid])[k], subs[k].filter, LastQos(subs[..j + 1], subs[k].filter), handler)
  {
    hide TableOk, HasRow, LastQos, Extends, DistinctFilters;
    DistinctOf(t, max);
    LastQosNext(subs, j, subs[j].filter);
    forall k | 0 <= k < j ensures HasRow(t, ids[k], subs[k].filter, LastQos(subs[..j + 1], subs[k].filter), handler) {
      LastQosNext(subs, j, subs[k].filter);
      RowAfter(before, t, subs[k].filter, ids[k], LastQos(subs[..j], subs[k].filter), subs[j], sid, handler);
    }
  }

  lemma {:induction false} LastQosNext(subs: seq<TopicSubscription>, j: nat, filter: bytes)
    requires j < |subs|
    ensures LastQos(subs[..j + 1], filter)
            == if filter == subs[j].filter then subs[j].qos else LastQos(subs[..j], filter)
  {
    assert subs[..j + 1][..j] == subs[..j];
  }

  /** A row registered before keeps its id, and takes on the QoS if the same filter is registered again. */
  lemma RowAfter(before: Table, t: Table, filter: bytes, id: u16, qos: QoS, s: TopicSubscription,
      sid: u16, handler: bool)
    requires DistinctFilters(t) && Extends(before, t) && HasRow(before, id, filter, qos, handler)
             && HasRow(t, sid, s.filter, s.qos, handler)
    requires forall i :: 0 <= i < |before| && before[i].filter != s.filter ==> t[i] == before[i]
    ensures HasRow(t, id, filter, if filter == s.filter then s.qos else qos, handler)
  {
    var i :| 0 <= i < |before| && IsRow(before[i], id, filter, qos, handler);
    var r :| 0 <= r < |t| && IsRow(t[r], sid, s.filter, s.qos, handler);
    if filter == s.filter { assert t[i].filter == t[r].filter && i == r; }
    assert IsRow(t[i], id, filter, if filter == s.filter then s.qos else qos, handler);
  }

  ghost predicate NamesRow(t: Table, sid: u16, filters: seq<bytes>)
  {
    exists i :: 0 <= i < |t| && t[i].subId == sid && t[i].filter in filters
  }

  /** The rows that an UNSUBSCRIBE names: those for its filters, where there are any. */
  method Collect(t: Table, filters: seq<bytes>) returns (ids: seq<u16>)
    requires DistinctFilters(t)
    ensures |ids| <= |filters|
    ensures forall i :: 0 <= i < |t| && t[i].filter in filters ==> t[i].subId in ids
    ensures forall k :: 0 <= k < |ids| ==> NamesRow(t, ids[k], filters)
  {
    ids := [];
    var j := 0;
    while j < |filters|
      invariant j <= |filters| && |ids| <= j
      invariant forall i :: 0 <= i < |t| && t[i].filter in filters[..j] ==> t[i].subId in ids
      invariant forall k :: 0 <= k < |ids| ==> NamesRow(t, ids[k], filters)
    {
      var i := Find(t, filters[j]);
      assert filters[..j + 1] == filters[..j] + [filters[j]];
      if i < |t| {
        assert NamesRow(t, t[i].subId, filters);
        ids := ids + [t[i].subId];
      }
      j := j + 1;
    }
    assert filters[..j] == filters;
  }

  //
  // Re-subscription
  //

  ghost predicate IsFlagged(t: Table, sid: u16, s: TopicSubscription)
  {
    exists i :: 0 <= i < |t| && t[i].needsResub && t[i].subId == sid
        && s == TopicSubscription(t[i].filter, t[i].requestedQos)
  }

  /** The rows that wait for a request, in table order. */
  function Waiting(t: Table): seq<Row>
  {
    if t == [] then []
    else
      var front, last := Waiting(t[..|t| - 1]), t[|t| - 1];
      if last.needsResub then front + [last] else front
  }

  /** Those that one request takes. */
  function NextBatch(t: Table, limit: nat): seq<Row>
  {
    if |Waiting(t)| <= limit then Waiting(t) else Waiting(t)[..limit]
  }

  function Asked(rows: seq<Row>): (subs: seq<TopicSubscription>)
    ensures |subs| == |rows|
  {
    seq(|rows|, i requires 0 <= i < |rows| => TopicSubscription(rows[i].filter, rows[i].requestedQos))
  }

  function IdsOf(rows: seq<Row>): (ids: seq<u16>)
    ensures |ids| == |rows|
  {
    seq(|rows|, i requires 0 <= i < |rows| => rows[i].subId)
  }

  lemma {:induction false} WaitingGrows(t: Table, i: nat)
    requires i <= |t|
    ensures Waiting(t[..i]) <= Waiting(t)
    decreases |t| - i
  {
    if i == |t| {
      assert t[..i] == t;
    } else {
      assert t[..i + 1][..i] == t[..i];
      WaitingGrows(t, i + 1);
    }
  }

  lemma WaitingNext(t: Table, i: nat)
    requires i < |t|
    ensures Waiting(t[..i + 1]) == if t[i].needsResub then Waiting(t[..i]) + [t[i]] else Waiting(t[..i])
  {
    assert t[..i + 1][..i] == t[..i];
  }

  lemma AskedMore(rows: seq<Row>, r: Row)
    ensures Asked(rows + [r]) == Asked(rows) + [TopicSubscription(r.filter, r.requestedQos)]
    ensures IdsOf(rows + [r]) == IdsOf(rows) + [r.subId]
  {
  }

  lemma BatchFull(t: Table, i: nat, limit: nat)
    requires i <= |t| && |Waiting(t[..i])| == limit
    ensures NextBatch(t, limit) == Waiting(t[..i])
  {
    WaitingGrows(t, i);
  }

  /** Collects flagged rows, in table order, until the request is full. */
  method Batch(t: Table, limit: nat) returns (subs: seq<TopicSubscription>, ids: seq<u16>)
    requires limit > 0
    ensures subs == Asked(NextBatch(t, limit)) && ids == IdsOf(NextBatch(t, limit))
    ensures |subs| == |ids| <= limit
    ensures forall k :: 0 <= k < |ids| ==> IsFlagged(t, ids[k], subs[k])
    ensures |ids| < limit ==> forall i :: 0 <= i < |t| && t[i].needsResub ==> t[i].subId in ids
  {
    subs, ids := [], [];
    var i := 0;
    hide Waiting, Asked, IdsOf;
    NoneWaiting();
    assert t[..0] == [];
    while i < |t|
      invariant i <= |t| && |subs| == |ids| < limit
      invariant subs == Asked(Waiting(t[..i])) && ids == IdsOf(Waiting(t[..i]))
      invariant forall k :: 0 <= k < |ids| ==> IsFlagged(t, ids[k], subs[k])
      invariant forall k :: 0 <= k < i && t[k].needsResub ==> t[k].subId in ids
    {
      WaitingNext(t, i);
      if t[i].needsResub {
        AskedMore(Waiting(t[..i]), t[i]);
        subs, ids := subs + [TopicSubscription(t[i].filter, t[i].requestedQos)], ids + [t[i].subId];
        if |ids| == limit {
          BatchFull(t, i + 1, limit);
          return;
        }
      }
      i := i + 1;
    }
    assert t[..i] == t;
  }

  lemma NoneWaiting()
    ensures Waiting([]) == [] && Asked([]) == [] && IdsOf([]) == []
  {
  }

  /** find_by_sub_id. */
  method FindId(t: Table, sid: u16) returns (i: nat)
    ensures i <= |t| && (i < |t| ==> t[i].subId == sid) && forall k :: 0 <= k < i ==> t[k].subId != sid
  {
    i := 0;
    while i < |t|
      invariant i <= |t| && forall k :: 0 <= k < i ==> t[k].subId != sid
    {
      if t[i].subId == sid { return; }
      i := i + 1;
    }
  }

  ghost predicate Unflagged(a: Table, b: Table, ids: seq<u16>)
  {
    |a| == |b| && forall i :: 0 <= i < |a| ==> b[i] == a[i].(needsResub := a[i].needsResub && a[i].subId !in ids)
  }

  /** The rows a request names are no longer waiting for one; no other row changes. */
  method ClearFlags(t0: Table, ids: seq<u16>, max: nat) returns (t: Table)
    requires TableOk(t0, max)
    ensures Unflagged(t0, t, ids) && TableOk(t, max)
  {
    hide Topic.ValidFilter;
    t := t0;
    var j := 0;
    while j < |ids|
      invariant j <= |ids| && Unflagged(t0, t, ids[..j])
    {
      var i := FindId(t, ids[j]);
      assert ids[..j + 1] == ids[..j] + [ids[j]];
      if i < |t| { t := t[i := t[i].(needsResub := false)]; }
      j := j + 1;
    }
    assert ids[..j] == ids;
  }

  lemma UnflaggedCovered(a: Table, b: Table, ids: seq<u16>, pending: seq<PendingAck>, granted: set<u16>)
    requires Unflagged(a, b, ids) && Covered(a, pending, granted, [])
    ensures Covered(b, pending, granted, ids) && Extends(a, b)
  {
    hide Named;
  }

  //
  // Acknowledgements
  //

  /** erase_subscription, as a loop. */
  method Erase(t: Table, sid: u16) returns (r: Table)
    ensures r == EraseRow(t, sid)
  {
    var i := FindId(t, sid);
    ghost var k := EraseShape(t, sid);
    hide EraseRow;
    r := if i < |t| then t[..i] + t[i + 1..] else t;
  }

  method Grant(t: Table, sid: u16, code: byte) returns (r: Table)
    ensures r == GrantRow(t, sid, code)
  {
    var i := FindId(t, sid);
    ghost var k := GrantShape(t, sid, code);
    hide GrantRow;
    r := if i < |t| then t[i := t[i].(grantedQos := code, needsResub := false)] else t;
  }

  /** The rows that a SUBACK grants. */
  function Grants(sids: seq<u16>, codes: bytes): set<u16>
    requires |sids| == |codes|
  {
    set i | 0 <= i < |sids| && codes[i] != SUBACK_FAILURE :: sids[i]
  }

  /** What has been granted in this session once a SUBACK was handled: only rows that are left. */
  function GrantedThen(t: Table, granted: set<u16>, sids: seq<u16>, codes: bytes): set<u16>
    requires |sids| == |codes|
  {
    (granted + Grants(sids, codes)) * RowIds(t)
  }

  /** The loop of handle_suback. */
  method SettleRows(t0: Table, sids: seq<u16>, codes: bytes, max: nat) returns (t: Table)
    requires |sids| == |codes| && TableOk(t0, max)
    ensures t == Survivors(t0, sids, codes) && TableOk(t, max)
  {
    t := t0;
    var i := 0;
    hide TableOk;
    while i < |sids|
      invariant i <= |sids| && t == SettleAll(t0, sids[..i], codes[..i]) && TableOk(t, max)
    {
      SettleKeeps(t, sids[i], codes[i], max);
      SettleNext(t0, sids, codes, i);
      if codes[i] == SUBACK_FAILURE {
        t := Erase(t, sids[i]);
      } else {
        t := Grant(t, sids[i], codes[i]);
      }
      i := i + 1;
    }
    assert sids[..i] == sids && codes[..i] == codes;
    DistinctOf(t0, max);
    SubackExact(t0, sids, codes);
  }

  lemma {:induction false} SettleAllOk(t: Table, sids: seq<u16>, codes: bytes, max: nat)
    requires |sids| == |codes| && TableOk(t, max)
    ensures TableOk(SettleAll(t, sids, codes), max)
  {
    hide TableOk;
    if sids != [] {
      var n := |sids| - 1;
      SettleAllOk(t, sids[..n], codes[..n], max);
      SettleKeeps(SettleAll(t, sids[..n], codes[..n]), sids[n], codes[n], max);
    }
  }

  lemma {:induction false} SurvivorsOk(t: Table, sids: seq<u16>, codes: bytes, max: nat)
    requires |sids| == |codes| && TableOk(t, max)
    ensures TableOk(Survivors(t, sids, codes), max)
  {
    hide TableOk;
    SettleAllOk(t, sids, codes, max);
    DistinctOf(t, max);
    SubackExact(t, sids, codes);
  }

  /** So does what is left of the rows. */
  lemma {:induction false} SurvivorsConfluent(t: Table, a: seq<u16>, ca: bytes, b: seq<u16>, cb: bytes, max: nat)
    requires |a| == |ca| && |b| == |cb| && TableOk(t, max) && forall x :: x in a ==> x !in b
    ensures Survivors(Survivors(t, a, ca), b, cb) == Survivors(Survivors(t, b, cb), a, ca)
  {
    SubacksConfluent(t, a, ca, b, cb);
    SurvivorsOk(t, a, ca, max);
    SurvivorsOk(t, b, cb, max);
    DistinctOf(t, max);
    DistinctOf(Survivors(t, a, ca), max);
    DistinctOf(Survivors(t, b, cb), max);
    hide TableOk, SettleAll, Survivors, DistinctIds;
    SubackExact(t, a, ca);
    SubackExact(t, b, cb);
    SubackExact(Survivors(t, a, ca), b, cb);
    SubackExact(Survivors(t, b, cb), a, ca);
  }

  lemma {:induction false} SurvivorIds(t: Table, sids: seq<u16>, codes: bytes)
    requires |sids| == |codes|
    ensures RowIds(Survivors(t, sids, codes)) <= RowIds(t)
  {
    var r := Survivors(t, sids, codes);
    forall x | x in RowIds(r) ensures x in RowIds(t) {
      var i :| 0 <= i < |r| && r[i].subId == x;
      var j := SurvivorFrom(t, sids, codes, i);
      assert t[j].subId == x;
    }
  }

  lemma {:induction false} GrantedRow(row: Row, sids: seq<u16>, codes: bytes)
    requires |sids| == |codes| && !IsRefused(sids, codes, row.subId)
    ensures var r := Granted(row, sids, codes);
            if row.subId in sids then r.subId in Grants(sids, codes) && r.grantedQos != SUBACK_FAILURE
                && !r.needsResub else r == row
  {
    GrantedKeepsId(row, sids, codes);
    if row.subId in sids {
      var i :| 0 <= i < |sids| && sids[i] == row.subId;
      assert codes[i] != SUBACK_FAILURE;
      assert sids[i] in Grants(sids, codes);
      GrantedLast(row, sids, codes);
    }
  }

  lemma {:induction false} GrantedLast(row: Row, sids: seq<u16>, codes: bytes)
    requires |sids| == |codes| && row.subId in sids && !IsRefused(sids, codes, row.subId)
    ensures Granted(row, sids, codes).grantedQos != SUBACK_FAILURE && !Granted(row, sids, codes).needsResub
  {
    var n := |sids| - 1;
    RefusedStep(sids, codes, row.subId);
    if sids[n] != row.subId {
      assert row.subId in sids[..n];
      GrantedLast(row, sids[..n], codes[..n]);
    }
  }

  /** Every row left by a SUBACK is accounted for, also without the request that it answers. */
  lemma {:induction false} SettledCovered(t: Table, sids: seq<u16>, codes: bytes,
      pending: seq<PendingAck>, granted: set<u16>)
    requires |sids| == |codes| && Covered(t, pending, granted, []) && GrantedOk(t, granted)
    ensures var r := Survivors(t, sids, codes); var g := GrantedThen(r, granted, sids, codes);
            Covered(r, pending, g, []) && GrantedOk(r, g) && forall x :: x in sids && x in RowIds(r) ==> x in g
  {
    var r := Survivors(t, sids, codes);
    var g := GrantedThen(r, granted, sids, codes);
    forall i | 0 <= i < |r|
      ensures r[i].needsResub || r[i].subId in g || Named(pending, r[i].subId)
      ensures r[i].subId in g ==> r[i].grantedQos != SUBACK_FAILURE
      ensures r[i].subId in sids ==> r[i].subId in g
    {
      assert r[i].subId in RowIds(r);
      var j := SurvivorFrom(t, sids, codes, i);
      GrantedRow(t[j], sids, codes);
      hide Survivors, Granted, IsRefused, Named;
    }
  }

  lemma {:induction false} DroppedCovered(t: Table, sids: seq<u16>, pending: seq<PendingAck>, granted: set<u16>)
    requires Covered(t, pending, granted, []) && GrantedOk(t, granted)
    ensures var r := Without(t, sids); var g := granted * RowIds(r);
            Covered(r, pending, g, []) && GrantedOk(r, g)
  {
    var r := Without(t, sids);
    var g := granted * RowIds(r);
    forall i | 0 <= i < |r|
      ensures r[i].needsResub || r[i].subId in g || Named(pending, r[i].subId)
      ensures r[i].subId in g ==> r[i].grantedQos != SUBACK_FAILURE
    {
      assert r[i].subId in RowIds(r);
      SurvivesUnsuback(t, sids, r[i]);
      var j :| 0 <= j < |t| && t[j] == r[i];
      hide Without, Named;
    }
  }

  lemma DistinctOf(t: Table, max: nat)
    requires TableOk(t, max)
    ensures DistinctIds(t) && DistinctFilters(t)
  {
  }

  lemma {:induction false} SettleNext(t0: Table, sids: seq<u16>, codes: bytes, i: nat)
    requires |sids| == |codes| && i < |sids|
    ensures SettleAll(t0, sids[..i + 1], codes[..i + 1]) ==
            Settle(SettleAll(t0, sids[..i], codes[..i]), sids[i], codes[i])
  {
    assert sids[..i + 1][..i] == sids[..i] && codes[..i + 1][..i] == codes[..i];
  }

  /** The loop of handle_unsuback. */
  method EraseRows(t0: Table, sids: seq<u16>, max: nat) returns (t: Table)
    requires TableOk(t0, max)
    ensures t == Without(t0, sids) && TableOk(t, max)
  {
    t := t0;
    var i := 0;
    WithoutNone(t0);
    assert sids[..0] == [];
    hide TableOk;
    while i < |sids|
      invariant i <= |sids| && t == Without(t0, sids[..i]) && TableOk(t, max)
    {
      DistinctOf(t0, max);
      WithoutNext(t0, sids, i);
      EraseKeeps(t, sids[i], max);
      t := Erase(t, sids[i]);
      i := i + 1;
    }
    assert sids[..i] == sids;
  }

  /** The rows that are not named, in their old order. */
  function Without(t: Table, sids: seq<u16>): Table
  {
    if t == [] then []
    else if t[0].subId in sids then Without(t[1..], sids)
    else [t[0]] + Without(t[1..], sids)
  }

  /** A row survives an UNSUBACK exactly if its request does not name it, whatever was subscribed
      for its filter in the meantime. */
  lemma {:induction false} SurvivesUnsuback(t: Table, sids: seq<u16>, r: Row)
    ensures r in Without(t, sids) <==> r in t && r.subId !in sids
  {
    if t != [] {
      SurvivesUnsuback(t[1..], sids, r);
      assert r in t <==> r == t[0] || r in t[1..];
    }
  }

  lemma {:induction false} WithoutNone(t: Table)
    ensures Without(t, []) == t
  {
    if t != [] { WithoutNone(t[1..]); }
  }

  lemma {:induction false} WithoutNext(t: Table, sids: seq<u16>, i: nat)
    requires i < |sids| && DistinctIds(t)
    ensures Without(t, sids[..i + 1]) == EraseRow(Without(t, sids[..i]), sids[i])
  {
    if t != [] {
      var tail := t[1..];
      WithoutNext(tail, sids, i);
      assert sids[..i + 1] == sids[..i] + [sids[i]];
      var rest := Without(tail, sids[..i]);
      if t[0].subId !in sids[..i] {
        assert ([t[0]] + rest)[1..] == rest;
        if t[0].subId == sids[i] {
          WithoutIds(tail, sids[..i], sids[i]);
          EraseAbsent(rest, sids[i]);
        }
      }
    }
  }

  lemma {:induction false} WithoutIds(t: Table, sids: seq<u16>, x: u16)
    requires forall i :: 0 <= i < |t| ==> t[i].subId != x
    ensures forall i :: 0 <= i < |Without(t, sids)| ==> Without(t, sids)[i].subId != x
  {
    if t != [] { WithoutIds(t[1..], sids, x); }
  }

  lemma {:induction false} EraseAbsent(t: Table, x: u16)
    requires forall i :: 0 <= i < |t| ==> t[i].subId != x
    ensures EraseRow(t, x) == t
  {
    if t != [] { EraseAbsent(t[1..], x); }
  }

  //
  // The history of rows
  //

  function Pairs(t: Table): set<(u16, bytes)> { set i | 0 <= i < |t| :: (t[i].subId, t[i].filter) }

  predicate Removes(c: Change, row: (u16, bytes)) { !c.Added? && (c.subId, c.filter) == row }

  /** The rows registered and not removed since. */
  function Standing(h: seq<Change>): set<(u16, bytes)>
  {
    if h == [] then {}
    else
      var front, c := Standing(h[..|h| - 1]), h[|h| - 1];
      if c.Added? then front + {(c.subId, c.filter)} else front - {(c.subId, c.filter)}
  }

  lemma {:induction false} StandingAppend(h: seq<Change>, c: Change)
    ensures Standing(h + [c]) == if c.Added? then Standing(h) + {(c.subId, c.filter)}
            else Standing(h) - {(c.subId, c.filter)}
  {
    assert (h + [c])[..|h|] == h;
  }

  /** A row leaves only through a removal: between two moments of a history it is still there, or
      the removal was recorded in between. */
  lemma {:induction false} KeptOrRecorded(a: seq<Change>, b: seq<Change>, row: (u16, bytes))
    requires a <= b && row in Standing(a)
    ensures row in Standing(b) || exists k :: |a| <= k < |b| && Removes(b[k], row)
    decreases |b|
  {
    if |a| == |b| {
      assert a == b;
    } else {
      var front, c := b[..|b| - 1], b[|b| - 1];
      KeptOrRecorded(a, front, row);
      if row !in Standing(front) {
        var k :| |a| <= k < |front| && Removes(front[k], row);
        assert Removes(b[k], row);
      } else if row !in Standing(b) {
        assert Removes(b[|b| - 1], row);
      }
    }
  }

  function AddedAll(rows: Table): (h: seq<Change>)
    ensures |h| == |rows| && forall i :: 0 <= i < |rows| ==> h[i] == Added(rows[i].subId, rows[i].filter)
  {
    seq(|rows|, i requires 0 <= i < |rows| => Added(rows[i].subId, rows[i].filter))
  }

  function RefusedAll(rows: Table): (h: seq<Change>)
    ensures |h| == |rows| && forall i :: 0 <= i < |rows| ==> h[i] == Refused(rows[i].subId, rows[i].filter)
  {
    seq(|rows|, i requires 0 <= i < |rows| => Refused(rows[i].subId, rows[i].filter))
  }

  function UnsubscribedAll(rows: Table): (h: seq<Change>)
    ensures |h| == |rows| && forall i :: 0 <= i < |rows| ==> h[i] == Unsubscribed(rows[i].subId, rows[i].filter)
  {
    seq(|rows|, i requires 0 <= i < |rows| => Unsubscribed(rows[i].subId, rows[i].filter))
  }

  lemma PairsAppend(t: Table, r: Row)
    ensures Pairs(t + [r]) == Pairs(t) + {(r.subId, r.filter)}
  {
    var u := t + [r];
    forall x | x in Pairs(t) ensures x in Pairs(u) {
      var i :| 0 <= i < |t| && (t[i].subId, t[i].filter) == x;
      assert u[i] == t[i];
    }
    assert u[|t|] == r;
  }

  lemma {:induction false} StandingAdds(h: seq<Change>, rows: Table)
    ensures Standing(h + AddedAll(rows)) == Standing(h) + Pairs(rows)
  {
    if rows == [] {
      assert h + AddedAll(rows) == h && Pairs(rows) == {};
    } else {
      var front, last := rows[..|rows| - 1], rows[|rows| - 1];
      StandingAdds(h, front);
      assert front + [last] == rows;
      PairsAppend(front, last);
      assert h + AddedAll(rows) == h + AddedAll(front) + [Added(last.subId, last.filter)];
      StandingAppend(h + AddedAll(front), Added(last.subId, last.filter));
    }
  }

  lemma NoPairs()
    ensures Pairs([]) == {}
  {
  }

  lemma {:induction false} StandingRemoves(h: seq<Change>, rows: Table, gone: seq<Change>)
    requires |gone| == |rows| && forall i :: 0 <= i < |rows| ==> Removes(gone[i], (rows[i].subId, rows[i].filter))
    ensures Standing(h + gone) == Standing(h) - Pairs(rows)
  {
    hide Standing, Pairs;
    if rows == [] {
      NoPairs();
      assert h + gone == h;
    } else {
      var n := |rows| - 1;
      StandingRemoves(h, rows[..n], gone[..n]);
      assert rows[..n] + [rows[n]] == rows && gone[..n] + [gone[n]] == gone;
      PairsAppend(rows[..n], rows[n]);
      assert h + gone == h + gone[..n] + [gone[n]];
      StandingAppend(h + gone[..n], gone[n]);
    }
  }

  /** The rows that a SUBACK refuses, and those that an UNSUBACK names. */
  function RefusedRows(t: Table, sids: seq<u16>, codes: bytes): Table
    requires |sids| == |codes|
  {
    if t == [] then []
    else if IsRefused(sids, codes, t[0].subId) then [t[0]] + RefusedRows(t[1..], sids, codes)
    else RefusedRows(t[1..], sids, codes)
  }

  function NamedRows(t: Table, sids: seq<u16>): Table
  {
    if t == [] then []
    else if t[0].subId in sids then [t[0]] + NamedRows(t[1..], sids)
    else NamedRows(t[1..], sids)
  }

  lemma PairsCons(r: Row, t: Table)
    ensures Pairs([r] + t) == {(r.subId, r.filter)} + Pairs(t)
  {
    var u := [r] + t;
    assert u[0] == r;
    forall x | x in Pairs(t) ensures x in Pairs(u) {
      var i :| 0 <= i < |t| && (t[i].subId, t[i].filter) == x;
      assert u[i + 1] == t[i];
    }
    forall x | x in Pairs(u) ensures x in {(r.subId, r.filter)} + Pairs(t) {
      var i :| 0 <= i < |u| && (u[i].subId, u[i].filter) == x;
      if i > 0 { assert t[i - 1] == u[i]; }
    }
  }

  lemma {:induction false} SurvivorPairs(t: Table, sids: seq<u16>, codes: bytes)
    requires |sids| == |codes| && DistinctIds(t)
    ensures Pairs(Survivors(t, sids, codes)) == Pairs(t) - Pairs(RefusedRows(t, sids, codes))
    ensures Pairs(RefusedRows(t, sids, codes)) <= Pairs(t)
  {
    hide IsRefused;
    if t != [] {
      var row, tail := t[0], t[1..];
      assert DistinctIds(tail) && t == [row] + tail;
      SurvivorPairs(tail, sids, codes);
      PairsCons(row, tail);
      OtherPair(row, tail);
      if IsRefused(sids, codes, row.subId) {
        PairsCons(row, RefusedRows(tail, sids, codes));
      } else {
        GrantedKeepsId(row, sids, codes);
        PairsCons(Granted(row, sids, codes), Survivors(tail, sids, codes));
      }
    }
  }

  lemma OtherPair(row: Row, tail: Table)
    requires forall j :: 0 <= j < |tail| ==> tail[j].subId != row.subId
    ensures (row.subId, row.filter) !in Pairs(tail)
  {
  }

  lemma {:induction false} WithoutPairs(t: Table, sids: seq<u16>)
    requires DistinctIds(t)
    ensures Pairs(Without(t, sids)) == Pairs(t) - Pairs(NamedRows(t, sids)) && Pairs(NamedRows(t, sids)) <= Pairs(t)
  {
    if t != [] {
      var row, tail := t[0], t[1..];
      assert DistinctIds(tail) && t == [row] + tail;
      WithoutPairs(tail, sids);
      PairsCons(row, tail);
      OtherPair(row, tail);
      if row.subId in sids {
        PairsCons(row, NamedRows(tail, sids));
      } else {
        PairsCons(row, Without(tail, sids));
      }
    }
  }

  /** The history agrees with the table. */
  ghost predicate RowsOk(h: seq<Change>, t: Table) { Standing(h) == Pairs(t) }

  lemma GrantedExtends(t: Table, t': Table, granted: set<u16>, max: nat)
    requires GrantedOk(t, granted) && Extends(t, t') && TableOk(t', max)
    ensures GrantedOk(t', granted)
  {
    hide Topic.ValidFilter;
    forall x | x in granted ensures x in RowIds(t') {
      var i :| 0 <= i < |t| && t[i].subId == x;
      assert t'[i].subId == x;
    }
    forall i | 0 <= i < |t'| && t'[i].subId in granted ensures t'[i].grantedQos != SUBACK_FAILURE {
      var j :| 0 <= j < |t| && t[j].subId == t'[i].subId;
      assert t'[j].subId == t'[i].subId && i == j;
    }
  }

  lemma RowsAdded(h: seq<Change>, t: Table, t': Table)
    requires RowsOk(h, t) && Extends(t, t')
    ensures RowsOk(h + AddedAll(t'[|t|..]), t')
  {
    StandingAdds(h, t'[|t|..]);
    assert Pairs(t') == Pairs(t) + Pairs(t'[|t|..]) by {
      forall x | x in Pairs(t) ensures x in Pairs(t') {
        var i :| 0 <= i < |t| && (t[i].subId, t[i].filter) == x;
        assert (t'[i].subId, t'[i].filter) == x;
      }
      forall x | x in Pairs(t'[|t|..]) ensures x in Pairs(t') {
        var i :| 0 <= i < |t'[|t|..]| && (t'[|t|..][i].subId, t'[|t|..][i].filter) == x;
        assert t'[|t| + i] == t'[|t|..][i];
      }
      forall x | x in Pairs(t') ensures x in Pairs(t) + Pairs(t'[|t|..]) {
        var i :| 0 <= i < |t'| && (t'[i].subId, t'[i].filter) == x;
        if i < |t| { assert (t[i].subId, t[i].filter) == x; } else { assert t'[|t|..][i - |t|] == t'[i]; }
      }
    }
  }

  lemma {:induction false} RowsSettled(h: seq<Change>, t: Table, sids: seq<u16>, codes: bytes)
    requires RowsOk(h, t) && |sids| == |codes| && DistinctIds(t)
    ensures RowsOk(h + RefusedAll(RefusedRows(t, sids, codes)), Survivors(t, sids, codes))
  {
    var gone := RefusedRows(t, sids, codes);
    StandingRemoves(h, gone, RefusedAll(gone));
    SurvivorPairs(t, sids, codes);
  }

  lemma {:induction false} RowsDropped(h: seq<Change>, t: Table, sids: seq<u16>)
    requires RowsOk(h, t) && DistinctIds(t)
    ensures RowsOk(h + UnsubscribedAll(NamedRows(t, sids)), Without(t, sids))
  {
    var gone := NamedRows(t, sids);
    StandingRemoves(h, gone, UnsubscribedAll(gone));
    WithoutPairs(t, sids);
  }

  /** Tables with the same ids and filters in the same places agree with the same history. */
  lemma RowsSame(h: seq<Change>, t: Table, t': Table)
    requires RowsOk(h, t) && Extends(t, t') && |t| == |t'|
    ensures RowsOk(h, t')
  {
    RowsAdded(h, t, t');
    assert h + AddedAll(t'[|t|..]) == h;
  }

  /** Every row of t is in t' or was removed by an acknowledgement recorded in between. */
  ghost predicate RowsKept(t: Table, t': Table, h: seq<Change>, h': seq<Change>)
  {
    forall row :: row in Pairs(t) ==> row in Pairs(t') || exists k :: |h| <= k < |h'| && Removes(h'[k], row)
  }

  lemma RowsAccounted(t: Table, t': Table, h: seq<Change>, h': seq<Change>)
    requires RowsOk(h, t) && RowsOk(h', t') && h <= h'
    ensures RowsKept(t, t', h, h')
  {
    hide Standing, Pairs;
    forall row | row in Pairs(t) && row !in Pairs(t') ensures exists k :: |h| <= k < |h'| && Removes(h'[k], row) {
      KeptOrRecorded(h, h', row);
    }
  }
}
