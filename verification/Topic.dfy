/** Topic names, topic filters and their matching (src/topic.cpp), against the level lists of
    section 4.7 of MQTT 3.1.1. A text is a sequence of numbers, so that the same definitions
    speak about bytes and about code points. */
module Topic {
  import opened Types
  import opened Utf8

  type Text = seq<nat>

  const SLASH: nat := 0x2F
  const PLUS: nat := 0x2B
  const HASH: nat := 0x23
  const DOLLAR: nat := 0x24

  /** Where the level starting at `from` ends. */
  function LevelEnd(s: Text, from: nat): (e: nat)
    requires from <= |s|
    ensures from <= e <= |s| && (e < |s| ==> s[e] == SLASH)
    decreases |s| - from
  {
    if from == |s| || s[from] == SLASH then from else LevelEnd(s, from + 1)
  }

  /** The levels of a text: what lies between its separators. Always at least one. */
  function Levels(s: Text): (r: seq<Text>)
    ensures |r| >= 1
    decreases |s|
  {
    var e := LevelEnd(s, 0);
    if e == |s| then [s] else [s[..e]] + Levels(s[e + 1..])
  }

  /** Level-by-level matching: '+' stands for one level, '#' for this level and all below it. */
  predicate LevelsMatch(f: seq<Text>, t: seq<Text>)
  {
    if f == [] then t == []
    else if f[0] == [HASH] then true
    else if t == [] then false
    else (f[0] == [PLUS] || f[0] == t[0]) && LevelsMatch(f[1..], t[1..])
  }

  /** Section 4.7 of MQTT 3.1.1: a filter that starts with a wildcard does not match a '$' topic. */
  predicate Matches(filter: Text, topic: Text)
  {
    && filter != [] && topic != []
    && !(topic[0] == DOLLAR && (filter[0] == PLUS || filter[0] == HASH))
    && LevelsMatch(Levels(filter), Levels(topic))
  }

  predicate HasWildcard(level: Text) { PLUS in level || HASH in level }

  /** Wildcards fill their level, and '#' is the last one. */
  predicate WildcardsPlaced(f: seq<Text>)
  {
    forall i :: 0 <= i < |f| ==> (HasWildcard(f[i]) ==> |f[i]| == 1) && (f[i] == [HASH] ==> i == |f| - 1)
  }

  ghost predicate ValidName(s: bytes)
  {
    0 < |s| <= MAX_STRING_LEN && WellFormed(s) && !HasWildcard(s)
  }

  ghost predicate ValidFilter(s: bytes)
  {
    0 < |s| <= MAX_STRING_LEN && WellFormed(s) && WildcardsPlaced(Levels(s))
  }

  method IsValidTopicName(name: bytes) returns (valid: bool)
    ensures valid <==> ValidName(name)
  {
    if |name| == 0 || |name| > MAX_STRING_LEN { return false; }
    var utf8 := IsValidMqttString(name);
    if !utf8 { return false; }
    for i := 0 to |name|
      invariant forall k :: 0 <= k < i ==> name[k] != PLUS && name[k] != HASH
    {
      if name[i] == PLUS || name[i] == HASH || name[i] == 0 {
        if name[i] == 0 { NoZeroByte(name, i); }
        return false;
      }
    }
    return true;
  }

  /** A well-formed MQTT string holds no zero byte, so the byte test for it never decides. */
  lemma {:induction false} NoZeroByte(s: bytes, i: nat)
    requires WellFormed(s) && i < |s|
    ensures s[i] != 0
    decreases |s|
  {
    var cs: Scalars :| EncodeAll(cs) == s;
    EncodeAllNonZero(cs, i);
  }

  lemma {:induction false} EncodeAllNonZero(cs: Scalars, i: nat)
    requires i < |EncodeAll(cs)|
    ensures EncodeAll(cs)[i] != 0
  {
    var e := EncodeScalar(cs[0]);
    if i >= |e| {
      EncodeAllNonZero(cs[1..], i - |e|);
    }
  }

  /** Scanning for the end of a level finds it. */
  lemma {:induction false} LevelEndUnique(s: Text, from: nat, e: nat)
    requires from <= e <= |s| && (e < |s| ==> s[e] == SLASH)
    requires forall k :: from <= k < e ==> s[k] != SLASH
    ensures LevelEnd(s, from) == e
    decreases e - from
  {
    if from < e {
      LevelEndUnique(s, from + 1, e);
    }
  }

  lemma {:induction false} LevelEndNoSlash(s: Text, from: nat)
    requires from <= |s|
    ensures forall k :: from <= k < LevelEnd(s, from) ==> s[k] != SLASH
    decreases |s| - from
  {
    if from < |s| && s[from] != SLASH {
      LevelEndNoSlash(s, from + 1);
    }
  }

  lemma {:induction false} LevelEndSuffix(s: Text, from: nat)
    requires from <= |s|
    ensures LevelEnd(s[from..], 0) == LevelEnd(s, from) - from
  {
    var e := LevelEnd(s, from);
    LevelEndNoSlash(s, from);
    LevelEndUnique(s[from..], 0, e - from);
  }

  /** The levels of a suffix, read off the whole text. */
  lemma LevelsFrom(s: Text, from: nat)
    requires from <= |s|
    ensures var e := LevelEnd(s, from);
            Levels(s[from..]) == if e == |s| then [s[from..e]] else [s[from..e]] + Levels(s[e + 1..])
  {
    LevelEndSuffix(s, from);
    var e := LevelEnd(s, from);
    assert s[from..][..e - from] == s[from..e];
    if e < |s| {
      assert s[from..][e - from + 1..] == s[e + 1..];
    } else {
      assert s[from..e] == s[from..];
    }
  }

  predicate LevelIsBad(level: Text, last: bool) { (HasWildcard(level) && |level| != 1) || (level == [HASH] && !last) }

  /** The part of a filter from `start` on is well placed; past the end there is nothing to place. */
  predicate PlacedFrom(s: Text, start: nat) { start > |s| || WildcardsPlaced(Levels(s[start..])) }

  predicate NoSlash(s: Text, lo: nat, hi: nat)
    requires lo <= hi <= |s|
  {
    forall k :: lo <= k < hi ==> s[k] != SLASH
  }

  lemma PlacedStepAt(s: Text, start: nat, end: nat)
    requires start <= end <= |s| && (end < |s| ==> s[end] == SLASH) && NoSlash(s, start, end)
    ensures PlacedFrom(s, start) <==> !LevelIsBad(s[start..end], end == |s|) && PlacedFrom(s, end + 1)
  {
    var level := s[start..end];
    var rest: seq<Text> := if end == |s| then [] else Levels(s[end + 1..]);
    assert WildcardsPlaced([]);
    assert Levels(s[start..]) == [level] + rest by {
      LevelEndUnique(s, start, end);
      LevelsFrom(s, start);
    }
    hide LevelEnd;
    hide Levels;
    hide HasWildcard;
    hide WildcardsPlaced;
    PlacedStep(level, rest);
  }

  method IsValidFilter(filter: bytes) returns (valid: bool)
    ensures valid <==> ValidFilter(filter)
  {
    if |filter| == 0 || |filter| > MAX_STRING_LEN { return false; }
    var utf8 := IsValidMqttString(filter);
    if !utf8 { return false; }
    assert filter[0..] == filter;
    assert ValidFilter(filter) <==> PlacedFrom(filter, 0);
    hide ValidFilter;
    hide PlacedFrom;
    hide LevelIsBad;
    var levelStart: nat := 0;
    var i: nat := 0;
    while i <= |filter|
      invariant levelStart <= i <= |filter| + 1
      invariant i == |filter| + 1 ==> levelStart == i
      invariant i <= |filter| ==> NoSlash(filter, levelStart, i)
      invariant PlacedFrom(filter, 0) <==> PlacedFrom(filter, levelStart)
    {
      var atEnd := i == |filter|;
      if !atEnd && filter[i] != SLASH {
        if filter[i] == 0 { NoZeroByte(filter, i); return false; }
        i := i + 1;
        continue;
      }
      PlacedStepAt(filter, levelStart, i);
      var bad := BadLevel(filter, levelStart, i, atEnd);
      if bad { return false; }
      i := i + 1;
      levelStart := i;
    }
    PlacedPastEnd(filter, levelStart);
    return true;
  }

  lemma PlacedPastEnd(s: Text, start: nat)
    requires start > |s|
    ensures PlacedFrom(s, start)
  {
  }

  /** The test of one level: a wildcard that shares its level, or a '#' before the last one. */
  method BadLevel(filter: bytes, start: nat, end: nat, atEnd: bool) returns (bad: bool)
    requires start <= end <= |filter|
    ensures bad <==> LevelIsBad(filter[start..end], atEnd)
  {
    ghost var level: Text := filter[start..end];
    if end - start > 1 {
      for j := start to end
        invariant forall k :: 0 <= k < j - start ==> level[k] != PLUS && level[k] != HASH
      {
        assert level[j - start] == filter[j];
        if filter[j] == PLUS || filter[j] == HASH { return true; }
      }
    } else if end - start == 1 && filter[start] == HASH {
      assert level == [HASH];
      if !atEnd { return true; }
    }
    return false;
  }

  lemma PlacedStep(level: Text, rest: seq<Text>)
    ensures WildcardsPlaced([level] + rest) <==>
            (HasWildcard(level) ==> |level| == 1) && (level == [HASH] ==> rest == []) && WildcardsPlaced(rest)
  {
    var f := [level] + rest;
    assert f[0] == level;
    if WildcardsPlaced(f) {
      forall i | 0 <= i < |rest|
        ensures (HasWildcard(rest[i]) ==> |rest[i]| == 1) && (rest[i] == [HASH] ==> i == |rest| - 1)
      {
        assert f[i + 1] == rest[i];
      }
    }
  }

  //
  // Matching
  //

  /** The scan for the next separator. */
  method ScanLevel(s: Text, from: nat) returns (e: nat)
    requires from <= |s|
    ensures e == LevelEnd(s, from)
  {
    e := from;
    while e < |s| && s[e] != SLASH
      invariant from <= e <= |s|
      invariant LevelEnd(s, from) == LevelEnd(s, e)
    {
      e := e + 1;
    }
  }

  lemma SplitFirst(s: Text, from: nat)
    requires from <= |s|
    ensures var e := LevelEnd(s, from); var ls := Levels(s[from..]);
            ls[0] == s[from..e] && ls[1..] == if e == |s| then [] else Levels(s[e + 1..])
  {
    LevelsFrom(s, from);
  }

  /** The level that starts at `from`. */
  method NextLevel(s: Text, from: nat) returns (e: nat, level: Text)
    requires from <= |s|
    ensures from <= e <= |s| && level == Levels(s[from..])[0]
    ensures Levels(s[from..])[1..] == if e == |s| then [] else Levels(s[e + 1..])
  {
    hide Levels;
    SplitFirst(s, from);
    e := ScanLevel(s, from);
    level := s[from..e];
  }

  /** A '#' with more levels after it stands, as the first '#', right below the n-th level. */
  predicate InnerHash(fs: seq<Text>, n: nat)
  {
    n + 1 < |fs| && fs[n] == [HASH] && forall j :: 0 <= j < n ==> fs[j] != [HASH]
  }

  lemma InnerHashTail(fs: seq<Text>, n: nat)
    requires fs != [] && n >= 1
    ensures InnerHash(fs, n) <==> fs[0] != [HASH] && InnerHash(fs[1..], n - 1)
  {
    if fs[0] != [HASH] && InnerHash(fs[1..], n - 1) {
      forall j | 0 <= j < n ensures fs[j] != [HASH] { if j > 0 { assert fs[j] == fs[1..][j - 1]; } }
    }
    if InnerHash(fs, n) {
      forall j | 0 <= j < n - 1 ensures fs[1..][j] != [HASH] { assert fs[1..][j] == fs[j + 1]; }
    }
  }

  /** What the matcher answers. */
  predicate Answer(fs: seq<Text>, ts: seq<Text>) { LevelsMatch(fs, ts) && !InnerHash(fs, |ts|) }

  /** One round of the matcher on the levels that are left. */
  lemma Round(fs: seq<Text>, ts: seq<Text>)
    requires fs != [] && ts != []
    ensures fs[0] == [HASH] ==> Answer(fs, ts)
    ensures fs[0] != [HASH] && fs[0] != [PLUS] && fs[0] != ts[0] ==> !Answer(fs, ts)
    ensures fs[0] != [HASH] && (fs[0] == [PLUS] || fs[0] == ts[0]) ==> (Answer(fs, ts) <==> Answer(fs[1..], ts[1..]))
  {
    InnerHashTail(fs, |ts|);
  }

  /** When one side has run out. */
  lemma LastRound(fs: seq<Text>, ts: seq<Text>)
    ensures fs == [] ==> (Answer(fs, ts) <==> ts == [])
    ensures fs != [] && ts == [] ==> (Answer(fs, ts) <==> fs == [[HASH]])
  {
    if fs != [] && ts == [] {
      assert InnerHash(fs, 0) <==> |fs| > 1 && fs[0] == [HASH];
      if Answer(fs, ts) { assert |fs| == 1 && fs[0] == [HASH]; }
    }
  }

  lemma {:induction false} OnlyHash(rest: Text)
    ensures rest == [HASH] <==> Levels(rest) == [[HASH]]
  {
    if rest == [HASH] { LevelEndUnique(rest, 0, 1); }
  }

  /** src/topic.cpp's two-cursor matcher. It is matching of level lists, except for a topic that ends
      right above a '#' that is not the last level, which no valid filter has. */
  method TopicMatches(filter: Text, topic: Text) returns (matched: bool)
    ensures matched <==> Matches(filter, topic) && !InnerHash(Levels(filter), |Levels(topic)|)
  {
    hide Levels, InnerHash, LevelsMatch;
    if filter == [] || topic == [] { return false; }
    if topic[0] == DOLLAR {
      if filter[0] == PLUS || filter[0] == HASH { return false; }
    }
    matched := WalkLevels(filter, topic);
  }

  /** The loop over both strings at once. */
  method WalkLevels(filter: Text, topic: Text) returns (matched: bool)
    ensures matched == Answer(Levels(filter), Levels(topic))
  {
    hide Answer, Levels, LevelEnd;
    assert filter[0..] == filter && topic[0..] == topic;
    var f, t := 0, 0;
    ghost var fs, ts := Levels(filter), Levels(topic);
    while true
      invariant f <= |filter| && t <= |topic|
      invariant fs == Levels(filter[f..]) && ts == Levels(topic[t..])
      invariant Answer(Levels(filter), Levels(topic)) == Answer(fs, ts)
      decreases |filter| - f
    {
      Round(fs, ts);
      LastRound(fs[1..], ts[1..]);
      var fEnd, fLevel := NextLevel(filter, f);
      if fLevel == [HASH] { return true; }
      var tEnd, tLevel := NextLevel(topic, t);
      if fLevel != [PLUS] && fLevel != tLevel { return false; }
      var fMore, tMore := fEnd < |filter|, tEnd < |topic|;
      if !fMore && !tMore { return true; }
      if !fMore && tMore { return false; }
      if fMore && !tMore {
        OnlyHash(filter[fEnd + 1..]);
        return filter[fEnd + 1..] == [HASH];
      }
      f, t := fEnd + 1, tEnd + 1;
      fs, ts := fs[1..], ts[1..];
    }
  }

  /** On valid filters there is no exception. */
  lemma {:induction false} ValidFilterMatchesExactly(filter: bytes, n: nat)
    requires ValidFilter(filter)
    ensures !InnerHash(Levels(filter), n)
  {
  }

  /** The one way the two definitions part: a '#' level that is not the last, as in "a/#/b"
      against "a". The level lists match at the '#'; the matcher wants "#" to be all that is left. */
  lemma HashInTheMiddle()
    ensures var filter, topic := [0x61, SLASH, HASH, SLASH, 0x62], [0x61];
            Matches(filter, topic) && InnerHash(Levels(filter), |Levels(topic)|)
  {
    var filter: Text := [0x61, SLASH, HASH, SLASH, 0x62];
    var rest: Text := [HASH, SLASH, 0x62];
    LevelEndUnique(filter, 0, 1);
    LevelEndUnique(rest, 0, 1);
    assert filter[2..] == rest && filter[..1] == [0x61] && rest[..1] == [HASH];
    assert Levels(filter) == [[0x61]] + Levels(rest);
    assert Levels(rest)[0] == [HASH] && |Levels(rest)| >= 2;
    LevelEndUnique([0x61], 0, 1);
    assert Levels(filter)[1] == [HASH];
    assert Levels([0x61]) == [[0x61]];
    assert Levels(filter)[1..] == Levels(rest);
  }
}
