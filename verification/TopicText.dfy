/** Matching bytes is matching characters: on well-formed UTF-8 the byte matcher of src/topic.cpp
    decides as the same rules over code points would, because the separator, the wildcards and
    '$' never occur inside a multi-byte sequence. */
module TopicText {
  import opened Utf8
  import opened Topic

  lemma {:induction false} EncodeConcat(a: Scalars, b: Scalars)
    ensures EncodeAll(a + b) == EncodeAll(a) + EncodeAll(b)
  {
    hide EncodeScalar;
    if a == [] {
      assert a + b == b;
    } else {
      assert (a + b)[1..] == a[1..] + b;
      EncodeConcat(a[1..], b);
    }
  }

  lemma EncodeOne(c: nat)
    requires Scalar(c)
    ensures EncodeAll([c]) == EncodeScalar(c)
  {
    var cs: Scalars := [c];
    assert cs[1..] == [];
  }

  /** A byte below 0x80 stands for itself and is not part of any longer sequence. */
  lemma AsciiStandsAlone(c: nat, i: nat)
    requires Scalar(c) && i < |EncodeScalar(c)|
    ensures EncodeScalar(c)[i] < 0x80 ==> EncodeScalar(c) == [c]
  {
  }

  lemma {:induction false} EncodeInjective(a: Scalars, b: Scalars)
    ensures EncodeAll(a) == EncodeAll(b) <==> a == b
  {
    DecodeEncoded(a);
    DecodeEncoded(b);
  }

  lemma {:induction false} EncodeAscii(c: nat, cs: Scalars)
    requires 0 < c < 0x80
    ensures EncodeAll(cs) == [c] <==> cs == [c]
  {
    EncodeOne(c);
    EncodeInjective(cs, [c]);
  }

  /** The first character is an ASCII one exactly when the first byte is. */
  lemma {:induction false} FirstByte(cs: Scalars, c: nat)
    requires cs != [] && 0 < c < 0x80
    ensures |EncodeAll(cs)| > 0 && (EncodeAll(cs)[0] == c <==> cs[0] == c)
  {
    AsciiStandsAlone(cs[0], 0);
    assert EncodeAll(cs)[0] == EncodeScalar(cs[0])[0];
  }

  lemma {:induction false} NoSlashInside(cs: Scalars)
    requires SLASH !in cs
    ensures SLASH !in EncodeAll(cs)
  {
    if cs != [] {
      NoSlashInside(cs[1..]);
      var e := EncodeScalar(cs[0]);
      forall i | 0 <= i < |e| ensures e[i] != SLASH { AsciiStandsAlone(cs[0], i); }
      hide EncodeScalar;
      hide Scalar;
    }
  }

  /** The first level ends at the same separator. */
  lemma {:induction false} LevelEndEncoded(cs: Scalars)
    ensures var e := LevelEnd(cs, 0);
            && LevelEnd(EncodeAll(cs), 0) == |EncodeAll(cs[..e])|
            && EncodeAll(cs) == EncodeAll(cs[..e]) + EncodeAll(cs[e..])
            && (e < |cs| ==> EncodeAll(cs[e..]) == [SLASH] + EncodeAll(cs[e + 1..]))
  {
    var e := LevelEnd(cs, 0);
    LevelEndNoSlash(cs, 0);
    var head: Scalars, tail: Scalars := cs[..e], cs[e..];
    assert cs == head + tail;
    EncodeConcat(head, tail);
    NoSlashInside(head);
    if e < |cs| {
      assert tail[0] == SLASH && tail[1..] == cs[e + 1..];
    }
    hide EncodeScalar;
    var s := EncodeAll(cs);
    var n := |EncodeAll(head)|;
    forall k | 0 <= k < n ensures s[k] != SLASH { assert s[k] == EncodeAll(head)[k]; }
    LevelEndUnique(s, 0, n);
  }

  predicate AllScalars(ls: seq<Text>) { forall i, j :: 0 <= i < |ls| && 0 <= j < |ls[i]| ==> Scalar(ls[i][j]) }

  function EncodeLevels(ls: seq<Text>): seq<Text>
    requires AllScalars(ls)
  {
    if ls == [] then [] else [EncodeAll(ls[0])] + EncodeLevels(ls[1..])
  }

  /** Encoding level by level is encoding and then splitting. */
  lemma {:induction false} LevelsEncoded(cs: Scalars)
    ensures AllScalars(Levels(cs)) && Levels(EncodeAll(cs)) == EncodeLevels(Levels(cs))
    decreases |cs|
  {
    hide EncodeAll, LevelEnd, Levels, AllScalars, EncodeLevels;
    var e := LevelEnd(cs, 0);
    LevelEndEncoded(cs);
    LevelsStep(cs);
    LevelsStep(EncodeAll(cs));
    if e == |cs| {
      assert cs[..e] == cs;
      OneLevel(cs);
    } else {
      var rest := cs[e + 1..];
      LevelsEncoded(rest);
      CutAt(EncodeAll(cs), EncodeAll(cs[..e]), EncodeAll(rest));
      MoreLevels(cs[..e], Levels(rest));
    }
  }

  lemma {:induction false} LevelsStep(s: Text)
    ensures var e := LevelEnd(s, 0); Levels(s) == if e == |s| then [s] else [s[..e]] + Levels(s[e + 1..])
  {
  }

  lemma CutAt(s: Text, a: Text, b: Text)
    requires s == a + ([SLASH] + b)
    ensures |a| < |s| && s[..|a|] == a && s[|a| + 1..] == b
  {
  }

  lemma OneLevel(cs: Scalars)
    ensures AllScalars([cs]) && EncodeLevels([cs]) == [EncodeAll(cs)]
  {
    assert [cs][1..] == [];
  }

  lemma MoreLevels(level: Scalars, rest: seq<Text>)
    requires AllScalars(rest)
    ensures AllScalars([level] + rest) && EncodeLevels([level] + rest) == [EncodeAll(level)] + EncodeLevels(rest)
  {
    var all := [level] + rest;
    assert all[1..] == rest;
    forall i, j | 0 <= i < |all| && 0 <= j < |all[i]| ensures Scalar(all[i][j]) {
      if i > 0 { assert all[i] == rest[i - 1]; }
    }
  }

  lemma {:induction false} LevelsMatchEncoded(fs: seq<Text>, ts: seq<Text>)
    requires AllScalars(fs) && AllScalars(ts)
    ensures LevelsMatch(EncodeLevels(fs), EncodeLevels(ts)) <==> LevelsMatch(fs, ts)
  {
    if fs != [] {
      EncodeAscii(HASH, fs[0]);
      EncodeAscii(PLUS, fs[0]);
      hide EncodeAll;
      assert EncodeLevels(fs)[1..] == EncodeLevels(fs[1..]);
      if ts != [] {
        EncodeInjective(fs[0], ts[0]);
        LevelsMatchEncoded(fs[1..], ts[1..]);
        assert EncodeLevels(ts)[1..] == EncodeLevels(ts[1..]);
      }
    }
  }

  /** Matching the encodings is matching the code points. */
  lemma {:induction false} MatchesOverCodePoints(filter: Scalars, topic: Scalars)
    ensures Matches(EncodeAll(filter), EncodeAll(topic)) <==> Matches(filter, topic)
  {
    if filter != [] && topic != [] {
      FirstByte(topic, DOLLAR);
      FirstByte(filter, PLUS);
      FirstByte(filter, HASH);
      LevelsEncoded(filter);
      LevelsEncoded(topic);
      LevelsMatchEncoded(Levels(filter), Levels(topic));
    }
  }
}
