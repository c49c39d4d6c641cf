/**
 The matcher on the bytes of filters and topics, without levels: `/` (47) parts them,
 `+` (43) alone between slashes stands for one, and a final `#` (35) for all that are left.
 */
module TopicBytes {
  import opened Sequences
  import opened RemainingLength
  import opened Packets
  import opened Topics

  /** The place of the first slash, or the length if there is none. */
  function Slash(s: bytes): (i: nat)
    ensures i <= |s| && 47 !in s[..i] && (i < |s| ==> s[i] == 47)
  {
    if s == [] || s[0] == 47 then 0
    else
      var i := 1 + Slash(s[1..]);
      assert s[..i] == [s[0]] + s[1..][..i - 1];
      i
  }

  predicate MatchesBytes(f: bytes, t: bytes) {
    var i, j := Slash(f), Slash(t);
    if i == |f| then f == [35] || (f == [43] && 47 !in t) || f == t
    else
      && f[..i] != [35] && (f[..i] == [43] || f[..i] == t[..j])
      && if j == |t| then f[i + 1..] == [35] else MatchesBytes(f[i + 1..], t[j + 1..])
  }

  lemma LevelFirst(a: bytes, b: bytes)
    requires 47 !in a
    ensures Levels(a + [47] + b) == [a] + Levels(b)
  {
    SplitPlain(a, 47);
    SplitAtSeparator(a, b, 47);
  }

  lemma Around(s: bytes, i: nat)
    requires i < |s| && s[i] == 47
    ensures s == s[..i] + [47] + s[i + 1..]
  {
    assert s[..i + 1] == s[..i] + [47];
    assert s == s[..i + 1] + s[i + 1..];
  }

  lemma FirstLevel(s: bytes)
    ensures Slash(s) == |s| ==> Levels(s) == [s]
    ensures Slash(s) < |s| ==> Levels(s) == [s[..Slash(s)]] + Levels(s[Slash(s) + 1..])
  {
    if Slash(s) == |s| {
      assert s[..|s|] == s;
      PlainLevel(s);
    } else {
      var a, b := s[..Slash(s)], s[Slash(s) + 1..];
      Around(s, Slash(s));
      hide Slash, Levels;
      LevelFirst(a, b);
    }
  }

  lemma PlainLevel(s: bytes)
    requires 47 !in s
    ensures Levels(s) == [s]
  {
    SplitPlain(s, 47);
  }

  lemma OneLevel(s: bytes)
    ensures |Levels(s)| == 1 <==> 47 !in s
    ensures 47 !in s ==> Levels(s) == [s]
  {
    FirstLevel(s);
    assert s[..|s|] == s;
  }

  lemma HashAlone(s: bytes)
    ensures Levels(s) == [[35]] <==> s == [35]
  {
    PlainLevel([35]);
    if Levels(s) == [[35]] {
      SplitInjective(s, [35], 47);
    }
  }

  lemma HashOnlyLastCons(first: Level, rest: seq<Level>)
    requires rest != []
    ensures HashOnlyLast([first] + rest) <==> first != [35] && HashOnlyLast(rest)
  {
    var fs := [first] + rest;
    if HashOnlyLast(fs) {
      forall i | 0 <= i < |rest| - 1 ensures rest[i] != HASH {
        assert fs[i + 1] != HASH;
      }
      assert fs[0] != HASH;
    }
  }

  lemma SingleFilter(f: Level, ts: seq<Level>)
    requires ts != []
    ensures MatchLevels([f], ts) <==> f == [35] || (|ts| == 1 && (f == [43] || f == ts[0]))
  {
    assert [f][1..] == [];
  }

  lemma ShortTopic(first: Level, rest: seq<Level>, t: Level)
    requires rest != [] && first != [35]
    ensures MatchLevels([first] + rest, [t]) <==> (first == [43] || first == t) && rest[0] == [35]
  {
    assert [t][1..] == [] && ([first] + rest)[1..] == rest;
  }

  lemma HashFirst(rest: seq<Level>)
    requires rest != []
    ensures HashOnlyLast(rest) && rest[0] == [35] <==> rest == [[35]]
  {
    if HashOnlyLast(rest) && |rest| > 1 {
      assert rest[0] != HASH;
    }
  }

  lemma LongTopic(first: Level, rest: seq<Level>, t: Level, ts: seq<Level>)
    requires first != [35]
    ensures MatchLevels([first] + rest, [t] + ts) <==> (first == [43] || first == t) && MatchLevels(rest, ts)
  {
    assert ([first] + rest)[1..] == rest && ([t] + ts)[1..] == ts;
  }

  /** One more level in front of a filter. */
  lemma LevelMore(first: Level, rest: bytes, t: bytes)
    requires 47 !in first
    ensures Matches(first + [47] + rest, t) <==>
            && first != [35]
            && if 47 !in t then (first == [43] || first == t) && rest == [35]
               else (first == [43] || first == t[..Slash(t)]) && Matches(rest, t[Slash(t) + 1..])
  {
    hide Levels, HashOnlyLast, MatchLevels;
    var gs := Levels(rest);
    LevelFirst(first, rest);
    FirstLevel(t);
    HashOnlyLastCons(first, gs);
    if 47 !in t {
      PlainLevel(t);
      HashFirst(gs);
      HashAlone(rest);
      if first != [35] {
        ShortTopic(first, gs, t);
      }
    } else if first != [35] {
      assert t[..|t|] == t;
      LongTopic(first, gs, t[..Slash(t)], Levels(t[Slash(t) + 1..]));
    }
  }

  lemma LastLevel(f: bytes, t: bytes)
    requires 47 !in f
    ensures Matches(f, t) <==> f == [35] || (f == [43] && 47 !in t) || f == t
  {
    PlainLevel(f);
    OneLevel(t);
    SingleFilter(f, Levels(t));
    if f == t {
      PlainLevel(t);
    }
  }

  /** The matcher is the one on bytes, for every filter and every topic. */
  lemma {:induction false} MatchesByBytes(f: bytes, t: bytes)
    ensures Matches(f, t) <==> MatchesBytes(f, t)
    decreases |f|
  {
    hide Matches, Slash;
    var i, j := Slash(f), Slash(t);
    assert f[..|f|] == f && t[..|t|] == t;
    if i == |f| {
      LastLevel(f, t);
    } else {
      Around(f, i);
      LevelMore(f[..i], f[i + 1..], t);
      if j < |t| {
        MatchesByBytes(f[i + 1..], t[j + 1..]);
      }
    }
  }

  // ---------- filters of one kind ----------

  /** `+` matches exactly the topics of one level, `#` every topic. */
  lemma SingleWildcards(t: bytes)
    ensures Matches([43], t) <==> 47 !in t
    ensures Matches([35], t)
  {
    LastLevel([43], t);
    LastLevel([35], t);
  }

  predicate NoWildcards(f: bytes) {
    35 !in f && 43 !in f
  }

  lemma {:induction false} PiecesWithin<T>(s: seq<T>, sep: T, c: T)
    requires c !in s
    ensures forall i :: 0 <= i < |Split(s, sep)| ==> c !in Split(s, sep)[i]
  {
    if s != [] {
      PiecesWithin(s[1..], sep, c);
    }
  }

  lemma PlainLevels(f: bytes)
    requires NoWildcards(f)
    ensures WildcardFree(Levels(f))
  {
    PiecesWithin(f, 47, 35);
    PiecesWithin(f, 47, 43);
    forall i | 0 <= i < |Levels(f)| ensures Levels(f)[i] != PLUS && Levels(f)[i] != HASH {
      assert 43 in PLUS && 35 in HASH;
    }
  }

  lemma {:induction false} HashLevels(fs: seq<Level>, ts: seq<Level>)
    requires WildcardFree(fs)
    ensures MatchLevels(fs + [[35]], ts) <==> fs <= ts
  {
    var gs := fs + [[35]];
    if fs != [] {
      assert gs[1..] == fs[1..] + [[35]];
      if ts != [] {
        HashLevels(fs[1..], ts[1..]);
        PrefixCons(fs, ts);
      }
    }
  }

  lemma {:induction false} PlusLevels(fs: seq<Level>, ts: seq<Level>)
    requires WildcardFree(fs)
    ensures MatchLevels(fs + [[43]], ts) <==> fs <= ts && |ts| == |fs| + 1
  {
    var gs := fs + [[43]];
    if fs == [] {
      assert gs[1..] == [];
    } else {
      assert gs[1..] == fs[1..] + [[43]];
      if ts != [] {
        PlusLevels(fs[1..], ts[1..]);
        PrefixCons(fs, ts);
      }
    }
  }

  lemma PrefixCons<T>(a: seq<T>, b: seq<T>)
    requires a != [] && b != []
    ensures a <= b <==> a[0] == b[0] && a[1..] <= b[1..]
  {
    assert a == [a[0]] + a[1..] && b == [b[0]] + b[1..];
  }

  lemma LevelsBehind(f: bytes, g: bytes)
    ensures Levels(f + [47] + g) == Levels(f) + Levels(g)
  {
    SplitAtSeparator(f, g, 47);
  }

  lemma BehindPrefix(f: bytes, t: bytes)
    requires f + [47] <= t
    ensures Levels(t) == Levels(f) + Levels(t[|f| + 1..])
  {
    LevelsBehind(f, t[|f| + 1..]);
    assert t == f + [47] + t[|f| + 1..];
  }

  lemma PrefixOfLevels(f: bytes, t: bytes)
    ensures Levels(f) <= Levels(t) <==> t == f || f + [47] <= t
  {
    var fs, ts := Levels(f), Levels(t);
    if fs <= ts {
      var gs := ts[|fs|..];
      assert ts == fs + gs;
      if gs == [] {
        SplitInjective(f, t, 47);
      } else {
        var g := Join(gs, 47);
        SplitJoin(gs, 47);
        LevelsBehind(f, g);
        SplitInjective(t, f + [47] + g, 47);
      }
    }
    if f + [47] <= t {
      BehindPrefix(f, t);
    }
  }

  lemma OneMoreLevel(f: bytes, t: bytes)
    ensures Levels(f) <= Levels(t) && |Levels(t)| == |Levels(f)| + 1 <==> f + [47] <= t && 47 !in t[|f| + 1..]
  {
    PrefixOfLevels(f, t);
    if f + [47] <= t {
      BehindPrefix(f, t);
      OneLevel(t[|f| + 1..]);
    }
  }

  lemma LastLevelOf(f: bytes, wildcard: byte)
    requires wildcard != 47
    ensures Levels(f + [47, wildcard]) == Levels(f) + [[wildcard]]
  {
    LevelsBehind(f, [wildcard]);
    OneLevel([wildcard]);
    assert f + [47, wildcard] == f + [47] + [wildcard];
  }

  /**
   Behind a part without wildcards: `f/#` matches f itself and whatever is below it, `f/+`
   exactly the topics one level below f, and f alone matches itself only.
   */
  lemma TrailingWildcards(f: bytes, t: bytes)
    requires NoWildcards(f)
    ensures Matches(f + [47, 35], t) <==> t == f || f + [47] <= t
    ensures Matches(f + [47, 43], t) <==> f + [47] <= t && 47 !in t[|f| + 1..]
    ensures Matches(f, t) <==> f == t
  {
    PlainLevels(f);
    PlainFilterIsEquality(f, t);
    LastLevelOf(f, 35);
    LastLevelOf(f, 43);
    HashLevels(Levels(f), Levels(t));
    PlusLevels(Levels(f), Levels(t));
    PrefixOfLevels(f, t);
    OneMoreLevel(f, t);
  }

  /** A level `#` with anything behind it makes the filter match nothing. */
  lemma MisplacedHash(f: bytes, g: bytes, t: bytes)
    ensures !Matches([35, 47] + g, t) && !Matches(f + [47, 35, 47] + g, t)
  {
    OneLevel([35]);
    LevelsBehind([35], g);
    assert [35, 47] + g == [35] + [47] + g;
    LastLevelOf(f, 35);
    LevelsBehind(f + [47, 35], g);
    assert f + [47, 35, 47] + g == f + [47, 35] + [47] + g;
    var fs := Levels(f + [47, 35, 47] + g);
    assert fs[|Levels(f)|] == HASH;
  }
}
