/**
 Topic filters (sections 4.7.1 and 4.7.3 of MQTT 3.1.1): the index-pair loop of
 `topic_matches`, and what it means in terms of substituting levels for wildcards.
 */
module Topics {
  import opened Sequences
  import opened RemainingLength
  import opened Packets

  type Level = bytes

  const SLASH: byte := 47
  const PLUS: Level := [43]
  const HASH: Level := [35]

  function Levels(s: bytes): (levels: seq<Level>)
    ensures |levels| >= 1
    ensures forall i :: 0 <= i < |levels| ==> SLASH !in levels[i]
  {
    Split(s, SLASH)
  }

  /** The scan of `split_topic`, which reads one separator past the end. */
  method SplitTopic(topic: bytes) returns (segments: seq<Level>)
    ensures segments == Levels(topic)
  {
    segments := [];
    var current: Level := [];
    var i := 0;
    while i <= |topic|
      invariant 0 <= i <= |topic| + 1
      invariant i <= |topic| ==> Levels(topic[..i]) == segments + [current]
      invariant i == |topic| + 1 ==> Levels(topic) == segments
    {
      var character := if i < |topic| then topic[i] else SLASH;
      if i < |topic| {
        SplitSnoc(topic[..i], topic[i], SLASH);
        assert topic[..i] + [topic[i]] == topic[..i + 1];
      } else {
        assert topic[..i] == topic;
      }
      if character == SLASH {
        segments := segments + [current];
        current := [];
      } else {
        current := current + [character];
      }
      i := i + 1;
    }
  }

  predicate HashOnlyLast(fs: seq<Level>) {
    forall i :: 0 <= i < |fs| - 1 ==> fs[i] != HASH
  }

  predicate MatchLevels(fs: seq<Level>, ts: seq<Level>) {
    if fs == [] then ts == []
    else if fs[0] == HASH then true
    else if ts == [] then false
    else (fs[0] == PLUS || fs[0] == ts[0]) && MatchLevels(fs[1..], ts[1..])
  }

  predicate Matches(filter: bytes, topic: bytes) {
    HashOnlyLast(Levels(filter)) && MatchLevels(Levels(filter), Levels(topic))
  }

  method TopicMatches(filter: bytes, topic: bytes) returns (b: bool)
    ensures b == Matches(filter, topic)
  {
    var fs := SplitTopic(filter);
    var ts := SplitTopic(topic);
    var k := 0;
    while k < |fs|
      invariant 0 <= k <= |fs|
      invariant forall i :: 0 <= i < k && i < |fs| - 1 ==> fs[i] != HASH
    {
      if fs[k] == HASH && k != |fs| - 1 {
        return false;
      }
      k := k + 1;
    }
    var i, j := 0, 0;
    while i < |fs| && j < |ts|
      invariant 0 <= i <= |fs| && 0 <= j <= |ts|
      invariant MatchLevels(fs, ts) == MatchLevels(fs[i..], ts[j..])
    {
      assert fs[i..][1..] == fs[i + 1..] && ts[j..][1..] == ts[j + 1..];
      if fs[i] == HASH {
        return true;
      }
      if fs[i] == PLUS {
        i, j := i + 1, j + 1;
        continue;
      }
      if fs[i] != ts[j] {
        return false;
      }
      i, j := i + 1, j + 1;
    }
    b := (i == |fs| && j == |ts|) || (i < |fs| && fs[i] == HASH);
  }

  // ---------- what matching means ----------

  /** The runs of topic levels that one filter level stands for. */
  predicate StandsFor(level: Level, run: seq<Level>) {
    if level == HASH then true
    else if level == PLUS then |run| == 1
    else run == [level]
  }

  ghost predicate Substitutes(fs: seq<Level>, runs: seq<seq<Level>>, ts: seq<Level>) {
    && |runs| == |fs|
    && (forall i :: 0 <= i < |fs| ==> StandsFor(fs[i], runs[i]))
    && Flatten(runs) == ts
  }

  lemma {:induction false} SubstitutionMatches(fs: seq<Level>, runs: seq<seq<Level>>, ts: seq<Level>)
    requires Substitutes(fs, runs, ts)
    ensures MatchLevels(fs, ts)
  {
    if fs != [] && fs[0] != HASH {
      assert StandsFor(fs[0], runs[0]);
      SubstitutionMatches(fs[1..], runs[1..], ts[1..]);
    }
  }

  lemma {:induction false} MatchSubstitutes(fs: seq<Level>, ts: seq<Level>) returns (runs: seq<seq<Level>>)
    requires HashOnlyLast(fs) && MatchLevels(fs, ts)
    ensures Substitutes(fs, runs, ts)
  {
    if fs == [] {
      runs := [];
    } else if fs[0] == HASH {
      runs := [ts];
      FlattenSingle(ts);
    } else {
      var rest := MatchSubstitutes(fs[1..], ts[1..]);
      runs := [[ts[0]]] + rest;
      assert runs[1..] == rest;
    }
  }

  /**
   A filter matches a topic if and only if `#` is nowhere but in its last level and the
   topic is the filter with one level put for each `+` and any number for a final `#`.
   */
  lemma MatchesExactly(filter: bytes, topic: bytes)
    ensures Matches(filter, topic) <==>
            HashOnlyLast(Levels(filter)) && exists runs :: Substitutes(Levels(filter), runs, Levels(topic))
  {
    if Matches(filter, topic) {
      var runs := MatchSubstitutes(Levels(filter), Levels(topic));
    }
    if HashOnlyLast(Levels(filter)) {
      if runs :| Substitutes(Levels(filter), runs, Levels(topic)) {
        SubstitutionMatches(Levels(filter), runs, Levels(topic));
      }
    }
  }

  predicate WildcardFree(fs: seq<Level>) {
    forall i :: 0 <= i < |fs| ==> fs[i] != PLUS && fs[i] != HASH
  }

  lemma {:induction false} PlainLevelsMatch(fs: seq<Level>, ts: seq<Level>)
    requires WildcardFree(fs)
    ensures MatchLevels(fs, ts) <==> fs == ts
  {
    if fs != [] && ts != [] {
      PlainLevelsMatch(fs[1..], ts[1..]);
      if fs[0] == ts[0] && fs[1..] == ts[1..] {
        assert fs == [fs[0]] + fs[1..] && ts == [ts[0]] + ts[1..];
      }
    }
  }

  /** A filter without wildcard levels matches the topic that is the same string, and no other. */
  lemma PlainFilterIsEquality(filter: bytes, topic: bytes)
    requires WildcardFree(Levels(filter))
    ensures Matches(filter, topic) <==> filter == topic
  {
    PlainLevelsMatch(Levels(filter), Levels(topic));
    if Levels(filter) == Levels(topic) {
      SplitInjective(filter, topic, SLASH);
    }
  }

  // ---------- one filter covering another ----------

  predicate CoversLevels(fs: seq<Level>, gs: seq<Level>) {
    if fs == [] then gs == []
    else if fs[0] == HASH then true
    else if gs == [] || gs[0] == HASH then false
    else (fs[0] == PLUS || fs[0] == gs[0]) && CoversLevels(fs[1..], gs[1..])
  }

  /** A topic has at least one level, so `+/#` covers `#` although it does not do so level by level. */
  predicate Covers(f: bytes, g: bytes) {
    CoversLevels(Levels(f), Levels(g)) || (Levels(f) == [PLUS, HASH] && Levels(g) == [HASH])
  }

  lemma {:induction false} CoveredLevelsMatch(fs: seq<Level>, gs: seq<Level>, ts: seq<Level>)
    requires CoversLevels(fs, gs) && MatchLevels(gs, ts)
    ensures MatchLevels(fs, ts)
  {
    if fs != [] && fs[0] != HASH {
      CoveredLevelsMatch(fs[1..], gs[1..], ts[1..]);
    }
  }

  /** The topic levels with `filler` for every `+` and `pad` copies of it for a final `#`. */
  function Instance(gs: seq<Level>, filler: Level, pad: nat): seq<Level> {
    if gs == [] then []
    else if gs[0] == HASH then seq(pad, _ => filler)
    else [if gs[0] == PLUS then filler else gs[0]] + Instance(gs[1..], filler, pad)
  }

  ghost predicate SlashFree(levels: seq<Level>) {
    forall i :: 0 <= i < |levels| ==> SLASH !in levels[i]
  }

  lemma {:induction false} InstanceMatches(gs: seq<Level>, filler: Level, pad: nat)
    requires SlashFree(gs) && SLASH !in filler
    ensures MatchLevels(gs, Instance(gs, filler, pad)) && SlashFree(Instance(gs, filler, pad))
  {
    if gs != [] && gs[0] != HASH {
      InstanceMatches(gs[1..], filler, pad);
      var first, rest := if gs[0] == PLUS then filler else gs[0], Instance(gs[1..], filler, pad);
      var ts := Instance(gs, filler, pad);
      assert ts == [first] + rest && ts[1..] == rest;
      forall i | 0 <= i < |ts| ensures SLASH !in ts[i] {
        if i > 0 {
          assert ts[i] == rest[i - 1];
        }
      }
    }
  }

  lemma {:induction false} UncoveredInstance(fs: seq<Level>, gs: seq<Level>, filler: Level) returns (pad: nat)
    requires !CoversLevels(fs, gs) && filler !in fs
    ensures !MatchLevels(fs, Instance(gs, filler, pad))
    ensures pad <= 1
  {
    if fs == [] || gs == [] {
      pad := 1;
    } else if gs[0] == HASH {
      pad := 0;
    } else if fs[0] == PLUS || fs[0] == gs[0] {
      pad := UncoveredInstance(fs[1..], gs[1..], filler);
      assert Instance(gs, filler, pad)[1..] == Instance(gs[1..], filler, pad);
    } else {
      pad := 1;
    }
  }

  /** A level that occurs in no filter of a list: one longer than all of them. */
  function Filler(fs: seq<Level>): (level: Level)
    ensures SLASH !in level
    ensures |level| == |Flatten(fs)| + 1
  {
    seq(|Flatten(fs)| + 1, _ => 97)
  }

  lemma {:induction false} LevelNotLonger(fs: seq<Level>, level: Level)
    requires level in fs
    ensures |level| <= |Flatten(fs)|
  {
    if level != fs[0] {
      LevelNotLonger(fs[1..], level);
    }
  }

  lemma HashNeedsHash(fs: seq<Level>, filler: Level, pad: nat)
    requires fs != [] && fs[0] != HASH && HashOnlyLast(fs) && fs != [PLUS, HASH] && filler !in fs
    requires pad == if |fs| == 1 then 2 else 1
    ensures !MatchLevels(fs, seq(pad, _ => filler))
  {
    var ts := seq(pad, _ => filler);
    assert fs[0] in fs && ts[0] == filler;
    if |fs| > 1 && fs[1] == HASH {
      assert fs == [fs[0], HASH];
    }
  }

  lemma Counterexample(f: bytes, g: bytes) returns (topic: bytes)
    requires !Covers(f, g) && HashOnlyLast(Levels(f)) && HashOnlyLast(Levels(g))
    ensures Matches(g, topic) && !Matches(f, topic)
  {
    var fs, gs := Levels(f), Levels(g);
    var filler := Filler(fs);
    if filler in fs {
      LevelNotLonger(fs, filler);
    }
    var pad := UncoveredInstance(fs, gs, filler);
    if gs[0] == HASH {
      pad := if |fs| == 1 then 2 else 1;
      assert gs == [HASH];
      HashNeedsHash(fs, filler, pad);
      assert Instance(gs, filler, pad) == seq(pad, _ => filler);
    }
    var ts := Instance(gs, filler, pad);
    InstanceMatches(gs, filler, pad);
    topic := Join(ts, SLASH);
    SplitJoin(ts, SLASH);
  }

  /** A filter with `#` in its last level only, or nowhere, matches something. */
  lemma SomethingMatches(g: bytes) returns (topic: bytes)
    requires HashOnlyLast(Levels(g))
    ensures Matches(g, topic)
  {
    var ts := Instance(Levels(g), [97], 1);
    InstanceMatches(Levels(g), [97], 1);
    topic := Join(ts, SLASH);
    SplitJoin(ts, SLASH);
  }

  /**
   The syntactic test decides covering: f matches whatever g matches exactly when f
   covers g and has no misplaced `#`, or g has one and matches nothing.
   */
  lemma CoversExactly(f: bytes, g: bytes)
    ensures (forall topic :: Matches(g, topic) ==> Matches(f, topic)) <==>
            !HashOnlyLast(Levels(g)) || (HashOnlyLast(Levels(f)) && Covers(f, g))
  {
    if HashOnlyLast(Levels(g)) {
      if HashOnlyLast(Levels(f)) {
        CoversWellFormed(f, g);
      } else {
        var topic := SomethingMatches(g);
      }
    }
  }

  lemma CoversWellFormed(f: bytes, g: bytes)
    requires HashOnlyLast(Levels(f)) && HashOnlyLast(Levels(g))
    ensures Covers(f, g) <==> forall topic :: Matches(g, topic) ==> Matches(f, topic)
  {
    if CoversLevels(Levels(f), Levels(g)) {
      forall topic | Matches(g, topic) ensures Matches(f, topic) {
        CoveredLevelsMatch(Levels(f), Levels(g), Levels(topic));
      }
    } else if Covers(f, g) {
      forall topic | Matches(g, topic) ensures Matches(f, topic) {
        assert MatchLevels(Levels(f), Levels(topic)) == MatchLevels(Levels(f)[1..], Levels(topic)[1..]);
      }
    } else {
      var topic := Counterexample(f, g);
    }
  }
}
