/**
 The FTP server keeps of every chunk what comes before its first NUL. When the command
 lines of a stream with NULs depend on its chunking, exactly.
 */
module LostBytes {
  import opened Sequences
  import opened CommandLines

  /**
   A scan of a stream: can a line be dispatched of it, if it is cut up suitably? `p` is
   what is left over so far. After a NUL bytes are lost until a new chunk begins, and
   that may be before any of them.
   */
  predicate Speaks(p: string, lost: bool, s: string)
    decreases |s|, lost
  {
    if s == "" then false
    else if lost then Speaks(p, false, s) || Speaks(p, true, s[1..])
    else if s[0] == NUL then Speaks(p, true, s[1..])
    else if s[0] == LF then TrimCr(p) != "" || Speaks("", false, s[1..])
    else Speaks(p + [s[0]], false, s[1..])
  }

  lemma PlainText(p: string)
    requires LF !in p
    ensures Lines(p) == [] && Rest(p) == p && p + "" == p
  {
    SplitPlain(p, LF);
  }

  lemma CStringFirst(c: string)
    requires c != ""
    ensures CString(c) == if c[0] == NUL then "" else [c[0]] + CString(c[1..])
  {
  }

  lemma {:induction false} LostToEnd(p: string, c: string, r: string)
    requires !Speaks(p, true, c + r)
    ensures !Speaks(p, true, r) && !Speaks(p, false, r)
  {
    if c == "" {
      assert c + r == r;
    } else {
      assert (c + r)[1..] == c[1..] + r;
      LostToEnd(p, c[1..], r);
    }
  }

  lemma BlankLine(p: string, rest: string)
    requires LF !in p && TrimCr(p) == ""
    ensures Lines(p + ([LF] + rest)) == Lines(rest) && Rest(p + ([LF] + rest)) == Rest(rest)
  {
    FirstLine(p, rest);
    assert p + [LF] + rest == p + ([LF] + rest);
    assert [p][1..] == [] && Trimmed([p]) == [];
    assert [] + Lines(rest) == Lines(rest);
  }

  /** A chunk of a stream that cannot speak adds no line, and leaves a stream that cannot speak. */
  lemma {:induction false} QuietChunk(p: string, c: string, r: string)
    requires LF !in p && !Speaks(p, false, c + r)
    ensures Lines(p + CString(c)) == [] && !Speaks(Rest(p + CString(c)), false, r)
    decreases |c|
  {
    PlainText(p);
    if c == "" {
      assert c + r == r;
    } else {
      CStringFirst(c);
      assert (c + r)[0] == c[0] && (c + r)[1..] == c[1..] + r;
      if c[0] == NUL {
        LostToEnd(p, c[1..], r);
      } else if c[0] == LF {
        QuietChunk("", c[1..], r);
        BlankLine(p, CString(c[1..]));
        assert "" + CString(c[1..]) == CString(c[1..]);
      } else {
        QuietChunk(p + [c[0]], c[1..], r);
        ConcatAssociative(p, [c[0]], CString(c[1..]));
      }
    }
  }

  lemma {:induction false} NothingServed(p: string, chunks: seq<string>)
    requires LF !in p && !Speaks(p, false, Flatten(chunks))
    ensures Served(p, chunks) == []
    decreases |chunks|
  {
    if chunks != [] {
      QuietChunk(p, chunks[0], Flatten(chunks[1..]));
      NothingServed(Rest(p + CString(chunks[0])), chunks[1..]);
    }
  }

  // ---------- a stream that can speak ----------

  lemma {:induction false} LostFor(p: string, s: string) returns (k: nat)
    requires Speaks(p, true, s)
    ensures k <= |s| && Speaks(p, false, s[k..])
  {
    if Speaks(p, false, s) {
      k := 0;
      assert s[0..] == s;
    } else {
      k := LostFor(p, s[1..]);
      assert s[1..][k..] == s[k + 1..];
      k := k + 1;
    }
  }

  lemma FrontServed(p: string, chunk: string, chunks: seq<string>)
    ensures Flatten([chunk] + chunks) == chunk + Flatten(chunks)
    ensures var lines := Lines(p + CString(chunk));
            Served(p, [chunk] + chunks) ==
            lines + if HasQuit(lines) then [] else Served(Rest(p + CString(chunk)), chunks)
  {
    assert ([chunk] + chunks)[1..] == chunks;
  }

  lemma SilentFront(p: string, chunk: string, chunks: seq<string>)
    requires Lines(p + CString(chunk)) == []
    ensures Served(p, [chunk] + chunks) == Served(Rest(p + CString(chunk)), chunks)
  {
    FrontServed(p, chunk, chunks);
    assert !HasQuit([]);
  }

  /** Some way to cut it up lets a line through. */
  lemma {:induction false} SpokenChunks(p: string, s: string) returns (chunks: seq<string>)
    requires LF !in p && Speaks(p, false, s)
    ensures Flatten(chunks) == s && Served(p, chunks) != []
    decreases |s|, 0
  {
    hide Served, Lines, Rest;
    var c, rest := s[0], s[1..];
    assert s == [c] + rest;
    if c == NUL {
      var k := LostFor(p, rest);
      var later := SpokenChunks(p, rest[k..]);
      chunks := [s[..k + 1]] + later;
      CStringFirst(s[..k + 1]);
      PlainText(p);
      SilentFront(p, s[..k + 1], later);
      FrontServed(p, s[..k + 1], later);
      assert s[..k + 1] + rest[k..] == s;
    } else if c == LF {
      chunks := SpokenLine(p, rest);
    } else {
      var later := SpokenChunks(p + [c], rest);
      chunks := [[c]] + later;
      SingleCString(c);
      NoLineYet(p, c);
      SilentFront(p, [c], later);
      FrontServed(p, [c], later);
    }
  }

  lemma EndedLine(p: string)
    requires LF !in p
    ensures Lines(p + [LF]) == (if TrimCr(p) == "" then [] else [TrimCr(p)]) && Rest(p + [LF]) == ""
  {
    LineEnds(p);
    TrimmedOne([], p);
    assert [] + Trimmed([p]) == Trimmed([p]);
  }

  lemma RestIsPlain(text: string)
    ensures LF !in Rest(text)
  {
  }

  lemma {:induction false} SpokenLine(p: string, rest: string) returns (chunks: seq<string>)
    requires LF !in p && (TrimCr(p) != "" || Speaks("", false, rest))
    ensures Flatten(chunks) == [LF] + rest && Served(p, chunks) != []
    decreases |rest|, 1
  {
    hide Served, Lines, Rest, CString, Speaks;
    SingleCString(LF);
    EndedLine(p);
    var later := [rest];
    FlattenSingle(rest);
    if TrimCr(p) == "" {
      later := SpokenChunks("", rest);
      SilentFront(p, [LF], later);
    }
    chunks := [[LF]] + later;
    FrontServed(p, [LF], later);
  }

  // ---------- the part before the first NUL ----------

  /** Byte by byte up to the first NUL, and then as one likes. */
  lemma {:induction false} SinglesThen(p: string, a: string, more: seq<string>)
    requires LF !in p && NUL !in a
    ensures var lines := Lines(p + a);
            Served(p, Singles(a) + more) ==
            if HasQuit(lines) then UpToQuit(lines) else lines + Served(Rest(p + a), more)
    decreases |a|
  {
    if a == "" {
      PlainText(p);
      assert Singles(a) + more == more && !HasQuit([]) && [] + Served(p, more) == Served(p, more);
    } else {
      var c, rest := a[0], a[1..];
      var text := p + [c];
      assert c in a && (forall x :: x in rest ==> x in a);
      assert Singles(a) + more == [[c]] + (Singles(rest) + more);
      assert p + a == text + rest;
      SingleCString(c);
      FrontServed(p, [c], Singles(rest) + more);
      if c == LF {
        LineEnds(p);
        SinglesThen("", rest, more);
        assert "" + rest == rest;
        OneLineThen(p, rest, Served("", Singles(rest) + more), Served(Rest(rest), more));
      } else {
        NoLineYet(p, c);
        assert !HasQuit([]);
        SinglesThen(text, rest, more);
        assert [] + Served(text, Singles(rest) + more) == Served(text, Singles(rest) + more);
      }
    }
  }

  lemma OneLineThen(p: string, rest: string, served: seq<string>, later: seq<string>)
    requires LF !in p
    requires served == if HasQuit(Lines(rest)) then UpToQuit(Lines(rest)) else Lines(rest) + later
    ensures var first, lines := Lines(p + [LF]), Lines(p + [LF] + rest);
            first + (if HasQuit(first) then [] else served) == if HasQuit(lines) then UpToQuit(lines) else lines + later
    ensures Rest(p + [LF] + rest) == Rest(rest)
  {
    var first := Lines(p + [LF]);
    LineEnds(p);
    FirstLine(p, rest);
    OnlyLine(p);
    UpToQuitConcat(first, Lines(rest));
    QuitInConcat(first, Lines(rest));
    EndsWithQuit(first, served);
    ConcatAssociative(first, Lines(rest), later);
  }

  lemma QuitInConcat(a: seq<string>, b: seq<string>)
    ensures HasQuit(a + b) <==> HasQuit(a) || HasQuit(b)
  {
    if i :| 0 <= i < |a| && IsQuit(a[i]) {
      assert (a + b)[i] == a[i];
    }
    if i :| 0 <= i < |b| && IsQuit(b[i]) {
      assert (a + b)[|a| + i] == b[i];
    }
  }

  lemma QuitIsLast(first: seq<string>, rest: seq<string>)
    requires HasQuit(first) && UpToQuit(first + rest) == first + rest
    ensures first == first + rest
  {
    UpToQuitConcat(first, rest);
    UpToQuitPrefix(first);
    assert rest == [];
    assert first + [] == first;
  }

  lemma AfterNoQuit(first: seq<string>, rest: seq<string>)
    requires !HasQuit(first) && UpToQuit(first + rest) == first + rest
    ensures UpToQuit(rest) == rest
  {
    UpToQuitConcat(first, rest);
    assert rest == (first + rest)[|first|..] == (first + UpToQuit(rest))[|first|..] == UpToQuit(rest);
  }

  /** The same lines for every way to cut up a stream whose part before the first NUL is `a`. */
  lemma {:induction false} SameForAll(p: string, chunks: seq<string>, a: string, tail: string)
    requires LF !in p && NUL !in a && (tail == "" || tail[0] == NUL) && Flatten(chunks) == a + tail
    requires UpToQuit(Lines(p + a)) == Lines(p + a)
    requires HasQuit(Lines(p + a)) || !Speaks(Rest(p + a), false, tail)
    ensures Served(p, chunks) == Lines(p + a)
    decreases |chunks|, 0
  {
    if a == "" {
      PlainText(p);
      assert a + tail == tail && !HasQuit([]);
      NothingServed(p, chunks);
    } else {
      var c, more := chunks[0], chunks[1..];
      assert chunks == [c] + more;
      FrontServed(p, c, more);
      if |c| <= |a| {
        ChunkInFront(c, Flatten(more), a, tail);
        SameStep(p, c, more, a[|c|..], tail);
      } else {
        ChunkAcross(c, Flatten(more), a, tail);
        SameAcross(p, a, more, tail, |c| - |a|);
      }
    }
  }

  lemma ChunkInFront(c: string, more: string, a: string, tail: string)
    requires c + more == a + tail && |c| <= |a| && NUL !in a
    ensures a == c + a[|c|..] && more == a[|c|..] + tail && CString(c) == c && NUL !in a[|c|..]
  {
    assert c == (c + more)[..|c|] == (a + tail)[..|c|] == a[..|c|];
    assert more == (c + more)[|c|..] == (a + tail)[|c|..];
    assert forall x :: x in c ==> x in a;
    NoNul(c);
  }

  lemma ChunkAcross(c: string, more: string, a: string, tail: string)
    requires c + more == a + tail && |a| < |c| && NUL !in a && (tail == "" || tail[0] == NUL)
    ensures |c| - |a| <= |tail| && more == tail[|c| - |a|..] && CString(c) == a
  {
    var k := |c| - |a|;
    assert c == (a + tail)[..|c|] == a + tail[..k];
    assert more == (a + tail)[|c|..] == tail[k..];
    assert c[|a|] == NUL && c[..|a|] == a;
    FindsFirst(c, NUL, |a|);
  }

  lemma {:induction false} SameStep(p: string, c: string, more: seq<string>, left: string, tail: string)
    requires LF !in p && CString(c) == c && NUL !in left && (tail == "" || tail[0] == NUL)
    requires Flatten(more) == left + tail
    requires var lines := Lines(p + (c + left));
             UpToQuit(lines) == lines && (HasQuit(lines) || !Speaks(Rest(p + (c + left)), false, tail))
    ensures Served(p, [c] + more) == Lines(p + (c + left))
    decreases |more|, 1
  {
    var text := p + c;
    FrontServed(p, c, more);
    ConcatAssociative(p, c, left);
    LinesConcat(text, left);
    QuitInConcat(Lines(text), Lines(Rest(text) + left));
    if HasQuit(Lines(text)) {
      QuitIsLast(Lines(text), Lines(Rest(text) + left));
      assert Lines(text) + [] == Lines(text);
    } else {
      AfterNoQuit(Lines(text), Lines(Rest(text) + left));
      SameForAll(Rest(text), more, left, tail);
    }
  }

  lemma SameAcross(p: string, a: string, more: seq<string>, tail: string, k: nat)
    requires LF !in p && tail != "" && tail[0] == NUL && 0 < k <= |tail| && Flatten(more) == tail[k..]
    requires HasQuit(Lines(p + a)) || !Speaks(Rest(p + a), false, tail)
    ensures Lines(p + a) + (if HasQuit(Lines(p + a)) then [] else Served(Rest(p + a), more)) == Lines(p + a)
  {
    assert Lines(p + a) + [] == Lines(p + a);
    if !HasQuit(Lines(p + a)) {
      assert tail[1..] == tail[1..k] + tail[k..];
      LostToEnd(Rest(p + a), tail[1..k], tail[k..]);
      NothingServed(Rest(p + a), more);
    }
  }

  /** Otherwise there are two ways to cut it up that differ. */
  lemma OneDiffers(a: string, tail: string) returns (chunks: seq<string>)
    requires NUL !in a && (tail == "" || tail[0] == NUL)
    requires UpToQuit(Lines(a)) != Lines(a) || (!HasQuit(Lines(a)) && Speaks(Rest(a), false, tail))
    ensures Flatten(chunks) == a + tail && Served("", chunks) != Lines(a)
  {
    hide Served, Lines, Rest, Speaks, UpToQuit;
    var more := [tail];
    FlattenSingle(tail);
    if !HasQuit(Lines(a)) {
      WithoutQuit(Lines(a));
      RestIsPlain(a);
      more := SpokenChunks(Rest(a), tail);
    }
    chunks := Singles(a) + more;
    assert "" + a == a;
    SinglesThen("", a, more);
    SinglesFlatten(a);
    FlattenConcat(Singles(a), more);
    LongerThan(Lines(a), Served(Rest(a), more));
  }

  lemma LongerThan<T>(xs: seq<T>, more: seq<T>)
    ensures more != [] ==> xs + more != xs
  {
    assert |xs + more| == |xs| + |more|;
  }

  lemma WithoutQuit(lines: seq<string>)
    requires !HasQuit(lines)
    ensures UpToQuit(lines) == lines
  {
    UpToQuitConcat(lines, []);
    assert lines + [] == lines;
  }

  /**
   The commands of a stream are the same for every chunking, those of the part before its
   first NUL, if and only if no line of that part follows a QUIT and, unless there is a
   QUIT, no way of losing bytes behind the NULs lets a line through.
   */
  lemma DispatchExactly(s: string)
    ensures var a, tail := CString(s), s[Find(s, NUL)..];
            (forall chunks :: Flatten(chunks) == s ==> Served("", chunks) == Lines(a)) <==>
            UpToQuit(Lines(a)) == Lines(a) && (HasQuit(Lines(a)) || !Speaks(Rest(a), false, tail))
  {
    var a, tail := CString(s), s[Find(s, NUL)..];
    assert s == a + tail && "" + a == a;
    if UpToQuit(Lines(a)) == Lines(a) && (HasQuit(Lines(a)) || !Speaks(Rest(a), false, tail)) {
      forall chunks | Flatten(chunks) == s ensures Served("", chunks) == Lines(a) {
        SameForAll("", chunks, a, tail);
      }
    } else {
      var chunks := OneDiffers(a, tail);
    }
  }

  /** In particular it is enough that no line feed comes after the first NUL. */
  lemma {:induction false} NoLineFeedIsQuiet(p: string, lost: bool, s: string)
    requires LF !in s
    ensures !Speaks(p, lost, s)
    decreases |s|, lost
  {
    if s != "" {
      assert forall x :: x in s[1..] ==> x in s;
      if lost {
        NoLineFeedIsQuiet(p, false, s);
        NoLineFeedIsQuiet(p, true, s[1..]);
      } else {
        NoLineFeedIsQuiet(p, true, s[1..]);
        assert s[0] in s;
        NoLineFeedIsQuiet(p + [s[0]], false, s[1..]);
      }
    }
  }
}
