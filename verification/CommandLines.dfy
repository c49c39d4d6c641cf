/**
 How the FTP server's `client_loop` cuts the bytes of a control connection into command
 lines: every chunk that `recv` returns is appended, as a C string, to what was left
 over, and complete lines are taken off the front.
 */
module CommandLines {
  import opened Sequences

  const NUL := '\0'
  const LF := '\n'
  const CR := '\r'

  // ---------- the words of a line ----------

  /** `std::toupper` in the C locale. */
  function Upper(s: string): (u: string)
    ensures |u| == |s|
  {
    seq(|s|, i requires 0 <= i < |s| => if 'a' <= s[i] <= 'z' then ((s[i] as int) - 32) as char else s[i])
  }

  /** The place of the first `c`, or the length if there is none. */
  function Find(s: string, c: char): (n: nat)
    ensures n <= |s| && c !in s[..n] && (n < |s| ==> s[n] == c)
  {
    if s == "" || s[0] == c then 0
    else
      var n := 1 + Find(s[1..], c);
      assert s[..n] == [s[0]] + s[1..][..n - 1];
      n
  }

  function CommandWord(line: string): string {
    Upper(line[..Find(line, ' ')])
  }

  function Argument(line: string): string {
    var n := Find(line, ' ');
    if n == |line| then "" else line[n + 1..]
  }

  predicate IsQuit(line: string) {
    CommandWord(line) == "QUIT"
  }

  // ---------- lines of a text ----------

  function TrimCr(line: string): string {
    if line != "" && line[|line| - 1] == CR then line[..|line| - 1] else line
  }

  /** One trailing CR off each piece, and no empty lines. */
  function Trimmed(pieces: seq<string>): seq<string> {
    if pieces == [] then []
    else
      var line := TrimCr(pieces[0]);
      (if line == "" then [] else [line]) + Trimmed(pieces[1..])
  }

  /** The newline-terminated lines of a text. */
  function Lines(text: string): seq<string> {
    var pieces := Split(text, LF);
    Trimmed(pieces[..|pieces| - 1])
  }

  /** What follows the last newline. */
  function Rest(text: string): string {
    var pieces := Split(text, LF);
    pieces[|pieces| - 1]
  }

  lemma {:induction false} TrimmedConcat(a: seq<string>, b: seq<string>)
    ensures Trimmed(a + b) == Trimmed(a) + Trimmed(b)
  {
    if a == [] {
      assert a + b == b;
    } else {
      TrimmedConcat(a[1..], b);
      assert (a + b)[1..] == a[1..] + b;
      var line := TrimCr(a[0]);
      ConcatAssociative(if line == "" then [] else [line], Trimmed(a[1..]), Trimmed(b));
    }
  }

  lemma LastOfConcat<T>(front: seq<T>, back: seq<T>)
    requires back != []
    ensures var all := front + back;
            all[|all| - 1] == back[|back| - 1] && all[..|all| - 1] == front + back[..|back| - 1]
  {
  }

  lemma {:induction false} SplitConcat<T>(a: seq<T>, b: seq<T>, sep: T)
    ensures var pieces := Split(a, sep);
            var n := |pieces| - 1;
            Split(a + b, sep) == pieces[..n] + Split(pieces[n] + b, sep)
  {
    var pieces := Split(a, sep);
    var n := |pieces| - 1;
    if b == [] {
      SplitPlain(pieces[n], sep);
      assert a + b == a && pieces[n] + b == pieces[n];
    } else {
      var front, c := b[..|b| - 1], b[|b| - 1];
      var later := Split(pieces[n] + front, sep);
      SplitConcat(a, front, sep);
      assert b == front + [c];
      ConcatAssociative(a, front, [c]);
      ConcatAssociative(pieces[n], front, [c]);
      SplitSnoc(a + front, c, sep);
      SplitSnoc(pieces[n] + front, c, sep);
      ExtendedConcat(pieces[..n], later, c, sep);
    }
  }

  lemma ExtendedConcat<T>(front: seq<seq<T>>, back: seq<seq<T>>, c: T, sep: T)
    requires back != []
    ensures Extended(front + back, c, sep) == front + Extended(back, c, sep)
  {
    var m := |back| - 1;
    LastOfConcat(front, back);
    ConcatAssociative(front, back, [[]]);
    ConcatAssociative(front, back[..m], [back[m] + [c]]);
  }

  lemma TrimmedPieces(pieces: seq<string>, front: seq<string>, back: seq<string>)
    requires back != [] && pieces == front + back
    ensures Trimmed(pieces[..|pieces| - 1]) == Trimmed(front) + Trimmed(back[..|back| - 1])
    ensures pieces[|pieces| - 1] == back[|back| - 1]
  {
    LastOfConcat(front, back);
    TrimmedConcat(front, back[..|back| - 1]);
  }

  lemma LinesOfPieces(text: string, front: seq<string>, back: seq<string>)
    requires back != [] && Split(text, LF) == front + back
    ensures Lines(text) == Trimmed(front) + Trimmed(back[..|back| - 1])
    ensures Rest(text) == back[|back| - 1]
  {
    TrimmedPieces(Split(text, LF), front, back);
  }

  /** A text may be cut anywhere: the lines of the front, then those of what it left over and the rest. */
  lemma LinesConcat(a: string, b: string)
    ensures Lines(a + b) == Lines(a) + Lines(Rest(a) + b)
    ensures Rest(a + b) == Rest(Rest(a) + b)
  {
    var pieces := Split(a, LF);
    SplitConcat(a, b, LF);
    LinesOfPieces(a + b, pieces[..|pieces| - 1], Split(Rest(a) + b, LF));
  }

  // ---------- the loops ----------

  /** The inner loop: `find`, `substr`, `erase`, until no newline is left. */
  method DrainLines(text: string) returns (lines: seq<string>, partial: string)
    ensures lines == Lines(text) && partial == Rest(text)
  {
    lines, partial := [], text;
    assert [] + Lines(text) == Lines(text);
    var pos := Find(partial, LF);
    while pos < |partial|
      invariant pos == Find(partial, LF)
      invariant lines + Lines(partial) == Lines(text) && Rest(partial) == Rest(text)
      decreases |partial|
    {
      DrainStep(lines, partial, pos);
      var line := partial[..pos];
      partial := partial[pos + 1..];
      if line != "" && line[|line| - 1] == CR {
        line := line[..|line| - 1];
      }
      if line != "" {
        lines := lines + [line];
      }
      pos := Find(partial, LF);
    }
    DrainEnd(lines, partial);
  }

  lemma DrainStep(taken: seq<string>, partial: string, pos: nat)
    requires pos == Find(partial, LF) < |partial|
    ensures var line, rest := TrimCr(partial[..pos]), partial[pos + 1..];
            && taken + Lines(partial) == (if line == "" then taken else taken + [line]) + Lines(rest)
            && Rest(partial) == Rest(rest)
  {
    assert partial == partial[..pos] + [LF] + partial[pos + 1..];
    TakeLine(taken, partial[..pos], partial[pos + 1..]);
  }

  lemma DrainEnd(lines: seq<string>, partial: string)
    requires Find(partial, LF) == |partial|
    ensures lines + Lines(partial) == lines && Rest(partial) == partial
  {
    assert partial[..|partial|] == partial;
    SplitPlain(partial, LF);
    assert lines + [] == lines;
  }

  lemma TrimmedOne(taken: seq<string>, line: string)
    ensures taken + Trimmed([line]) == if TrimCr(line) == "" then taken else taken + [TrimCr(line)]
  {
    assert [line][1..] == [];
  }

  lemma TakeLine(taken: seq<string>, line: string, rest: string)
    requires LF !in line
    ensures taken + Lines(line + [LF] + rest) ==
            (if TrimCr(line) == "" then taken else taken + [TrimCr(line)]) + Lines(rest)
    ensures Rest(line + [LF] + rest) == Rest(rest)
  {
    FirstLine(line, rest);
    ConcatAssociative(taken, Trimmed([line]), Lines(rest));
    TrimmedOne(taken, line);
  }

  lemma FirstLine(line: string, rest: string)
    requires LF !in line
    ensures Lines(line + [LF] + rest) == Trimmed([line]) + Lines(rest)
    ensures Rest(line + [LF] + rest) == Rest(rest)
  {
    SplitAtSeparator(line, rest, LF);
    SplitPlain(line, LF);
    LinesOfPieces(line + [LF] + rest, [line], Split(rest, LF));
  }

  /** `partial += buffer`: the chunk counts up to its first NUL. */
  function CString(chunk: string): string {
    chunk[..Find(chunk, NUL)]
  }

  predicate HasQuit(lines: seq<string>) {
    exists i :: 0 <= i < |lines| && IsQuit(lines[i])
  }

  /** The lines dispatched from here on: a chunk with a QUIT in it is still dispatched to its end. */
  function Served(partial: string, chunks: seq<string>): seq<string>
    decreases |chunks|
  {
    if chunks == [] then []
    else
      var text := partial + CString(chunks[0]);
      Lines(text) + if HasQuit(Lines(text)) then [] else Served(Rest(text), chunks[1..])
  }

  /** Dispatching a batch of lines: a QUIT among them closes the socket, and the rest is dispatched all the same. */
  method DispatchAll(before: seq<string>, lines: seq<string>) returns (dispatched: seq<string>, closed: bool)
    ensures dispatched == before + lines && closed == HasQuit(lines)
  {
    dispatched, closed := before, false;
    var i := 0;
    while i < |lines|
      invariant 0 <= i <= |lines|
      invariant dispatched == before + lines[..i]
      invariant closed <==> exists j :: 0 <= j < i && IsQuit(lines[j])
    {
      dispatched := dispatched + [lines[i]];
      closed := closed || IsQuit(lines[i]);
      assert lines[..i + 1] == lines[..i] + [lines[i]];
      i := i + 1;
    }
    assert lines[..i] == lines;
  }

  /** `client_loop` with nobody closing the socket from outside: QUIT ends the outer loop but not the inner one. */
  method ClientLoop(chunks: seq<string>) returns (dispatched: seq<string>)
    ensures dispatched == Served("", chunks)
  {
    dispatched := [];
    var partial, closed, next := "", false, 0;
    ghost var all := Served("", chunks);
    assert [] + all == all && chunks[0..] == chunks;
    while !closed && next < |chunks|
      invariant 0 <= next <= |chunks|
      invariant all == if closed then dispatched else dispatched + Served(partial, chunks[next..])
    {
      ServeChunk(dispatched, partial, chunks, next);
      partial := partial + CString(chunks[next]);
      var lines;
      lines, partial := DrainLines(partial);
      dispatched, closed := DispatchAll(dispatched, lines);
      next := next + 1;
    }
    if !closed {
      ServeEnd(dispatched, partial, chunks);
    }
  }

  lemma ServeEnd(before: seq<string>, partial: string, chunks: seq<string>)
    ensures before + Served(partial, chunks[|chunks|..]) == before
  {
  }

  lemma ServeChunk(before: seq<string>, partial: string, chunks: seq<string>, next: nat)
    requires next < |chunks|
    ensures var text := partial + CString(chunks[next]);
            before + Served(partial, chunks[next..]) ==
            if HasQuit(Lines(text)) then before + Lines(text)
            else before + Lines(text) + Served(Rest(text), chunks[next + 1..])
  {
    var lines, left := Lines(partial + CString(chunks[next])), chunks[next..];
    assert left[0] == chunks[next] && left[1..] == chunks[next + 1..];
    assert lines + [] == lines;
    ConcatAssociative(before, lines, Served(Rest(partial + CString(chunks[next])), chunks[next + 1..]));
  }

  // ---------- independence of the chunking ----------

  function CStrings(chunks: seq<string>): string {
    if chunks == [] then "" else CString(chunks[0]) + CStrings(chunks[1..])
  }

  /** The lines up to and including the first QUIT. */
  function UpToQuit(lines: seq<string>): seq<string> {
    if lines == [] then []
    else [lines[0]] + if IsQuit(lines[0]) then [] else UpToQuit(lines[1..])
  }

  lemma {:induction false} UpToQuitConcat(a: seq<string>, b: seq<string>)
    ensures UpToQuit(a + b) == if HasQuit(a) then UpToQuit(a) else a + UpToQuit(b)
  {
    if a == [] {
      assert a + b == b && [] + UpToQuit(b) == UpToQuit(b);
    } else {
      assert (a + b)[0] == a[0] && (a + b)[1..] == a[1..] + b;
      if IsQuit(a[0]) {
        assert HasQuit(a);
      } else {
        UpToQuitConcat(a[1..], b);
        QuitLater(a);
        LaterQuit(a, UpToQuit(b));
      }
    }
  }

  lemma LaterQuit(a: seq<string>, later: seq<string>)
    requires a != []
    ensures [a[0]] + (a[1..] + later) == a + later
  {
  }

  lemma QuitLater(a: seq<string>)
    requires a != [] && !IsQuit(a[0])
    ensures HasQuit(a) <==> HasQuit(a[1..])
  {
    if i :| 0 <= i < |a| && IsQuit(a[i]) {
      assert IsQuit(a[1..][i - 1]);
    }
    if i :| 0 <= i < |a[1..]| && IsQuit(a[1..][i]) {
      assert IsQuit(a[i + 1]);
    }
  }

  lemma {:induction false} ServedLines(partial: string, chunks: seq<string>)
    requires LF !in partial
    ensures Served(partial, chunks) <= Lines(partial + CStrings(chunks))
    ensures UpToQuit(Served(partial, chunks)) == UpToQuit(Lines(partial + CStrings(chunks)))
    ensures !HasQuit(Served(partial, chunks)) ==> Served(partial, chunks) == Lines(partial + CStrings(chunks))
    decreases |chunks|
  {
    if chunks == [] {
      SplitPlain(partial, LF);
      assert partial + CStrings(chunks) == partial;
    } else {
      var text, tail := partial + CString(chunks[0]), CStrings(chunks[1..]);
      var first := Lines(text);
      ConcatAssociative(partial, CString(chunks[0]), tail);
      LinesConcat(text, tail);
      ServedLines(Rest(text), chunks[1..]);
      ServedStep(first, Served(Rest(text), chunks[1..]), Lines(Rest(text) + tail));
    }
  }

  lemma ServedStep(first: seq<string>, served: seq<string>, lines: seq<string>)
    requires served <= lines && UpToQuit(served) == UpToQuit(lines) && (!HasQuit(served) ==> served == lines)
    ensures var all := first + if HasQuit(first) then [] else served;
            && all <= first + lines && UpToQuit(all) == UpToQuit(first + lines)
            && (!HasQuit(all) ==> all == first + lines)
  {
    UpToQuitConcat(first, lines);
    if HasQuit(first) {
      assert first + [] == first;
      UpToQuitConcat(first, []);
    } else {
      UpToQuitConcat(first, served);
      if i :| 0 <= i < |served| && IsQuit(served[i]) {
        assert IsQuit((first + served)[|first| + i]);
      }
    }
  }

  lemma {:induction false} NulFreeChunks(chunks: seq<string>)
    requires NUL !in Flatten(chunks)
    ensures CStrings(chunks) == Flatten(chunks)
  {
    if chunks != [] {
      assert forall c :: c in chunks[0] ==> c in Flatten(chunks);
      assert forall c :: c in Flatten(chunks[1..]) ==> c in Flatten(chunks);
      NulFreeChunks(chunks[1..]);
      assert Find(chunks[0], NUL) == |chunks[0]|;
    }
  }

  /**
   For a stream without NULs, whatever chunks it comes in: what is dispatched is the
   stream's lines, all of them if none is QUIT, and otherwise a front part that goes at
   least as far as the first QUIT.
   */
  lemma ChunkingDoesNotMatter(chunks: seq<string>)
    requires NUL !in Flatten(chunks)
    ensures var served, lines := Served("", chunks), Lines(Flatten(chunks));
            && served <= lines && UpToQuit(served) == UpToQuit(lines)
            && (!HasQuit(lines) ==> served == lines)
  {
    NulFreeChunks(chunks);
    ServedLines("", chunks);
    var served, lines := Served("", chunks), Lines(Flatten(chunks));
    assert "" + CStrings(chunks) == Flatten(chunks);
    if i :| 0 <= i < |served| && IsQuit(served[i]) {
      assert lines[i] == served[i];
    }
  }

  // ---------- what follows a QUIT ----------

  /** What one `recv` can return: the buffer has 4096 bytes, the last of which is kept free. */
  predicate Receivable(chunks: seq<string>) {
    forall i :: 0 <= i < |chunks| ==> 0 < |chunks[i]| <= 4095
  }

  lemma NoLineYet(partial: string, c: char)
    requires LF !in partial && c != LF
    ensures Lines(partial + [c]) == [] && Rest(partial + [c]) == partial + [c]
  {
    SplitPlain(partial + [c], LF);
  }

  lemma LineEnds(partial: string)
    requires LF !in partial
    ensures Lines(partial + [LF]) == Trimmed([partial]) && Rest(partial + [LF]) == ""
  {
    FirstLine(partial, "");
    assert partial + [LF] + "" == partial + [LF];
    assert Trimmed([partial]) + [] == Trimmed([partial]);
  }

  /** Arriving byte by byte, a stream is dispatched up to and including the first QUIT, and no further. */
  lemma {:induction false} SinglesServe(partial: string, s: string)
    requires LF !in partial && NUL !in s
    ensures Served(partial, Singles(s)) == UpToQuit(Lines(partial + s))
    decreases |s|
  {
    if s == "" {
      SplitPlain(partial, LF);
      assert partial + s == partial;
    } else {
      var c, rest := s[0], s[1..];
      var text := partial + [c];
      assert Singles(s)[0] == [c] && Singles(s)[1..] == Singles(rest);
      assert c in s && partial + s == text + rest && (forall x :: x in rest ==> x in s);
      SingleCString(c);
      if c == LF {
        LineEnds(partial);
        LinesConcat(text, rest);
        assert "" + rest == rest;
        UpToQuitConcat(Lines(text), Lines(rest));
        OnlyLine(partial);
        SinglesServe("", rest);
        EndsWithQuit(Lines(text), Served("", Singles(rest)));
      } else {
        NoLineYet(partial, c);
        assert !HasQuit([]);
        assert [] + Served(text, Singles(rest)) == Served(text, Singles(rest));
        SinglesServe(text, rest);
      }
    }
  }

  lemma {:induction false} SinglesReceivable(s: string)
    ensures Receivable(Singles(s))
  {
    if s != "" {
      SinglesReceivable(s[1..]);
      assert Singles(s)[1..] == Singles(s[1..]);
    }
  }

  lemma OnlyLine(line: string)
    ensures |Trimmed([line])| <= 1
  {
    assert [line][1..] == [];
  }

  lemma EndsWithQuit(lines: seq<string>, later: seq<string>)
    requires |lines| <= 1
    ensures lines + (if HasQuit(lines) then [] else later) == if HasQuit(lines) then UpToQuit(lines) else lines + later
  {
    if lines != [] {
      assert lines == [lines[0]] && lines[1..] == [];
      assert lines + [] == lines;
    }
  }

  lemma UpToQuitShorter(served: seq<string>, lines: seq<string>)
    requires served <= lines && UpToQuit(served) == UpToQuit(lines) == lines
    ensures served == lines
  {
    UpToQuitPrefix(served);
  }

  lemma {:induction false} UpToQuitPrefix(lines: seq<string>)
    ensures |UpToQuit(lines)| <= |lines|
  {
    if lines != [] {
      UpToQuitPrefix(lines[1..]);
    }
  }

  /**
   All of a stream is dispatched, whatever chunks it comes in, if and only if no line
   follows its first QUIT; it makes no difference whether chunks of any size are
   considered or only those that `recv` can return.
   */
  lemma AfterQuitExactly(s: string)
    requires NUL !in s
    ensures (forall chunks :: Flatten(chunks) == s ==> Served("", chunks) == Lines(s)) <==>
            UpToQuit(Lines(s)) == Lines(s)
    ensures (forall chunks :: Flatten(chunks) == s && Receivable(chunks) ==> Served("", chunks) == Lines(s)) <==>
            UpToQuit(Lines(s)) == Lines(s)
  {
    SinglesFlatten(s);
    SinglesServe("", s);
    SinglesReceivable(s);
    assert "" + s == s;
    if UpToQuit(Lines(s)) == Lines(s) {
      forall chunks | Flatten(chunks) == s ensures Served("", chunks) == Lines(s) {
        ChunkingDoesNotMatter(chunks);
        UpToQuitShorter(Served("", chunks), Lines(s));
      }
    }
  }

  /** When lines follow the first QUIT, and the stream fits one chunk, two chunkings differ. */
  lemma ChunkingDecides(s: string)
    requires NUL !in s && 0 < |s| <= 4095 && UpToQuit(Lines(s)) != Lines(s)
    ensures Receivable([s]) && Flatten([s]) == s && Served("", [s]) == Lines(s)
    ensures Receivable(Singles(s)) && Flatten(Singles(s)) == s && Served("", Singles(s)) == UpToQuit(Lines(s))
  {
    hide Served, Lines, UpToQuit, Singles;
    FlattenSingle(s);
    OneChunk(s);
    SinglesFlatten(s);
    SinglesServe("", s);
    SinglesReceivable(s);
    assert "" + s == s;
  }

  lemma OneChunk(s: string)
    requires NUL !in s
    ensures Served("", [s]) == Lines(s)
  {
    hide Lines, Find;
    var chunks := [s];
    NoNul(s);
    assert chunks[1..] == [] && "" + s == s;
    assert Served(Rest(s), []) == [];
    assert Lines(s) + [] == Lines(s);
  }

  lemma NoNul(s: string)
    requires NUL !in s
    ensures CString(s) == s
  {
    assert Find(s, NUL) == |s|;
    assert s[..|s|] == s;
  }

  // ---------- streams with NULs ----------

  /** After the first NUL there is nothing but NULs. */
  predicate NulsAtEnd(s: string) {
    forall i :: Find(s, NUL) <= i < |s| ==> s[i] == NUL
  }

  function Singles(s: string): seq<string> {
    if s == "" then [] else [[s[0]]] + Singles(s[1..])
  }

  lemma {:induction false} SinglesFlatten(s: string)
    ensures Flatten(Singles(s)) == s
    ensures forall i :: 0 <= i < |Singles(s)| ==> Singles(s)[i] != ""
  {
    if s != "" {
      SinglesFlatten(s[1..]);
      assert Singles(s)[1..] == Singles(s[1..]);
    }
  }

  lemma SingleCString(c: char)
    ensures CString([c]) == if c == NUL then "" else [c]
  {
  }

  /** Byte by byte, everything but the NULs gets through. */
  lemma {:induction false} SinglesKeep(s: string, i: nat)
    requires i < |s| && s[i] != NUL
    ensures |CStrings(Singles(s))| > |CString(s[..i])|
    ensures |CStrings(Singles(s))| >= |CString(s)|
  {
    SingleCString(s[0]);
    assert Singles(s)[1..] == Singles(s[1..]);
    if i > 0 {
      SinglesKeep(s[1..], i - 1);
      assert s[..i][1..] == s[1..][..i - 1];
    } else {
      SinglesKeepAll(s[1..]);
    }
  }

  lemma {:induction false} SinglesKeepAll(s: string)
    ensures |CStrings(Singles(s))| >= |CString(s)|
  {
    if s != "" {
      SingleCString(s[0]);
      assert Singles(s)[1..] == Singles(s[1..]);
      SinglesKeepAll(s[1..]);
    }
  }

  lemma {:induction false} OnlyNuls(chunks: seq<string>)
    requires forall i :: 0 <= i < |Flatten(chunks)| ==> Flatten(chunks)[i] == NUL
    ensures CStrings(chunks) == ""
  {
    if chunks != [] {
      var rest := Flatten(chunks[1..]);
      assert forall i :: 0 <= i < |chunks[0]| ==> chunks[0][i] == Flatten(chunks)[i];
      assert forall i :: 0 <= i < |rest| ==> rest[i] == Flatten(chunks)[|chunks[0]| + i];
      OnlyNuls(chunks[1..]);
    }
  }

  lemma {:induction false} FindConcat(a: string, b: string)
    ensures Find(a + b, NUL) == if Find(a, NUL) < |a| then Find(a, NUL) else |a| + Find(b, NUL)
  {
    if a == "" {
      assert a + b == b;
    } else if a[0] != NUL {
      assert (a + b)[1..] == a[1..] + b;
      FindConcat(a[1..], b);
    }
  }

  lemma EndNulsEarly(first: string, rest: string)
    requires NulsAtEnd(first + rest) && Find(first, NUL) < |first|
    ensures CString(first + rest) == CString(first)
    ensures forall i :: 0 <= i < |rest| ==> rest[i] == NUL
  {
    FindConcat(first, rest);
    forall i | 0 <= i < |rest| ensures rest[i] == NUL {
      assert rest[i] == (first + rest)[|first| + i];
    }
  }

  lemma LateNulAt(first: string, rest: string, i: nat)
    requires NulsAtEnd(first + rest) && Find(first, NUL) == |first| && Find(rest, NUL) <= i < |rest|
    ensures rest[i] == NUL
  {
    FindConcat(first, rest);
    assert (first + rest)[|first| + i] == rest[i];
  }

  lemma LateCString(first: string, rest: string)
    requires Find(first, NUL) == |first|
    ensures CString(first + rest) == first + CString(rest)
  {
    FindConcat(first, rest);
  }

  lemma EndNulsLate(first: string, rest: string)
    requires NulsAtEnd(first + rest) && Find(first, NUL) == |first|
    ensures CString(first + rest) == first + CString(rest) && NulsAtEnd(rest)
  {
    LateCString(first, rest);
    forall i | Find(rest, NUL) <= i < |rest| ensures rest[i] == NUL {
      LateNulAt(first, rest, i);
    }
  }

  lemma {:induction false} EndNulsDropped(chunks: seq<string>)
    requires NulsAtEnd(Flatten(chunks))
    ensures CStrings(chunks) == CString(Flatten(chunks))
  {
    if chunks != [] {
      if Find(chunks[0], NUL) < |chunks[0]| {
        EndNulsEarly(chunks[0], Flatten(chunks[1..]));
        OnlyNuls(chunks[1..]);
        assert CString(chunks[0]) + "" == CString(chunks[0]);
      } else {
        EndNulsLate(chunks[0], Flatten(chunks[1..]));
        assert chunks[0][..|chunks[0]|] == chunks[0];
        EndNulsDropped(chunks[1..]);
      }
    }
  }

  lemma {:induction false} FindsFirst(s: string, c: char, n: nat)
    requires n < |s| && c !in s[..n] && s[n] == c
    ensures Find(s, c) == n
  {
    if n > 0 {
      assert s[0] == s[..n][0] && s[1..][..n - 1] == s[..n][1..];
      FindsFirst(s[1..], c, n - 1);
    }
  }

  lemma FindInPrefix(s: string, i: nat)
    requires Find(s, NUL) < i <= |s|
    ensures Find(s[..i], NUL) == Find(s, NUL)
  {
    assert s[..i][..Find(s, NUL)] == s[..Find(s, NUL)];
    FindsFirst(s[..i], NUL, Find(s, NUL));
  }

  lemma SinglesDiffer(s: string, i: nat)
    requires Find(s, NUL) <= i < |s| && s[i] != NUL
    ensures |CStrings(Singles(s))| > |CString(s)|
  {
    SinglesKeep(s, i);
    FindInPrefix(s, i);
  }

  /**
   What reaches the line buffer is the same for every chunking exactly when nothing but
   NULs follows the first NUL.
   */
  lemma NulsAreTheException(s: string)
    ensures NulsAtEnd(s) <==> forall chunks :: Flatten(chunks) == s ==> CStrings(chunks) == CString(s)
  {
    if NulsAtEnd(s) {
      forall chunks | Flatten(chunks) == s ensures CStrings(chunks) == CString(s) {
        EndNulsDropped(chunks);
      }
    } else {
      var i :| Find(s, NUL) <= i < |s| && s[i] != NUL;
      SinglesFlatten(s);
      SinglesDiffer(s, i);
    }
  }
}
