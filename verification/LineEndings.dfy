/**
 What the line loop makes of the two ways to end a line. FTP clients end lines with a
 carriage return and a line feed (section 5.3.1 of RFC 959); a line feed alone is taken as well.
 */
module LineEndings {
  import opened Sequences
  import opened CommandLines

  /** The empty line is not dispatched. */
  function Proper(line: string): seq<string> {
    if line == "" then [] else [line]
  }

  lemma OneTrimmed(line: string)
    ensures Trimmed([line]) == Proper(TrimCr(line))
  {
    assert [line][1..] == [];
  }

  lemma EndedByLf(line: string, rest: string)
    requires '\n' !in line && (line == "" || line[|line| - 1] != '\r')
    ensures Lines(line + "\n" + rest) == (if line == "" then [] else [line]) + Lines(rest)
    ensures Rest(line + "\n" + rest) == Rest(rest)
  {
    FirstLine(line, rest);
    OneTrimmed(line);
  }

  /** One carriage return before the line feed is taken off, whatever the line is. */
  lemma EndedByCrLf(line: string, rest: string)
    requires '\n' !in line
    ensures Lines(line + "\r\n" + rest) == (if line == "" then [] else [line]) + Lines(rest)
    ensures Rest(line + "\r\n" + rest) == Rest(rest)
  {
    var returned := line + "\r";
    assert returned[..|returned| - 1] == line;
    assert line + "\r\n" + rest == returned + "\n" + rest;
    FirstLine(returned, rest);
    OneTrimmed(returned);
  }

  /** Without a line feed there is no line yet. */
  lemma NotEnded(text: string)
    requires '\n' !in text
    ensures Lines(text) == [] && Rest(text) == text
  {
    SplitPlain(text, '\n');
  }

  /** The lines as they are sent, each with a carriage return and a line feed or with a line feed alone. */
  function Sent(lines: seq<string>, crs: seq<bool>): string
    requires |crs| == |lines|
  {
    if lines == [] then ""
    else lines[0] + (if crs[0] then "\r\n" else "\n") + Sent(lines[1..], crs[1..])
  }

  function NonEmpty(lines: seq<string>): seq<string> {
    if lines == [] then []
    else (if lines[0] == "" then [] else [lines[0]]) + NonEmpty(lines[1..])
  }

  predicate Clean(lines: seq<string>) {
    forall i :: 0 <= i < |lines| ==> '\n' !in lines[i] && (lines[i] == "" || lines[i][|lines[i]| - 1] != '\r')
  }

  /** However each line is ended, the lines that are taken out are the non-empty ones, and the rest stays. */
  lemma {:induction false} EndingsDoNotMatter(lines: seq<string>, crs: seq<bool>, partial: string)
    requires |crs| == |lines| && Clean(lines) && '\n' !in partial
    ensures Lines(Sent(lines, crs) + partial) == NonEmpty(lines)
    ensures Rest(Sent(lines, crs) + partial) == partial
  {
    if lines == [] {
      NotEnded(partial);
      assert "" + partial == partial;
    } else {
      hide Lines, Rest;
      var ending, later := if crs[0] then "\r\n" else "\n", Sent(lines[1..], crs[1..]);
      EndingsDoNotMatter(lines[1..], crs[1..], partial);
      ConcatAssociative(lines[0] + ending, later, partial);
      if crs[0] {
        EndedByCrLf(lines[0], later + partial);
      } else {
        EndedByLf(lines[0], later + partial);
      }
    }
  }

  /**
   From the bytes to the dispatcher: lines without NULs, none of them a QUIT, are
   dispatched as they were written, less the empty ones, whatever their endings and
   however the network cuts the bytes.
   */
  lemma DispatchedAsSent(lines: seq<string>, crs: seq<bool>, partial: string, chunks: seq<string>)
    requires |crs| == |lines| && Clean(lines) && '\n' !in partial
    requires Flatten(chunks) == Sent(lines, crs) + partial && '\0' !in Flatten(chunks)
    requires forall i :: 0 <= i < |lines| ==> !IsQuit(lines[i])
    ensures Served("", chunks) == NonEmpty(lines)
  {
    EndingsDoNotMatter(lines, crs, partial);
    ChunkingDoesNotMatter(chunks);
    NoQuitAmong(lines);
  }

  lemma {:induction false} NoQuitAmong(lines: seq<string>)
    requires forall i :: 0 <= i < |lines| ==> !IsQuit(lines[i])
    ensures !HasQuit(NonEmpty(lines))
  {
    if lines != [] {
      NoQuitAmong(lines[1..]);
      var front, later := if lines[0] == "" then [] else [lines[0]], NonEmpty(lines[1..]);
      forall i | 0 <= i < |front + later| ensures !IsQuit((front + later)[i]) {
        assert i >= |front| ==> (front + later)[i] == later[i - |front|];
      }
    }
  }

  /** What is kept of a chunk ends before its first NUL. */
  lemma KeptOfChunk(kept: string, lost: string)
    requires '\0' !in kept
    ensures CString(kept) == kept && CString(kept + "\0" + lost) == kept
  {
    NoNul(kept);
    var chunk := kept + "\0" + lost;
    assert chunk[..|kept|] == kept;
    FindsFirst(chunk, '\0', |kept|);
  }
}
