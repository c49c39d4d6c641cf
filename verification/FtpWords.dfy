/**
 The words of the FTP commands (section 5.3.1 of RFC 959) and what each stands for.
 */
module FtpWords {
  import opened CommandLines
  import opened FtpSession

  /** The letters of the name, each in either case. */
  predicate Spells(word: string, name: string) {
    && |word| == |name|
    && forall i :: 0 <= i < |word| ==>
         word[i] == name[i] || ('A' <= name[i] <= 'Z' && word[i] as int == name[i] as int + 32)
  }

  lemma Spelled(word: string, name: string)
    requires forall i :: 0 <= i < |name| ==> 'A' <= name[i] <= 'Z'
    ensures Spells(word, name) <==> Upper(word) == name
  {
    var upper := Upper(word);
    if upper == name {
      forall i | 0 <= i < |word|
        ensures word[i] == name[i] || ('A' <= name[i] <= 'Z' && word[i] as int == name[i] as int + 32)
      {
        assert upper[i] == name[i];
      }
    }
  }

  /** The line is the word alone, or the word, a space and the argument. */
  predicate Reads(line: string, word: string, arg: string) {
    ' ' !in word && (line == word + " " + arg || (line == word && arg == ""))
  }

  lemma WordEnds(line: string, n: nat)
    requires n <= |line| && ' ' !in line[..n] && (n < |line| ==> line[n] == ' ')
    ensures Find(line, ' ') == n
  {
    if n < |line| {
      FindsFirst(line, ' ', n);
    } else {
      assert line[..n] == line;
    }
  }

  lemma WordOfLine(line: string, word: string, arg: string)
    requires Reads(line, word, arg)
    ensures CommandWord(line) == Upper(word) && Argument(line) == arg
  {
    assert line[..|word|] == word;
    WordEnds(line, |word|);
    if line != word {
      assert line[|word| + 1..] == arg;
    }
  }

  /** Logging in and out. */
  lemma LoginWords(line: string, word: string, arg: string)
    requires Reads(line, word, arg)
    ensures Spells(word, "USER") ==> Parse(line) == Name(arg)
    ensures Spells(word, "PASS") ==> Parse(line) == Password(arg)
    ensures Spells(word, "QUIT") ==> Parse(line) == Quit
  {
    WordOfLine(line, word, arg);
    Spelled(word, "USER");
    Spelled(word, "PASS");
    Spelled(word, "QUIT");
    hide Spells, Upper, CommandWord, Argument, Reads;
  }

  /** Questions that need a login. */
  lemma QueryWords(line: string, word: string, arg: string)
    requires Reads(line, word, arg)
    ensures Spells(word, "SYST") ==> Parse(line) == Query(215)
    ensures Spells(word, "PWD") ==> Parse(line) == Query(257)
    ensures Spells(word, "TYPE") ==> Parse(line) == Query(200)
  {
    WordOfLine(line, word, arg);
    Spelled(word, "SYST");
    Spelled(word, "PWD");
    Spelled(word, "TYPE");
    hide Spells, Upper, CommandWord, Argument, Reads;
  }

  /** A request that anybody may make, and that does nothing. */
  lemma NoopWord(line: string, word: string, arg: string)
    requires Reads(line, word, arg)
    ensures Spells(word, "NOOP") ==> Parse(line) == Answer(200)
  {
    WordOfLine(line, word, arg);
    Spelled(word, "NOOP");
    hide Spells, Upper, CommandWord, Argument, Reads;
  }

  /** The list of extensions, for anybody. */
  lemma FeatWord(line: string, word: string, arg: string)
    requires Reads(line, word, arg)
    ensures Spells(word, "FEAT") ==> Parse(line) == Answer(211)
  {
    WordOfLine(line, word, arg);
    Spelled(word, "FEAT");
    hide Spells, Upper, CommandWord, Argument, Reads;
  }

  /** Listings, and the listener for the next transfer. */
  lemma ListWords(line: string, word: string, arg: string)
    requires Reads(line, word, arg)
    ensures Spells(word, "PASV") ==> Parse(line) == Passive
    ensures Spells(word, "LIST") ==> Parse(line) == Transfer(ListDir, arg)
  {
    WordOfLine(line, word, arg);
    Spelled(word, "PASV");
    Spelled(word, "LIST");
    hide Spells, Upper, CommandWord, Argument, Reads;
  }

  /** Transfers of files. */
  lemma TransferWords(line: string, word: string, arg: string)
    requires Reads(line, word, arg)
    ensures Spells(word, "RETR") ==> Parse(line) == Transfer(ReadFile, arg)
    ensures Spells(word, "STOR") ==> Parse(line) == Transfer(WriteFile, arg)
  {
    WordOfLine(line, word, arg);
    Spelled(word, "RETR");
    Spelled(word, "STOR");
    hide Spells, Upper, CommandWord, Argument, Reads;
  }

  /** Single calls on files and directories. */
  lemma FileWords(line: string, word: string, arg: string)
    requires Reads(line, word, arg)
    ensures Spells(word, "DELE") ==> Parse(line) == FileCall(DeleteFile, arg)
    ensures Spells(word, "RMD") ==> Parse(line) == FileCall(RemoveDir, arg)
    ensures Spells(word, "MKD") ==> Parse(line) == FileCall(MakeDir, arg)
  {
    WordOfLine(line, word, arg);
    Spelled(word, "DELE");
    Spelled(word, "RMD");
    Spelled(word, "MKD");
    hide Spells, Upper, CommandWord, Argument, Reads;
  }

  /** The current directory. */
  lemma DirectoryWords(line: string, word: string, arg: string)
    requires Reads(line, word, arg)
    ensures Spells(word, "CWD") ==> Parse(line) == ChangeTo(arg)
    ensures Spells(word, "CDUP") ==> Parse(line) == ChangeTo("..")
  {
    WordOfLine(line, word, arg);
    Spelled(word, "CWD");
    Spelled(word, "CDUP");
    hide Spells, Upper, CommandWord, Argument, Reads;
  }

  const NAMES: seq<string> := ["USER", "PASS", "SYST", "PWD", "TYPE", "PASV", "LIST", "RETR", "STOR", "DELE", "RMD",
                               "MKD", "CWD", "CDUP", "QUIT", "NOOP", "FEAT"]

  /** Every other word is answered with 502. */
  lemma OtherWords(line: string, word: string, arg: string)
    requires Reads(line, word, arg) && forall i :: 0 <= i < |NAMES| ==> !Spells(word, NAMES[i])
    ensures Parse(line) == Answer(502)
  {
    WordOfLine(line, word, arg);
    hide Spells, Upper, CommandWord, Argument;
    forall i | 0 <= i < |NAMES| ensures Upper(word) != NAMES[i] {
      Spelled(word, NAMES[i]);
    }
    assert Upper(word) != NAMES[0] && Upper(word) != NAMES[1] && Upper(word) != NAMES[2] && Upper(word) != NAMES[3];
    assert Upper(word) != NAMES[4] && Upper(word) != NAMES[5] && Upper(word) != NAMES[6] && Upper(word) != NAMES[7];
    assert Upper(word) != NAMES[8] && Upper(word) != NAMES[9] && Upper(word) != NAMES[10] && Upper(word) != NAMES[11];
    assert Upper(word) != NAMES[12] && Upper(word) != NAMES[13] && Upper(word) != NAMES[14];
    assert Upper(word) != NAMES[15] && Upper(word) != NAMES[16];
  }

  /** The line that makes the session quit is the one after which the loop stops reading: one that spells QUIT. */
  lemma QuitLine(line: string, word: string, arg: string)
    requires Reads(line, word, arg)
    ensures IsQuit(line) <==> Spells(word, "QUIT")
    ensures Parse(line).Quit? <==> Spells(word, "QUIT")
  {
    WordOfLine(line, word, arg);
    Spelled(word, "QUIT");
    hide Spells, Upper, CommandWord, Argument, Reads;
  }

  /** Every line reads as a word and an argument, in one way. */
  lemma EveryLineReads(line: string) returns (word: string, arg: string)
    ensures Reads(line, word, arg)
  {
    var n := Find(line, ' ');
    word, arg := line[..n], if n < |line| then line[n + 1..] else "";
    if n < |line| {
      assert line == word + " " + arg;
    } else {
      assert line[..n] == line;
    }
  }
}
