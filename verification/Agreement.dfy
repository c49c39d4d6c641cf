/**
 When changing directory and then naming a file is the same as naming both at once, for
 all directories and requests, with backslashes as well. `cwd_cmd` takes a backslash for
 part of a name, `resolve` for a separator.
 */
module Agreement {
  import opened Sequences
  import opened Paths
  import opened Confinement

  /** The components of the new directory, as `resolve` reads it. */
  function NewWalk(cwd: string, d: string): seq<string> {
    var dir := ChangeDir(cwd, d);
    if dir == "" then [] else Split(Translate(dir), SEP)
  }

  /** The components of d in a request for something behind it. */
  function OneWalk(cwd: string, d: string): seq<string> {
    if d == "" then [] else Relative(cwd, d)
  }

  lemma NewRequest(cwd: string, d: string, f: string)
    requires f != "" && f[0] != SEP
    ensures Relative(ChangeDir(cwd, d), f) == NewWalk(cwd, d) + Split(Translate(f), SEP)
  {
  }

  lemma OneRequest(cwd: string, d: string, f: string)
    requires f != ""
    ensures Relative(cwd, d + ([SEP] + f)) == OneWalk(cwd, d) + Split(Translate(f), SEP)
  {
    var target, file := d + ([SEP] + f), Split(Translate(f), SEP);
    if d == "" {
      assert target[1..] == f && [] + file == file;
    } else if d[0] == SEP {
      assert target[1..] == d[1..] + ([SEP] + f);
      SplitAfterSlash(d[1..], f);
    } else {
      SplitAfterSlash(d, f);
      ConcatAssociative(if cwd == "" then [] else Split(Translate(cwd), SEP), Split(Translate(d), SEP), file);
    }
  }

  /** The two ways climb equally far and go down the same names: a test on the two strings alone. */
  predicate SameWay(cwd: string, d: string) {
    Climb([], NewWalk(cwd, d)) == Climb([], OneWalk(cwd, d))
  }

  lemma SameWaySame(base: string, cwd: string, d: string, f: string)
    requires CanonicalBase(base) && f != "" && f[0] != SEP && SameWay(cwd, d)
    ensures Resolve(base, ChangeDir(cwd, d), f) == Resolve(base, cwd, d + ([SEP] + f))
  {
    hide Resolve, Relative, ChangeDir, NewWalk, OneWalk, Climb;
    var file := Split(Translate(f), SEP);
    NewRequest(cwd, d, f);
    OneRequest(cwd, d, f);
    ClimbConcat([], NewWalk(cwd, d), file);
    ClimbConcat([], OneWalk(cwd, d), file);
    ResolveLands(base, ChangeDir(cwd, d), f);
    ResolveLands(base, cwd, d + ([SEP] + f));
  }

  // ---------- telling two ways apart ----------

  function Pad(u: nat): (names: seq<string>)
    ensures |names| == u + 1 && AllPlain(names) && Clean(names)
  {
    seq(u + 1, _ => "x")
  }

  function PadFile(u: nat): string {
    Join(Pad(u), SEP)
  }

  lemma PadFileSplits(u: nat)
    ensures PadFile(u) != "" && PadFile(u)[0] != SEP
    ensures Split(Translate(PadFile(u)), SEP) == Pad(u)
  {
    JoinPlain(Pad(u));
    JoinClean(Pad(u));
    TranslateNothing(PadFile(u));
    assert PadFile(u)[0] == 'x';
  }

  /** The base made of the first u names of where the way leads: it climbs out of it and comes back. */
  function Telling(u: nat, n: seq<string>): string {
    [SEP] + Join((n + Pad(u))[..u], SEP)
  }

  lemma TellingIsBase(u: nat, n: seq<string>)
    requires AllPlain(n) && Clean(n)
    ensures CanonicalBase(Telling(u, n)) && BaseParts(Telling(u, n)) == (n + Pad(u))[..u]
    ensures Telling(u, n) <= [SEP] + Join(n + Pad(u), SEP)
  {
    var all := n + Pad(u);
    var b := all[..u];
    JoinPlain(b);
    JoinClean(b);
    assert Telling(u, n)[1..] == Join(b, SEP);
    assert all == b + all[u..];
    JoinPrefix(b, all[u..]);
    BehindSlash(Join(b, SEP), Join(all, SEP));
  }

  /** Where a request leads that walks one of the two ways and then the padding. */
  lemma PaddedLanding(base: string, cwd: string, target: string, walk: seq<string>, u: nat)
    requires CanonicalBase(base) && |BaseParts(base)| == u && Relative(cwd, target) == walk + Pad(u)
    requires u <= Climb([], walk).0
    ensures Landing(base, cwd, target) ==
            if Climb([], walk).0 == u then Some(Climb([], walk).1 + Pad(u)) else None
  {
    var n := Climb([], walk).1;
    ClimbConcat([], walk, Pad(u));
    ClimbPlain(n, Pad(u));
    assert BaseParts(base)[..0] + (n + Pad(u)) == n + Pad(u);
  }

  /** With that base, the way that climbs less is granted, and the other leads elsewhere. */
  lemma ToldApart(cwd: string, target: string, walk: seq<string>, cwd': string, target': string, walk': seq<string>)
    requires AllPlain(Climb([], walk).1) && Clean(Climb([], walk).1) && AllPlain(Climb([], walk').1)
    requires Climb([], walk).0 <= Climb([], walk').0 && Climb([], walk) != Climb([], walk')
    requires var u := Climb([], walk).0;
             Relative(cwd, target) == walk + Pad(u) && Relative(cwd', target') == walk' + Pad(u)
    ensures var base := Telling(Climb([], walk).0, Climb([], walk).1);
            CanonicalBase(base) && Resolve(base, cwd, target) != Resolve(base, cwd', target')
  {
    hide Resolve, Relative, Pad, Telling, Climb;
    var (u, n) := Climb([], walk);
    var (u', n') := Climb([], walk');
    var base := Telling(u, n);
    TellingIsBase(u, n);
    PaddedLanding(base, cwd, target, walk, u);
    PaddedLanding(base, cwd', target', walk', u);
    ResolveLands(base, cwd, target);
    ResolveLands(base, cwd', target');
    if u' == u {
      OneInFront(Join(n + Pad(u), SEP), Join(n' + Pad(u), SEP));
      JoinPlain(n + Pad(u));
      JoinPlain(n' + Pad(u));
      assert (n + Pad(u))[..|n + Pad(u)| - (u + 1)] == n && (n' + Pad(u))[..|n' + Pad(u)| - (u + 1)] == n';
    }
  }

  lemma WalksAreClean(cwd: string, d: string)
    ensures AllPlain(Climb([], NewWalk(cwd, d)).1) && Clean(Climb([], NewWalk(cwd, d)).1)
    ensures AllPlain(Climb([], OneWalk(cwd, d)).1) && Clean(Climb([], OneWalk(cwd, d)).1)
  {
    hide ChangeDir;
    TranslatedWalk(ChangeDir(cwd, d), "");
    TranslatedWalk(cwd, d);
    assert NewWalk(cwd, d) + [] == NewWalk(cwd, d);
    CleanNames(Relative(ChangeDir(cwd, d), ""));
    CleanNames(Relative(cwd, d));
  }

  lemma TranslatedWalk(cwd: string, target: string)
    ensures forall i :: 0 <= i < |Relative(cwd, target)| ==> SEP !in Relative(cwd, target)[i]
    ensures Clean(Relative(cwd, target))
  {
    RelativePieces(cwd, target);
    SplitClean(Translate(cwd));
    SplitClean(Translate(target));
    if target != "" {
      SplitClean(Translate(target[1..]));
    }
  }

  lemma CleanNames(walk: seq<string>)
    requires (forall i :: 0 <= i < |walk| ==> SEP !in walk[i]) && Clean(walk)
    ensures AllPlain(Climb([], walk).1) && Clean(Climb([], walk).1)
  {
    WalkPlain([], walk);
    ClampedNames([], walk);
    ClimbClean([], walk);
  }

  lemma OtherWayDiffers(cwd: string, d: string) returns (base: string, f: string)
    requires !SameWay(cwd, d)
    ensures CanonicalBase(base) && f != "" && f[0] != SEP
    ensures Resolve(base, ChangeDir(cwd, d), f) != Resolve(base, cwd, d + ([SEP] + f))
  {
    hide Resolve, Relative, ChangeDir, NewWalk, OneWalk, Climb, PadFile;
    var after, once := NewWalk(cwd, d), OneWalk(cwd, d);
    var (u, n) := Climb([], after);
    var (u', n') := Climb([], once);
    var low := if u <= u' then u else u';
    WalksAreClean(cwd, d);
    f := PadFile(low);
    PadFileSplits(low);
    NewRequest(cwd, d, f);
    OneRequest(cwd, d, f);
    if u <= u' {
      base := Telling(u, n);
      ToldApart(ChangeDir(cwd, d), f, after, cwd, d + ([SEP] + f), once);
    } else {
      base := Telling(u', n');
      ToldApart(cwd, d + ([SEP] + f), once, ChangeDir(cwd, d), f, after);
    }
  }

  /**
   For every current directory and every d, with or without backslashes: `CWD d` and then
   a file is the same as naming d and the file at once, for every canonical base and every
   relative file, if and only if the two ways, as `resolve` reads them, climb equally far
   and go down the same names.
   */
  lemma AgreeEverywhereExactly(cwd: string, d: string)
    ensures (forall base, f :: CanonicalBase(base) && f != "" && f[0] != SEP ==>
               Resolve(base, ChangeDir(cwd, d), f) == Resolve(base, cwd, d + ([SEP] + f)))
            <==> SameWay(cwd, d)
  {
    if SameWay(cwd, d) {
      forall base, f | CanonicalBase(base) && f != "" && f[0] != SEP
        ensures Resolve(base, ChangeDir(cwd, d), f) == Resolve(base, cwd, d + ([SEP] + f))
      {
        SameWaySame(base, cwd, d, f);
      }
    } else {
      var base, f := OtherWayDiffers(cwd, d);
    }
  }

  /** Without backslashes that is the condition of `AgreeExactly`, which needs only one base. */
  lemma SameWayWithoutBackslash(cwd: string, d: string)
    requires '\\' !in cwd && '\\' !in d
    ensures SameWay(cwd, d) <==> Climb([], DirWalk(cwd, d)).0 == 0
  {
    AgreeExactly("/", cwd, d);
    if SameWay(cwd, d) {
      forall f | f != "" && f[0] != SEP
        ensures Resolve("/", ChangeDir(cwd, d), f) == Resolve("/", cwd, d + ([SEP] + f))
      {
        SameWaySame("/", cwd, d, f);
      }
    } else {
      var base, f := OtherWayDiffers(cwd, d);
      if Climb([], DirWalk(cwd, d)).0 == 0 {
        NormalisersAgree(base, cwd, d, f);
      }
    }
  }
}
