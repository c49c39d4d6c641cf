/**
 The two path normalisers of the FTP server. `resolve` turns a request into a host path
 below a base and fails when it climbs above the host's root; `cwd_cmd` keeps the
 current directory of a session and stays put at its root. Both scan the string once,
 with a stack of components.
 */
module Paths {
  import opened Sequences

  const SEP := '/'

  // ---------- the stack machines ----------

  function Push(parts: seq<string>, part: string): Option<seq<string>> {
    if part == ".." then
      if parts == [] then None else Some(parts[..|parts| - 1])
    else if part == "" || part == "." then Some(parts)
    else Some(parts + [part])
  }

  function Walk(parts: seq<string>, rest: seq<string>): Option<seq<string>>
    decreases |rest|
  {
    if rest == [] then Some(parts)
    else
      match Push(parts, rest[0])
      case None => None
      case Some(next) => Walk(next, rest[1..])
  }

  function PushClamped(parts: seq<string>, part: string): seq<string> {
    if part == ".." && parts == [] then [] else Push(parts, part).value
  }

  function WalkClamped(parts: seq<string>, rest: seq<string>): seq<string>
    decreases |rest|
  {
    if rest == [] then parts else WalkClamped(PushClamped(parts, rest[0]), rest[1..])
  }

  function Translate(s: string): (t: string)
    ensures |t| == |s|
    ensures forall i :: 0 <= i < |s| ==> t[i] == if s[i] == '\\' then SEP else s[i]
  {
    seq(|s|, i requires 0 <= i < |s| => if s[i] == '\\' then SEP else s[i])
  }

  // ---------- resolve ----------

  function Raw(base: string, cwd: string, target: string): string {
    if target != "" && target[0] == SEP then base + [SEP] + target[1..]
    else base + (if cwd == "" then "" else [SEP] + cwd) + (if target == "" then "" else [SEP] + target)
  }

  /** A leading slash is kept; nothing left means the base itself; the base must be a prefix. */
  function Rebuilt(base: string, raw: string, parts: seq<string>): string {
    var joined := Join(parts, SEP);
    var result := if raw != "" && raw[0] == SEP then [SEP] + joined else joined;
    if result == "" then base
    else if Translate(base) <= result then result
    else ""
  }

  /** The resolved path; an empty string is a refusal. */
  function Resolve(base: string, cwd: string, target: string): string {
    var raw := Translate(Raw(base, cwd, target));
    match Walk([], Split(raw, SEP))
    case None => ""
    case Some(parts) => Rebuilt(base, raw, parts)
  }

  method TranslateLoop(s: string) returns (t: string)
    ensures t == Translate(s)
  {
    t := s;
    var i := 0;
    while i < |t|
      invariant 0 <= i <= |t| == |s|
      invariant forall j :: 0 <= j < i ==> t[j] == Translate(s)[j]
      invariant forall j :: i <= j < |t| ==> t[j] == s[j]
    {
      if t[i] == '\\' {
        t := t[i := SEP];
      }
      i := i + 1;
    }
  }

  method JoinLoop(parts: seq<string>) returns (s: string)
    ensures s == Join(parts, SEP)
  {
    s := "";
    var i := 0;
    while i < |parts|
      invariant 0 <= i <= |parts| && s == Join(parts[..i], SEP)
    {
      JoinSnoc(parts[..i], parts[i], SEP);
      assert parts[..i + 1] == parts[..i] + [parts[i]];
      if i > 0 {
        s := s + [SEP];
      }
      s := s + parts[i];
      i := i + 1;
    }
    assert parts[..i] == parts;
  }

  lemma {:induction false} JoinSnoc<T>(parts: seq<seq<T>>, part: seq<T>, sep: T)
    ensures Join(parts + [part], sep) == if parts == [] then part else Join(parts, sep) + [sep] + part
  {
    if |parts| > 1 {
      JoinSnoc(parts[1..], part, sep);
      assert (parts + [part])[1..] == parts[1..] + [part];
      ConcatAssociative(parts[0] + [sep], Join(parts[1..], sep), [sep] + part);
      ConcatAssociative(Join(parts[1..], sep), [sep], part);
      ConcatAssociative(parts[0] + [sep] + Join(parts[1..], sep), [sep], part);
    } else if |parts| == 1 {
      assert (parts + [part])[1..] == [part];
    } else {
      assert parts + [part] == [part];
    }
  }

  /** The piece that ends at a separator is fed to the machine, the rest of the string follows. */
  lemma PieceEnds(current: string, rest: string)
    requires SEP !in current
    ensures Split(current + [SEP] + rest, SEP) == [current] + Split(rest, SEP)
    ensures Split(current, SEP) == [current]
  {
    SplitAtSeparator(current, rest, SEP);
    SplitPlain(current, SEP);
  }

  /** The character at `i` either joins the current piece or ends it; the end of the string ends it too. */
  lemma ReadAt(current: string, raw: string, i: nat)
    requires SEP !in current && i <= |raw|
    ensures i == |raw| ==> Split(current + raw[i..], SEP) == [current]
    ensures i < |raw| && raw[i] == SEP ==> Split(current + raw[i..], SEP) == [current] + Split("" + raw[i + 1..], SEP)
    ensures i < |raw| && raw[i] != SEP ==> current + raw[i..] == current + [raw[i]] + raw[i + 1..]
  {
    if i < |raw| {
      assert current + raw[i..] == current + [raw[i]] + raw[i + 1..];
      assert "" + raw[i + 1..] == raw[i + 1..];
      PieceEnds(current, raw[i + 1..]);
    } else {
      assert current + raw[i..] == current;
      PieceEnds(current, "");
    }
  }

  /** The scan of `resolve`, which reads one separator past the end. */
  method ResolveScan(raw: string) returns (r: Option<seq<string>>)
    ensures r == Walk([], Split(raw, SEP))
  {
    var parts: seq<string>, current: string := [], "";
    var i := 0;
    assert "" + raw[0..] == raw;
    while i <= |raw|
      invariant 0 <= i <= |raw| + 1
      invariant i <= |raw| ==> SEP !in current
      invariant i <= |raw| ==> Walk([], Split(raw, SEP)) == Walk(parts, Split(current + raw[i..], SEP))
      invariant i == |raw| + 1 ==> Walk([], Split(raw, SEP)) == Some(parts)
    {
      var character := if i < |raw| then raw[i] else SEP;
      ReadAt(current, raw, i);
      if character == SEP {
        if current == ".." {
          if parts == [] {
            return None;
          }
          parts := parts[..|parts| - 1];
        } else if current != "" && current != "." {
          parts := parts + [current];
        }
        current := "";
      } else {
        current := current + [character];
      }
      i := i + 1;
    }
    r := Some(parts);
  }

  method BuildRaw(base: string, cwd: string, target: string) returns (raw: string)
    ensures raw == Raw(base, cwd, target)
  {
    raw := base;
    if cwd != "" {
      raw := raw + ("/" + cwd);
    }
    if target != "" {
      if target[0] == '/' {
        raw := base + "/" + target[1..];
      } else {
        raw := raw + ("/" + target);
      }
    }
  }

  method ResolveLoop(base: string, cwd: string, target: string) returns (r: string)
    ensures r == Resolve(base, cwd, target)
  {
    var raw := BuildRaw(base, cwd, target);
    raw := TranslateLoop(raw);
    var parts := ResolveScan(raw);
    if parts.None? {
      return "";
    }
    var result := JoinLoop(parts.value);
    if raw != "" && raw[0] == '/' {
      result := "/" + result;
    }
    if result == "" {
      return base;
    }
    var normBase := TranslateLoop(base);
    r := if normBase <= result then result else "";
  }

  // ---------- cwd_cmd ----------

  /** What a relative argument is taken relative to. */
  function Requested(cwd: string, arg: string): string
    requires arg != ""
  {
    if arg[0] == SEP then arg[1..] else if cwd == "" then arg else cwd + [SEP] + arg
  }

  function ChangeDir(cwd: string, arg: string): string {
    if arg == "" || arg == "/" then "" else Join(WalkClamped([], Split(Requested(cwd, arg), SEP)), SEP)
  }

  method ChangeDirLoop(cwd: string, arg: string) returns (r: string)
    ensures r == ChangeDir(cwd, arg)
  {
    if arg == "" || arg == "/" {
      return "";
    }
    var newCwd;
    if arg[0] == '/' {
      newCwd := arg[1..];
    } else {
      newCwd := cwd;
      if newCwd != "" {
        newCwd := newCwd + "/";
      }
      newCwd := newCwd + arg;
    }
    assert newCwd == Requested(cwd, arg);
    var parts := ChangeDirScan(newCwd);
    r := JoinLoop(parts);
  }

  /** The scan of `cwd_cmd`: at the root, `..` is dropped instead of refused. */
  method ChangeDirScan(raw: string) returns (parts: seq<string>)
    ensures parts == WalkClamped([], Split(raw, SEP))
  {
    parts := [];
    var current := "";
    var i := 0;
    assert "" + raw[0..] == raw;
    while i <= |raw|
      invariant 0 <= i <= |raw| + 1
      invariant i <= |raw| ==> SEP !in current
      invariant i <= |raw| ==> WalkClamped([], Split(raw, SEP)) == WalkClamped(parts, Split(current + raw[i..], SEP))
      invariant i == |raw| + 1 ==> WalkClamped([], Split(raw, SEP)) == parts
    {
      var character := if i < |raw| then raw[i] else SEP;
      ReadAt(current, raw, i);
      if character == SEP {
        if current == ".." {
          if parts != [] {
            parts := parts[..|parts| - 1];
          }
        } else if current != "" && current != "." {
          parts := parts + [current];
        }
        current := "";
      } else {
        current := current + [character];
      }
      i := i + 1;
    }
  }

  // ---------- canonical paths ----------

  predicate Plain(part: string) {
    part != "" && part != "." && part != ".." && SEP !in part
  }

  predicate AllPlain(parts: seq<string>) {
    forall i :: 0 <= i < |parts| ==> Plain(parts[i])
  }

  /** The components of a relative path; none for the empty string. */
  function Parts(dir: string): seq<string> {
    if dir == "" then [] else Split(dir, SEP)
  }

  /** Plain components with one slash between neighbours. */
  predicate CanonicalDir(dir: string) {
    AllPlain(Parts(dir))
  }

  predicate CanonicalBase(base: string) {
    base != "" && base[0] == SEP && '\\' !in base && CanonicalDir(base[1..])
  }

  function BaseParts(base: string): seq<string>
    requires base != ""
  {
    Parts(base[1..])
  }

  lemma {:induction false} JoinPlain(parts: seq<string>)
    requires AllPlain(parts)
    ensures Parts(Join(parts, SEP)) == parts && CanonicalDir(Join(parts, SEP))
  {
    if parts != [] {
      SplitJoin(parts, SEP);
      assert Plain(parts[0]);
      assert Join(parts, SEP) != "";
    }
  }

  lemma CanonicalIsJoined(dir: string)
    requires CanonicalDir(dir)
    ensures dir == Join(Parts(dir), SEP)
  {
    JoinSplit(dir, SEP);
  }

  lemma {:induction false} WalkPlain(parts: seq<string>, rest: seq<string>)
    requires AllPlain(parts) && forall i :: 0 <= i < |rest| ==> SEP !in rest[i]
    ensures AllPlain(WalkClamped(parts, rest))
    ensures Walk(parts, rest).Some? ==> AllPlain(Walk(parts, rest).value)
    decreases |rest|
  {
    if rest != [] {
      WalkPlain(PushClamped(parts, rest[0]), rest[1..]);
    }
  }

  /** Whatever the request, the new current directory is canonical. */
  lemma ChangeDirCanonical(cwd: string, arg: string)
    ensures CanonicalDir(ChangeDir(cwd, arg))
  {
    if arg != "" && arg != "/" {
      WalkPlain([], Split(Requested(cwd, arg), SEP));
      JoinPlain(WalkClamped([], Split(Requested(cwd, arg), SEP)));
    }
  }

  // ---------- how far a path climbs ----------

  /** The walk of a path that starts at an unknown place: how often it leaves it upwards, and the names below. */
  function Climb(names: seq<string>, rest: seq<string>): (r: (nat, seq<string>))
    decreases |rest|
  {
    if rest == [] then (0, names)
    else
      var above := Climb(PushClamped(names, rest[0]), rest[1..]);
      (above.0 + (if rest[0] == ".." && names == [] then 1 else 0), above.1)
  }

  /** The clamped machine forgets how far the path climbed and keeps the rest. */
  lemma {:induction false} ClampedNames(names: seq<string>, rest: seq<string>)
    ensures WalkClamped(names, rest) == Climb(names, rest).1
    decreases |rest|
  {
    if rest != [] {
      ClampedNames(PushClamped(names, rest[0]), rest[1..]);
    }
  }

  lemma {:induction false} ClimbConcat(names: seq<string>, a: seq<string>, b: seq<string>)
    ensures var (u, n) := Climb(names, a);
            Climb(names, a + b) == (u + Climb(n, b).0, Climb(n, b).1)
    decreases |a|
  {
    if a == [] {
      assert a + b == b;
    } else {
      assert (a + b)[1..] == a[1..] + b;
      ClimbConcat(PushClamped(names, a[0]), a[1..], b);
    }
  }

  lemma {:induction false} ClimbPlain(names: seq<string>, rest: seq<string>)
    requires AllPlain(rest)
    ensures Climb(names, rest) == (0, names + rest)
    decreases |rest|
  {
    if rest == [] {
      assert names + rest == names;
    } else {
      assert Plain(rest[0]);
      ClimbPlain(names + [rest[0]], rest[1..]);
      assert names + [rest[0]] + rest[1..] == names + rest;
    }
  }

  /** Started below `base`, the walk gives up base components for what the path climbs. */
  lemma {:induction false} WalkBelow(base: seq<string>, names: seq<string>, rest: seq<string>)
    ensures var (u, n) := Climb(names, rest);
            Walk(base + names, rest) == if u <= |base| then Some(base[..|base| - u] + n) else None
    decreases |rest|
  {
    if rest == [] {
      assert base[..|base|] == base;
    } else if rest[0] == ".." && names == [] {
      assert base + names == base;
      if base != [] {
        var up := base[..|base| - 1];
        WalkBelow(up, [], rest[1..]);
        assert up + [] == up;
        var u := Climb([], rest[1..]).0;
        if u <= |up| {
          assert up[..|up| - u] == base[..|base| - (u + 1)];
        }
      }
    } else {
      var next := PushClamped(names, rest[0]);
      WalkBelow(base, next, rest[1..]);
      if rest[0] == ".." {
        assert (base + names)[..|base + names| - 1] == base + next;
      } else if rest[0] != "" && rest[0] != "." {
        assert base + names + [rest[0]] == base + next;
      }
    }
  }

  // ---------- what resolve computes ----------

  /** The components of a request, relative to the base. */
  function Relative(cwd: string, target: string): seq<string> {
    if target != "" && target[0] == SEP then Split(Translate(target[1..]), SEP)
    else
      (if cwd == "" then [] else Split(Translate(cwd), SEP)) +
      (if target == "" then [] else Split(Translate(target), SEP))
  }

  lemma TranslateConcat(a: string, b: string)
    ensures Translate(a + b) == Translate(a) + Translate(b)
  {
  }

  lemma TranslateNothing(s: string)
    requires '\\' !in s
    ensures Translate(s) == s
  {
  }

  lemma SplitAfterSlash(a: string, b: string)
    ensures Split(Translate(a + ([SEP] + b)), SEP) == Split(Translate(a), SEP) + Split(Translate(b), SEP)
  {
    TranslateConcat(a, [SEP] + b);
    TranslateConcat([SEP], b);
    assert Translate([SEP]) == [SEP];
    ConcatAssociative(Translate(a), [SEP], Translate(b));
    SplitAtSeparator(Translate(a), Translate(b), SEP);
  }

  lemma RawSplit(base: string, cwd: string, target: string)
    ensures Split(Translate(Raw(base, cwd, target)), SEP) == Split(Translate(base), SEP) + Relative(cwd, target)
  {
    if target != "" && target[0] == SEP {
      SplitAfterSlash(base, target[1..]);
      ConcatAssociative(base, [SEP], target[1..]);
    } else if target == "" {
      RawSplitDir(base, cwd);
    } else {
      var dir := base + if cwd == "" then "" else [SEP] + cwd;
      RawSplitDir(base, cwd);
      SplitAfterSlash(dir, target);
      var below := if cwd == "" then [] else Split(Translate(cwd), SEP);
      ConcatAssociative(Split(Translate(base), SEP), below, Split(Translate(target), SEP));
    }
  }

  lemma RawSplitDir(base: string, cwd: string)
    ensures var dir := base + if cwd == "" then "" else [SEP] + cwd;
            Split(Translate(dir), SEP) ==
            Split(Translate(base), SEP) + if cwd == "" then [] else Split(Translate(cwd), SEP)
    ensures Relative(cwd, "") == if cwd == "" then [] else Split(Translate(cwd), SEP)
    ensures Raw(base, cwd, "") == base + if cwd == "" then "" else [SEP] + cwd
  {
    if cwd == "" {
      assert base + "" == base;
    } else {
      SplitAfterSlash(base, cwd);
    }
  }

  lemma {:induction false} WalkConcat(parts: seq<string>, a: seq<string>, b: seq<string>)
    requires Walk(parts, a).Some?
    ensures Walk(parts, a + b) == Walk(Walk(parts, a).value, b)
    decreases |a|
  {
    if a == [] {
      assert a + b == b;
    } else {
      assert (a + b)[1..] == a[1..] + b;
      WalkConcat(Push(parts, a[0]).value, a[1..], b);
    }
  }

  /** Walking the base leads to its components. */
  lemma BaseWalk(base: string)
    requires CanonicalBase(base)
    ensures Translate(base) == base && base == [SEP] + Join(BaseParts(base), SEP)
    ensures Walk([], Split(base, SEP)) == Some(BaseParts(base))
  {
    var dir := base[1..];
    TranslateNothing(base);
    CanonicalIsJoined(dir);
    assert base == "" + [SEP] + dir;
    SplitAtSeparator("", dir, SEP);
    assert Split("", SEP) == [""];
    var tail := Split(dir, SEP);
    assert ([""] + tail)[1..] == tail;
    assert Walk([], [""] + tail) == Walk([], tail);
    if dir == "" {
      assert tail == [""] && tail[1..] == [];
      assert Push([], "") == Some([]);
      assert Walk([], tail) == Walk([], []);
    } else {
      WalkBelow([], [], tail);
      ClimbPlain([], tail);
      var none: seq<string> := [];
      assert none + none == none && none + tail == tail;
    }
  }

  /** The components of the result: the base, less what the request climbs, then its names. */
  function Landing(base: string, cwd: string, target: string): Option<seq<string>>
    requires base != ""
  {
    var (u, n) := Climb([], Relative(cwd, target));
    var b := BaseParts(base);
    if u <= |b| then Some(b[..|b| - u] + n) else None
  }

  lemma WalkLands(base: string, cwd: string, target: string)
    requires CanonicalBase(base)
    ensures Walk([], Split(Translate(Raw(base, cwd, target)), SEP)) == Landing(base, cwd, target)
  {
    var b, rel := BaseParts(base), Relative(cwd, target);
    BaseWalk(base);
    RawSplit(base, cwd, target);
    WalkConcat([], Split(base, SEP), rel);
    WalkBelow(b, [], rel);
    assert b + [] == b;
  }

  /** `resolve` accepts the landing place if the base, as a string, is a prefix of it. */
  lemma ResolveLands(base: string, cwd: string, target: string)
    requires CanonicalBase(base)
    ensures Resolve(base, cwd, target) ==
            match Landing(base, cwd, target)
            case None => ""
            case Some(parts) => if base <= [SEP] + Join(parts, SEP) then [SEP] + Join(parts, SEP) else ""
  {
    var raw := Raw(base, cwd, target);
    WalkLands(base, cwd, target);
    TranslateNothing(base);
    assert raw[0] == base[0] && Translate(raw)[0] == SEP;
  }

  lemma {:induction false} RelativePieces(cwd: string, target: string)
    ensures forall i :: 0 <= i < |Relative(cwd, target)| ==> SEP !in Relative(cwd, target)[i]
  {
  }

  lemma LandingPlain(base: string, cwd: string, target: string)
    requires CanonicalBase(base) && Landing(base, cwd, target).Some?
    ensures AllPlain(Landing(base, cwd, target).value)
  {
    var rel := Relative(cwd, target);
    RelativePieces(cwd, target);
    WalkPlain([], rel);
    ClampedNames([], rel);
  }

  /**
   Whatever the base, if it is absolute: every path that `resolve` does not refuse is a
   slash and plain components with one slash between neighbours, and has the base as a
   prefix.
   */
  lemma ResolvedIsCanonical(base: string, cwd: string, target: string)
    requires base != "" && Translate(base)[0] == SEP && Resolve(base, cwd, target) != ""
    ensures var r := Resolve(base, cwd, target);
            r[0] == SEP && CanonicalDir(r[1..]) && Translate(base) <= r
  {
    var raw := Translate(Raw(base, cwd, target));
    assert Raw(base, cwd, target)[0] == base[0];
    var parts := Walk([], Split(raw, SEP)).value;
    WalkPlain([], Split(raw, SEP));
    JoinPlain(parts);
    assert ([SEP] + Join(parts, SEP))[1..] == Join(parts, SEP);
  }

  lemma {:induction false} JoinPrefix(a: seq<string>, b: seq<string>)
    ensures Join(a, SEP) <= Join(a + b, SEP)
  {
    if b == [] {
      assert a + b == a;
    } else {
      var n := |b| - 1;
      JoinPrefix(a, b[..n]);
      JoinSnoc(a + b[..n], b[n], SEP);
      assert a + b == a + b[..n] + [b[n]];
    }
  }

  /** A request that never climbs above the base is granted: the base, then the request's normal form. */
  lemma BelowBaseIsGranted(base: string, cwd: string, target: string)
    requires CanonicalBase(base) && Climb([], Relative(cwd, target)).0 == 0
    ensures Resolve(base, cwd, target) == [SEP] + Join(BaseParts(base) + WalkClamped([], Relative(cwd, target)), SEP)
  {
    var b, rel := BaseParts(base), Relative(cwd, target);
    ResolveLands(base, cwd, target);
    ClampedNames([], rel);
    BaseWalk(base);
    assert b[..|b|] == b;
    JoinPrefix(b, WalkClamped([], rel));
  }

  lemma PrefixBehind<T>(front: seq<T>, a: seq<T>, b: seq<T>)
    ensures front + a <= front + b <==> a <= b
  {
    if front + a <= front + b {
      forall i | 0 <= i < |a| ensures a[i] == b[i] {
        assert (front + a)[|front| + i] == (front + b)[|front| + i];
      }
    }
    if a <= b {
      assert b == a + b[|a|..];
      ConcatAssociative(front, a, b[|a|..]);
    }
  }

  lemma SiblingRelative()
    ensures Relative("", "../ab") == ["..", "ab"]
  {
    SplitPlain("..", SEP);
    SplitPlain("ab", SEP);
    SplitAtSeparator("..", "ab", SEP);
    assert ".." + [SEP] + "ab" == "../ab";
    TranslateNothing("../ab");
    var rel := ["..", "ab"];
    assert [] + rel == rel;
  }

  lemma SiblingClimbs()
    ensures Climb([], ["..", "ab"]) == (1, ["ab"])
  {
    ClimbPlain([], ["ab"]);
    assert ["..", "ab"][1..] == ["ab"] && [] + ["ab"] == ["ab"];
  }

  /** The test is one of strings: a sibling whose name continues the base's last component passes it. */
  lemma PrefixTestIsOfStrings()
    ensures CanonicalBase("/a") && BaseParts("/a") == ["a"]
    ensures Resolve("/a", "", "../ab") == "/ab" && Landing("/a", "", "../ab") == Some(["ab"])
  {
    assert "/a"[1..] == "a";
    SplitPlain("a", SEP);
    SiblingRelative();
    SiblingClimbs();
    ResolveLands("/a", "", "../ab");
  }

  // ---------- the two normalisers together ----------

  /** The components that `CWD d` walks, from the root of the session. */
  function DirWalk(cwd: string, d: string): seq<string> {
    if d == "" || d == "/" then []
    else if d[0] == SEP then Split(d[1..], SEP)
    else Parts(cwd) + Split(d, SEP)
  }

  lemma ChangeDirWalks(cwd: string, d: string)
    ensures ChangeDir(cwd, d) == Join(Climb([], DirWalk(cwd, d)).1, SEP)
    ensures AllPlain(Climb([], DirWalk(cwd, d)).1)
    ensures Parts(ChangeDir(cwd, d)) == Climb([], DirWalk(cwd, d)).1
  {
    if d != "" && d != "/" {
      if d[0] != SEP && cwd != "" {
        SplitAtSeparator(cwd, d, SEP);
      } else {
        assert [] + Split(d, SEP) == Split(d, SEP);
      }
      assert Split(Requested(cwd, d), SEP) == DirWalk(cwd, d);
    }
    ClampedNames([], DirWalk(cwd, d));
    WalkPlain([], DirWalk(cwd, d));
    JoinPlain(Climb([], DirWalk(cwd, d)).1);
  }

  lemma TranslatedClean(dir: string)
    requires '\\' !in dir
    ensures Split(Translate(dir), SEP) == Split(dir, SEP)
  {
    TranslateNothing(dir);
  }

  lemma {:induction false} JoinClean(parts: seq<string>)
    requires forall i :: 0 <= i < |parts| ==> '\\' !in parts[i]
    ensures '\\' !in Join(parts, SEP)
  {
    if |parts| > 1 {
      JoinClean(parts[1..]);
    }
  }

  ghost predicate Clean(parts: seq<string>) {
    forall i :: 0 <= i < |parts| ==> '\\' !in parts[i]
  }

  lemma {:induction false} SplitClean(s: string)
    requires '\\' !in s
    ensures Clean(Split(s, SEP))
  {
    if s != "" {
      SplitClean(s[1..]);
    }
  }

  lemma {:induction false} ClimbClean(names: seq<string>, rest: seq<string>)
    requires Clean(names) && Clean(rest)
    ensures Clean(Climb(names, rest).1)
    decreases |rest|
  {
    if rest != [] {
      ClimbClean(PushClamped(names, rest[0]), rest[1..]);
    }
  }

  /** The new current directory contains no backslash if the old one and the argument do not. */
  lemma ChangeDirClean(cwd: string, d: string)
    requires '\\' !in cwd && '\\' !in d
    ensures '\\' !in ChangeDir(cwd, d)
  {
    if d != "" && d != "/" {
      SplitClean(if d[0] == SEP then d[1..] else d);
      SplitClean(cwd);
    }
    ClimbClean([], DirWalk(cwd, d));
    ChangeDirWalks(cwd, d);
    JoinClean(Climb([], DirWalk(cwd, d)).1);
  }

  /** After `CWD d`, a request for f walks the new directory and then f. */
  lemma AfterChange(cwd: string, d: string, f: string)
    requires '\\' !in cwd && '\\' !in d && f != "" && f[0] != SEP
    ensures Relative(ChangeDir(cwd, d), f) == Climb([], DirWalk(cwd, d)).1 + Split(Translate(f), SEP)
  {
    ChangeDirWalks(cwd, d);
    ChangeDirClean(cwd, d);
    TranslatedClean(ChangeDir(cwd, d));
  }

  /** Without it, a request for d and f together walks d and then f. */
  lemma InOneRequest(cwd: string, d: string, f: string)
    requires '\\' !in cwd && '\\' !in d && f != ""
    ensures Climb([], Relative(cwd, d + ([SEP] + f))) == Climb([], DirWalk(cwd, d) + Split(Translate(f), SEP))
  {
    var target, file := d + ([SEP] + f), Split(Translate(f), SEP);
    TranslatedClean(d);
    TranslatedClean(cwd);
    if d == "" {
      assert target[1..] == f && [] + file == file;
    } else if d == "/" {
      assert target[1..] == "" + ([SEP] + f);
      SplitAfterSlash("", f);
      assert Split(Translate(""), SEP) == [""];
      assert ([""] + file)[1..] == file && [] + file == file;
      assert Climb([], [""] + file) == Climb([], file);
    } else if d[0] == SEP {
      assert target[1..] == d[1..] + ([SEP] + f);
      TranslatedClean(d[1..]);
      SplitAfterSlash(d[1..], f);
    } else {
      SplitAfterSlash(d, f);
      ConcatAssociative(Parts(cwd), Split(d, SEP), file);
    }
  }

  lemma FileWalk(cwd: string, d: string, f: string)
    requires '\\' !in cwd && '\\' !in d && f != "" && f[0] != SEP
    ensures var (u, n) := Climb([], DirWalk(cwd, d));
            var (u', n') := Climb(n, Split(Translate(f), SEP));
            && Climb([], Relative(ChangeDir(cwd, d), f)) == (u', n')
            && Climb([], Relative(cwd, d + ([SEP] + f))) == (u + u', n')
  {
    hide Relative, Climb, DirWalk, ChangeDir, Split, Translate;
    AfterChange(cwd, d, f);
    InOneRequest(cwd, d, f);
    ChangeDirWalks(cwd, d);
    WalkThenFile(DirWalk(cwd, d), Split(Translate(f), SEP));
  }

  /** Going on from where a walk ends, or from the plain names it ends at, leads to the same place. */
  lemma WalkThenFile(walk: seq<string>, file: seq<string>)
    requires AllPlain(Climb([], walk).1)
    ensures var (u, n) := Climb([], walk);
            var (u', n') := Climb(n, file);
            Climb([], n + file) == (u', n') && Climb([], walk + file) == (u + u', n')
  {
    var n := Climb([], walk).1;
    ClimbConcat([], walk, file);
    ClimbPlain([], n);
    ClimbConcat([], n, file);
    assert [] + n == n;
  }

  /**
   Changing directory and then naming a file is naming both at once, if the directory
   stays below the session's root.
   */
  lemma NormalisersAgree(base: string, cwd: string, d: string, f: string)
    requires CanonicalBase(base) && '\\' !in cwd && '\\' !in d && f != "" && f[0] != SEP
    requires Climb([], DirWalk(cwd, d)).0 == 0
    ensures Resolve(base, ChangeDir(cwd, d), f) == Resolve(base, cwd, d + ([SEP] + f))
  {
    FileWalk(cwd, d, f);
    ResolveLands(base, ChangeDir(cwd, d), f);
    ResolveLands(base, cwd, d + ([SEP] + f));
  }

  lemma OneInFront(s: string, t: string)
    ensures [SEP] + s == [SEP] + t ==> s == t
  {
    assert ([SEP] + s)[1..] == s && ([SEP] + t)[1..] == t;
  }

  lemma DisagreeOnPlainFile(base: string, cwd: string, d: string)
    requires CanonicalBase(base) && '\\' !in cwd && '\\' !in d && Climb([], DirWalk(cwd, d)).0 > 0
    ensures Resolve(base, ChangeDir(cwd, d), "x") != Resolve(base, cwd, d + ([SEP] + "x"))
  {
    var (u, n) := Climb([], DirWalk(cwd, d));
    var b, one := BaseParts(base), d + ([SEP] + "x");
    FileWalk(cwd, d, "x");
    SplitPlain("x", SEP);
    TranslateNothing("x");
    ClimbPlain(n, ["x"]);
    BelowBaseIsGranted(base, ChangeDir(cwd, d), "x");
    ResolveLands(base, ChangeDir(cwd, d), "x");
    ResolveLands(base, cwd, one);
    LandingPlain(base, ChangeDir(cwd, d), "x");
    var here := Landing(base, ChangeDir(cwd, d), "x").value;
    JoinPlain(here);
    if Landing(base, cwd, one).Some? {
      var there := Landing(base, cwd, one).value;
      LandingPlain(base, cwd, one);
      JoinPlain(there);
      assert |there| < |here|;
      OneInFront(Join(there, SEP), Join(here, SEP));
    }
  }

  /**
   The two normalisers agree on every file exactly when the directory change does not
   climb above the session's root, where the one stops and the other goes on.
   */
  lemma AgreeExactly(base: string, cwd: string, d: string)
    requires CanonicalBase(base) && '\\' !in cwd && '\\' !in d
    ensures (forall f :: f != "" && f[0] != SEP ==>
            Resolve(base, ChangeDir(cwd, d), f) == Resolve(base, cwd, d + ([SEP] + f)))
            <==> Climb([], DirWalk(cwd, d)).0 == 0
  {
    if Climb([], DirWalk(cwd, d)).0 == 0 {
      forall f | f != "" && f[0] != SEP
        ensures Resolve(base, ChangeDir(cwd, d), f) == Resolve(base, cwd, d + ([SEP] + f))
      {
        NormalisersAgree(base, cwd, d, f);
      }
    } else {
      DisagreeOnPlainFile(base, cwd, d);
      assert "x" != "" && "x"[0] != SEP;
    }
  }

  /** The name p\q, with a step back up. */
  function UpFrom(p: string, q: string): string {
    (p + (['\\'] + q)) + ([SEP] + "..")
  }

  predicate PlainName(p: string) {
    Plain(p) && '\\' !in p
  }

  lemma TranslatedPair(p: string, q: string)
    requires PlainName(p) && PlainName(q)
    ensures Split(Translate(p + (['\\'] + q)), SEP) == [p, q]
  {
    TranslateConcat(p, ['\\'] + q);
    TranslateConcat(['\\'], q);
    TranslateNothing(p);
    TranslateNothing(q);
    assert Translate(['\\']) == [SEP];
    assert p + ([SEP] + q) == p + [SEP] + q;
    SplitAtSeparator(p, q, SEP);
    SplitPlain(p, SEP);
    SplitPlain(q, SEP);
  }

  lemma UpFromWalks(p: string, q: string, f: string)
    requires PlainName(p) && PlainName(q) && PlainName(f)
    ensures Split(UpFrom(p, q), SEP) == [p + (['\\'] + q), ".."]
    ensures Split(Translate(UpFrom(p, q) + ([SEP] + f)), SEP) == [p, q, "..", f]
  {
    var name := p + (['\\'] + q);
    assert SEP !in name;
    assert name + ([SEP] + "..") == name + [SEP] + "..";
    hide Split, Translate;
    SplitAtSeparator(name, "..", SEP);
    SplitPlain(name, SEP);
    SplitPlain("..", SEP);
    TranslatedPair(p, q);
    SplitAfterSlash(name, "..");
    SplitAfterSlash(UpFrom(p, q), f);
    TranslateNothing("..");
    TranslateNothing(f);
    SplitPlain(f, SEP);
    assert [p, q] + [".."] + [f] == [p, q, "..", f];
  }

  lemma UpFromClimbs(p: string, q: string, f: string)
    requires Plain(p) && Plain(q) && Plain(f)
    ensures Climb([], [q, ".."]) == (0, [])
    ensures Climb([], [p, q, "..", f]) == (0, [p, f])
  {
    var two := [p, q];
    ClimbPlain([], [q]);
    ClimbPlain([], two);
    ClimbPlain([p], [f]);
    assert [q] + [".."] == [q, ".."] && two + ["..", f] == [p, q, "..", f];
    ClimbConcat([], [q], [".."]);
    ClimbConcat([], two, ["..", f]);
    assert ["..", f][1..] == [f] && two[..1] == [p] && [p] + [f] == [p, f];
    assert [] + two == two && [] + [q] == [q];
    assert Climb(two, ["..", f]) == Climb([p], [f]);
  }

  /** With a backslash they part: `cwd_cmd` takes it for part of one name, `resolve` for a separator. */
  lemma BackslashParts(base: string, p: string, q: string, f: string)
    requires CanonicalBase(base) && PlainName(p) && PlainName(q) && PlainName(f)
    ensures Resolve(base, ChangeDir("", UpFrom(p, q)), f) == [SEP] + Join(BaseParts(base) + [f], SEP)
    ensures Resolve(base, "", UpFrom(p, q) + ([SEP] + f)) == [SEP] + Join(BaseParts(base) + [p, f], SEP)
  {
    var d := UpFrom(p, q);
    var one := d + ([SEP] + f);
    UpFromWalks(p, q, f);
    UpFromClimbs(p, p + (['\\'] + q), f);
    UpFromClimbs(p, q, f);
    var up, all := [p + (['\\'] + q), ".."], [p, q, "..", f];
    assert d[0] == p[0] && one[0] == p[0];
    assert [] + up == up && [] + all == all;
    ChangeDirWalks("", d);
    BaseOrBelow(base, "", one, all, [p, f]);
    TranslateNothing(f);
    SplitPlain(f, SEP);
    assert [] + [f] == [f];
    ClimbPlain([], [f]);
    BaseOrBelow(base, "", f, [f], [f]);
  }

  lemma BaseOrBelow(base: string, cwd: string, target: string, walk: seq<string>, names: seq<string>)
    requires CanonicalBase(base) && Relative(cwd, target) == walk && Climb([], walk) == (0, names)
    ensures Resolve(base, cwd, target) == [SEP] + Join(BaseParts(base) + names, SEP)
  {
    ClampedNames([], walk);
    BelowBaseIsGranted(base, cwd, target);
  }

  /** Sending back the path that PWD prints leaves the current directory as it is. */
  lemma PwdRoundTrip(cwd: string, elsewhere: string)
    requires CanonicalDir(cwd)
    ensures ChangeDir(elsewhere, "/" + cwd) == cwd
  {
    if cwd != "" {
      var arg := "/" + cwd;
      assert arg[1..] == cwd;
      ChangeDirWalks(elsewhere, arg);
      ClimbPlain([], Parts(cwd));
      assert [] + Parts(cwd) == Parts(cwd);
      CanonicalIsJoined(cwd);
    }
  }

  /** `CDUP` undoes `CWD` of a plain component. */
  lemma CdupUndoesCwd(cwd: string, name: string)
    requires CanonicalDir(cwd) && Plain(name)
    ensures Parts(ChangeDir(cwd, name)) == Parts(cwd) + [name]
    ensures ChangeDir(ChangeDir(cwd, name), "..") == cwd
  {
    var parts := Parts(cwd);
    SplitPlain(name, SEP);
    ChangeDirWalks(cwd, name);
    assert DirWalk(cwd, name) == parts + [name];
    ClimbPlain([], parts + [name]);
    assert [] + (parts + [name]) == parts + [name];
    var below := ChangeDir(cwd, name);
    SplitPlain("..", SEP);
    ChangeDirWalks(below, "..");
    assert DirWalk(below, "..") == (parts + [name]) + [".."];
    ClimbConcat([], parts + [name], [".."]);
    assert (parts + [name])[..|parts|] == parts;
    assert Climb(parts + [name], [".."]) == (0, parts);
    CanonicalIsJoined(cwd);
  }
}
