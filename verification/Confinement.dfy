/**
 Which paths lie inside a directory, component by component: exactly when a request that
 `resolve` grants ends beside its base, and exactly when the directory that a login
 creates, whose path `resolve` never sees, lies inside the temporary directory.
 */
module Confinement {
  import opened Sequences
  import opened Paths

  // ---------- the prefix test, in components ----------

  /** What `base <= path` says of the components: all but the last agree, and the last may go on. */
  predicate PassesTest(b: seq<string>, l: seq<string>) {
    b == [] || (|b| <= |l| && b[..|b| - 1] == l[..|b| - 1] && b[|b| - 1] <= l[|b| - 1])
  }

  lemma PrefixOfFirst(a: string, first: string, tail: string)
    requires SEP !in a
    ensures a <= first + ([SEP] + tail) <==> a <= first
  {
    var all := first + ([SEP] + tail);
    assert all[|first|] == SEP && (|first| < |a| ==> a[|first|] in a);
    assert all[..|first|] == first;
  }

  lemma FirstPieces(a: string, s: string, b: string, t: string)
    requires SEP !in a && SEP !in b
    ensures a + ([SEP] + s) <= b + ([SEP] + t) <==> a == b && s <= t
  {
    var left, right := a + ([SEP] + s), b + ([SEP] + t);
    assert left[|a|] == SEP && right[|b|] == SEP;
    assert |a| < |b| ==> right[|a|] == b[|a|] && b[|a|] in b;
    assert |b| < |a| ==> left[|b|] == a[|b|] && a[|b|] in a;
    if left <= right {
      assert |a| == |b|;
      assert a == left[..|a|] == right[..|a|] == b;
      assert s == left[|a| + 1..] && t == right[|a| + 1..];
    }
    if a == b && s <= t {
      assert t == s + t[|s|..];
      assert right == left + t[|s|..];
    }
  }

  lemma JoinFront(parts: seq<string>)
    requires |parts| > 1
    ensures Join(parts, SEP) == parts[0] + ([SEP] + Join(parts[1..], SEP))
  {
  }

  lemma PassesTail(b: seq<string>, l: seq<string>)
    requires |b| > 1 && |l| > 1
    ensures PassesTest(b, l) <==> b[0] == l[0] && PassesTest(b[1..], l[1..])
  {
    var n := |b| - 1;
    if |b| <= |l| {
      assert b[..n][0] == b[0] && l[..n][0] == l[0];
      assert b[..n][1..] == b[1..][..n - 1] && l[..n][1..] == l[1..][..n - 1];
      assert b[..n] == [b[0]] + b[..n][1..] && l[..n] == [l[0]] + l[..n][1..];
    }
  }

  lemma {:induction false} JoinedPrefix(b: seq<string>, l: seq<string>)
    requires AllPlain(b) && AllPlain(l)
    ensures Join(b, SEP) <= Join(l, SEP) <==> PassesTest(b, l)
  {
    if b != [] && l != [] {
      assert Plain(b[0]) && Plain(l[0]);
      if |b| == 1 {
        if |l| > 1 {
          JoinFront(l);
          PrefixOfFirst(b[0], l[0], Join(l[1..], SEP));
        }
      } else if |l| == 1 {
        JoinFront(b);
        assert Join(b, SEP)[|b[0]|] == SEP;
      } else {
        JoinFront(b);
        JoinFront(l);
        FirstPieces(b[0], Join(b[1..], SEP), l[0], Join(l[1..], SEP));
        JoinedPrefix(b[1..], l[1..]);
        PassesTail(b, l);
      }
    } else if b != [] {
      assert Plain(b[0]);
    }
  }

  // ---------- what resolve grants ----------

  lemma BehindSlash(s: string, t: string)
    ensures [SEP] + s <= [SEP] + t <==> s <= t
  {
    if [SEP] + s <= [SEP] + t {
      assert s == ([SEP] + s)[1..] && t == ([SEP] + t)[1..];
    }
    if s <= t {
      assert t == s + t[|s|..];
      ConcatAssociative([SEP], s, t[|s|..]);
    }
  }

  lemma AcceptedExactly(base: string, l: seq<string>)
    requires CanonicalBase(base) && AllPlain(l)
    ensures base <= [SEP] + Join(l, SEP) <==> PassesTest(BaseParts(base), l)
    ensures Parts(([SEP] + Join(l, SEP))[1..]) == l
  {
    BaseWalk(base);
    JoinedPrefix(BaseParts(base), l);
    BehindSlash(Join(BaseParts(base), SEP), Join(l, SEP));
    JoinPlain(l);
    assert ([SEP] + Join(l, SEP))[1..] == Join(l, SEP);
  }

  /** Where a request ends that climbs u components out of b and then goes down n. */
  function From(b: seq<string>, u: nat, n: seq<string>): seq<string> {
    (if u <= |b| then b[..|b| - u] else []) + n
  }

  /** A request is granted if and only if it does not climb out of the root and the place passes the test. */
  lemma GrantedExactly(base: string, cwd: string, target: string)
    requires CanonicalBase(base)
    ensures var (u, n) := Climb([], Relative(cwd, target));
            var b, r := BaseParts(base), Resolve(base, cwd, target);
            && (r != "" <==> u <= |b| && PassesTest(b, From(b, u, n)))
            && (r != "" ==> Parts(r[1..]) == From(b, u, n))
  {
    hide Resolve, Relative, Climb, PassesTest, Join, Parts, BaseParts, AllPlain;
    ResolveLands(base, cwd, target);
    if Landing(base, cwd, target).Some? {
      LandingPlain(base, cwd, target);
      AcceptedExactly(base, Landing(base, cwd, target).value);
    }
  }

  predicate Inside(dir: string, parts: seq<string>)
    requires dir != ""
  {
    BaseParts(dir) <= parts
  }

  /** The names after the climb lead back through the components climbed out of. */
  predicate Returns(b: seq<string>, u: nat, n: seq<string>) {
    u <= |b| && b[|b| - u..] <= n
  }

  /** They lead back through all but the last, and then to a name that only starts like it. */
  predicate Sidesteps(b: seq<string>, u: nat, n: seq<string>) {
    && 0 < u <= |b| && u <= |n|
    && n[..u - 1] == b[|b| - u..|b| - 1] && b[|b| - 1] < n[u - 1]
  }

  lemma InsideFrom(b: seq<string>, u: nat, n: seq<string>)
    requires u <= |b|
    ensures b <= From(b, u, n) <==> Returns(b, u, n)
  {
    assert b == b[..|b| - u] + b[|b| - u..];
    PrefixBehind(b[..|b| - u], b[|b| - u..], n);
  }

  lemma PassesFrom(b: seq<string>, u: nat, n: seq<string>)
    requires u <= |b|
    ensures PassesTest(b, From(b, u, n)) <==> Returns(b, u, n) || Sidesteps(b, u, n)
  {
    var kept, given := b[..|b| - u], b[|b| - u..];
    if u == 0 {
      assert From(b, u, n)[..|b|] == b && given == [];
    } else {
      var front, m := b[|b| - u..|b| - 1], |b| - 1;
      assert given == front + [b[m]] && b[..m] == kept + front;
      if u <= |n| {
        assert From(b, u, n)[..m] == kept + n[..u - 1] && From(b, u, n)[m] == n[u - 1];
        SameBehind(kept, front, n[..u - 1]);
        PrefixOrSame(b[m], n[u - 1]);
        OneMore(front, b[m], n);
      }
    }
  }

  lemma PrefixOrSame(s: string, t: string)
    ensures s <= t <==> s == t || s < t
  {
    if s <= t && |s| == |t| {
      assert t == t[..|s|];
    }
  }

  lemma SameBehind<T>(front: seq<T>, a: seq<T>, b: seq<T>)
    ensures front + a == front + b <==> a == b
  {
    if front + a == front + b {
      assert a == (front + a)[|front|..] && b == (front + b)[|front|..];
    }
  }

  lemma OneMore<T>(a: seq<T>, x: T, s: seq<T>)
    requires |a| < |s|
    ensures a + [x] <= s <==> s[..|a|] == a && s[|a|] == x
  {
    if a + [x] <= s {
      assert s[..|a|] == (a + [x])[..|a|] == a;
    }
    if s[..|a|] == a && s[|a|] == x {
      assert s == a + [x] + s[|a| + 1..];
    }
  }

  /**
   In components, a request is granted inside the base if and only if it leads back
   through what it climbed out of.
   */
  lemma InsideExactly(base: string, cwd: string, target: string)
    requires CanonicalBase(base)
    ensures var (u, n) := Climb([], Relative(cwd, target));
            var b, r := BaseParts(base), Resolve(base, cwd, target);
            r != "" && Inside(base, Parts(r[1..])) <==> Returns(b, u, n)
  {
    var (u, n) := Climb([], Relative(cwd, target));
    GrantedExactly(base, cwd, target);
    if u <= |BaseParts(base)| {
      InsideFrom(BaseParts(base), u, n);
      PassesFrom(BaseParts(base), u, n);
    }
  }

  /**
   A request is granted outside the base, component by component, exactly when it climbs
   out, leads back through all but the last component, and goes on to a longer name that
   starts like the last one.
   */
  lemma OutsideExactly(base: string, cwd: string, target: string)
    requires CanonicalBase(base)
    ensures var (u, n) := Climb([], Relative(cwd, target));
            var b, r := BaseParts(base), Resolve(base, cwd, target);
            r != "" && !Inside(base, Parts(r[1..])) <==> Sidesteps(b, u, n)
  {
    var (u, n) := Climb([], Relative(cwd, target));
    GrantedExactly(base, cwd, target);
    if u <= |BaseParts(base)| {
      InsideFrom(BaseParts(base), u, n);
      PassesFrom(BaseParts(base), u, n);
      NotBoth(BaseParts(base), u, n);
    }
  }

  lemma NotBoth(b: seq<string>, u: nat, n: seq<string>)
    ensures !(Returns(b, u, n) && Sidesteps(b, u, n))
  {
    if Returns(b, u, n) && 0 < u {
      assert n[u - 1] == b[|b| - u..][u - 1];
    }
  }

  function Last(b: seq<string>): string
    requires b != []
  {
    b[|b| - 1]
  }

  /** The request for the neighbour whose name is the base's own with more behind it. */
  function Beside(base: string, more: string): string
    requires base != "" && BaseParts(base) != []
  {
    ".." + ([SEP] + (Last(BaseParts(base)) + more))
  }

  lemma OneUpSplit(name: string)
    requires SEP !in name
    ensures Split(".." + ([SEP] + name), SEP) == ["..", name]
  {
    SplitPlain("..", SEP);
    SplitPlain(name, SEP);
    assert ".." + [SEP] + name == ".." + ([SEP] + name);
    SplitAtSeparator("..", name, SEP);
    assert [".."] + [name] == ["..", name];
  }

  lemma OneUpRelative(name: string)
    requires SEP !in name && '\\' !in name
    ensures Relative("", ".." + ([SEP] + name)) == ["..", name]
  {
    var target, rel := ".." + ([SEP] + name), ["..", name];
    OneUpSplit(name);
    assert target[0] == '.' && '\\' !in target;
    TranslateNothing(target);
    assert [] + rel == rel;
  }

  lemma OneUpClimb(name: string)
    requires Plain(name)
    ensures Climb([], ["..", name]) == (1, [name])
  {
    ClimbPlain([], [name]);
    assert ["..", name][1..] == [name] && [] + [name] == [name];
  }

  lemma OneUp(name: string)
    requires Plain(name) && '\\' !in name
    ensures Split(".." + ([SEP] + name), SEP) == ["..", name]
    ensures Relative("", ".." + ([SEP] + name)) == ["..", name]
    ensures Climb([], ["..", name]) == (1, [name])
  {
    hide Split, Relative, Climb;
    OneUpSplit(name);
    OneUpRelative(name);
    OneUpClimb(name);
  }

  lemma LongerName(base: string, more: string)
    requires CanonicalBase(base) && BaseParts(base) != [] && more != "" && SEP !in more && '\\' !in more
    ensures Plain(Last(BaseParts(base)) + more) && '\\' !in Last(BaseParts(base)) + more
  {
    var p := Last(BaseParts(base));
    assert Plain(p) && (p + more)[..|p|] == p && ".."[..1] == ".";
    SplitClean(base[1..]);
  }

  /** Every base but the root has such neighbours, and each of them is granted, though it is not inside. */
  lemma NeighboursGranted(base: string, more: string)
    requires CanonicalBase(base) && BaseParts(base) != [] && more != "" && SEP !in more && '\\' !in more
    ensures var b, r := BaseParts(base), Resolve(base, "", Beside(base, more));
            && r != "" && !Inside(base, Parts(r[1..]))
            && Parts(r[1..]) == b[..|b| - 1] + [Last(b) + more]
  {
    var b := BaseParts(base);
    LongerName(base, more);
    OneUp(Last(b) + more);
    assert [Last(b) + more][..0] == b[|b| - 1..|b| - 1];
    assert Sidesteps(b, 1, [Last(b) + more]);
    OutsideExactly(base, "", Beside(base, more));
    GrantedExactly(base, "", Beside(base, more));
  }

  // ---------- the directory that a login creates ----------

  /** Where the lookup of an absolute path ends, symbolic links aside; `..` in the root stays there. */
  function Lands(path: string): seq<string> {
    WalkClamped([], Split(path, SEP))
  }

  /** Started in `base`, the clamped walk gives up base components for what the path climbs. */
  lemma {:induction false} ClampedBelow(base: seq<string>, names: seq<string>, rest: seq<string>)
    ensures var (u, n) := Climb(names, rest); WalkClamped(base + names, rest) == From(base, u, n)
    decreases |rest|, 0
  {
    if rest == [] {
      assert base[..|base|] == base;
    } else if rest[0] == ".." && names == [] {
      assert base + names == base;
      ClampedUp(base, rest[1..]);
    } else {
      var next := PushClamped(names, rest[0]);
      ClampedBelow(base, next, rest[1..]);
      if rest[0] == ".." {
        assert (base + names)[..|base + names| - 1] == base + next;
      } else if rest[0] != "" && rest[0] != "." {
        assert base + names + [rest[0]] == base + next;
      }
    }
  }

  lemma {:induction false} ClampedUp(base: seq<string>, rest: seq<string>)
    ensures var (u, n) := Climb([], rest); WalkClamped(PushClamped(base, ".."), rest) == From(base, u + 1, n)
    decreases |rest|, 1
  {
    var up := PushClamped(base, "..");
    ClampedBelow(up, [], rest);
    assert up + [] == up;
    var u := Climb([], rest).0;
    if u + 1 <= |base| {
      assert up[..|up| - u] == base[..|base| - (u + 1)];
    }
  }

  /** A path under the temporary directory, as `mkdir` is given it. */
  function Under(tmp: string, rel: string): string {
    tmp + ([SEP] + rel)
  }

  lemma UnderLands(tmp: string, rel: string)
    requires CanonicalBase(tmp)
    ensures var (u, n) := Climb([], Split(rel, SEP));
            var b := BaseParts(tmp);
            && Lands(Under(tmp, rel)) == From(b, u, n)
            && Walk([], Split(Under(tmp, rel), SEP)) == if u <= |b| then Some(From(b, u, n)) else None
  {
    var b, rest := BaseParts(tmp), Split(rel, SEP);
    BaseWalk(tmp);
    assert tmp + [SEP] + rel == Under(tmp, rel);
    SplitAtSeparator(tmp, rel, SEP);
    WalkConcat([], Split(tmp, SEP), rest);
    ClampedConcat([], Split(tmp, SEP), rest);
    WalkBelow(b, [], rest);
    ClampedBelow(b, [], rest);
    assert b + [] == b;
  }

  lemma {:induction false} ClampedConcat(parts: seq<string>, a: seq<string>, b: seq<string>)
    requires Walk(parts, a).Some?
    ensures WalkClamped(parts, a + b) == WalkClamped(Walk(parts, a).value, b)
    decreases |a|
  {
    if a == [] {
      assert a + b == b;
    } else {
      assert (a + b)[1..] == a[1..] + b;
      ClampedConcat(Push(parts, a[0]).value, a[1..], b);
    }
  }

  /** Climbing to the root of the host and coming all the way back counts as well. */
  predicate Returning(b: seq<string>, rel: string) {
    var (u, n) := Climb([], Split(rel, SEP));
    if u <= |b| then b[|b| - u..] <= n else b <= n
  }

  /**
   The directory lies inside the temporary one if and only if the account's root leads
   back through what it climbs out of; the unclamped reading differs only beyond the
   root of the host.
   */
  lemma MadeInsideExactly(tmp: string, rel: string)
    requires CanonicalBase(tmp)
    ensures Inside(tmp, Lands(Under(tmp, rel))) <==> Returning(BaseParts(tmp), rel)
    ensures var (u, n) := Climb([], Split(rel, SEP));
            var walked := Walk([], Split(Under(tmp, rel), SEP));
            walked.Some? && Inside(tmp, walked.value) <==> Returns(BaseParts(tmp), u, n)
  {
    var (u, n) := Climb([], Split(rel, SEP));
    UnderLands(tmp, rel);
    if u <= |BaseParts(tmp)| {
      InsideFrom(BaseParts(tmp), u, n);
    }
  }

  /** A root such as `../x` makes a directory beside the temporary one. */
  lemma MadeBeside(tmp: string, x: string)
    requires CanonicalBase(tmp) && BaseParts(tmp) != [] && Plain(x) && '\\' !in x
    ensures var b := BaseParts(tmp);
            && Lands(Under(tmp, ".." + ([SEP] + x))) == b[..|b| - 1] + [x]
            && (Inside(tmp, Lands(Under(tmp, ".." + ([SEP] + x)))) <==> x == Last(b))
  {
    var b := BaseParts(tmp);
    OneUp(x);
    UnderLands(tmp, ".." + ([SEP] + x));
    assert b == b[..|b| - 1] + [Last(b)];
    assert b <= b[..|b| - 1] + [x] ==> (b[..|b| - 1] + [x])[|b| - 1] == b[|b| - 1];
  }
}
