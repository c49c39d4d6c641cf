/**
 Sequence vocabulary shared by the MQTT and the FTP models: concatenation of lists of
 sequences, and the splitting of a string at a separator, which both `split_topic`
 and the two FTP path normalisers do with the same character loop.
 */
module Sequences {

  datatype Option<+T> = None | Some(value: T)

  /** The sequences of `ss`, one after the other. */
  function Flatten<T>(ss: seq<seq<T>>): seq<T> {
    if ss == [] then [] else ss[0] + Flatten(ss[1..])
  }

  predicate Distinct<T(==)>(xs: seq<T>) {
    forall i, j :: 0 <= i < j < |xs| ==> xs[i] != xs[j]
  }

  lemma ConcatAssociative<T>(a: seq<T>, b: seq<T>, c: seq<T>)
    ensures a + (b + c) == a + b + c
  {
  }

  lemma {:induction false} FlattenConcat<T>(a: seq<seq<T>>, b: seq<seq<T>>)
    ensures Flatten(a + b) == Flatten(a) + Flatten(b)
  {
    if a == [] {
      assert a + b == b;
    } else {
      assert (a + b)[1..] == a[1..] + b;
      FlattenConcat(a[1..], b);
    }
  }

  lemma FlattenSingle<T>(s: seq<T>)
    ensures Flatten([s]) == s
  {
    assert [s][1..] == [];
  }

  /** The maximal separator-free pieces of `s`; an empty string has one empty piece. */
  function Split<T(==)>(s: seq<T>, sep: T): (parts: seq<seq<T>>)
    ensures |parts| >= 1
    ensures forall i :: 0 <= i < |parts| ==> sep !in parts[i]
  {
    if s == [] then [[]]
    else
      var rest := Split(s[1..], sep);
      if s[0] == sep then [[]] + rest else [[s[0]] + rest[0]] + rest[1..]
  }

  /** The pieces with the separator between neighbours; no pieces give the empty string. */
  function Join<T>(parts: seq<seq<T>>, sep: T): seq<T> {
    if parts == [] then []
    else if |parts| == 1 then parts[0]
    else parts[0] + [sep] + Join(parts[1..], sep)
  }

  lemma {:induction false} JoinSplit<T>(s: seq<T>, sep: T)
    ensures Join(Split(s, sep), sep) == s
  {
    if s != [] {
      JoinSplit(s[1..], sep);
      var rest := Split(s[1..], sep);
      var parts := Split(s, sep);
      if s[0] == sep {
        assert parts[1..] == rest;
        assert Join(parts, sep) == [] + [sep] + Join(rest, sep);
      } else {
        assert parts[1..] == rest[1..];
        assert Join(parts, sep) == [s[0]] + Join(rest, sep);
      }
    }
  }

  /** Splitting loses nothing: equal pieces come from equal strings. */
  lemma SplitInjective<T>(s: seq<T>, t: seq<T>, sep: T)
    requires Split(s, sep) == Split(t, sep)
    ensures s == t
  {
    JoinSplit(s, sep);
    JoinSplit(t, sep);
  }

  lemma {:induction false} SplitAtSeparator<T>(a: seq<T>, b: seq<T>, sep: T)
    ensures Split(a + [sep] + b, sep) == Split(a, sep) + Split(b, sep)
  {
    if a == [] {
      assert a + [sep] + b == [sep] + b;
      assert ([sep] + b)[1..] == b;
    } else {
      var whole, rest, tail := a + [sep] + b, Split(a[1..], sep), Split(b, sep);
      SplitAtSeparator(a[1..], b, sep);
      assert whole[0] == a[0] && whole[1..] == a[1..] + [sep] + b;
      if a[0] == sep {
        ConcatAssociative([[]], rest, tail);
      } else {
        HeadExtended(a[0], rest, tail);
      }
    }
  }

  lemma HeadExtended<T>(first: T, rest: seq<seq<T>>, tail: seq<seq<T>>)
    requires rest != []
    ensures var all := rest + tail;
            [[first] + all[0]] + all[1..] == [[first] + rest[0]] + rest[1..] + tail
  {
    assert (rest + tail)[1..] == rest[1..] + tail;
    ConcatAssociative([[first] + rest[0]], rest[1..], tail);
  }

  lemma {:induction false} SplitPlain<T>(s: seq<T>, sep: T)
    requires sep !in s
    ensures Split(s, sep) == [s]
  {
    if s != [] {
      SplitPlain(s[1..], sep);
      assert [s[0]] + s[1..] == s;
    }
  }

  lemma {:induction false} SplitJoin<T>(parts: seq<seq<T>>, sep: T)
    requires parts != []
    requires forall i :: 0 <= i < |parts| ==> sep !in parts[i]
    ensures Split(Join(parts, sep), sep) == parts
  {
    SplitPlain(parts[0], sep);
    if |parts| > 1 {
      SplitJoin(parts[1..], sep);
      SplitAtSeparator(parts[0], Join(parts[1..], sep), sep);
    } else {
      assert parts == [parts[0]];
    }
  }

  /** The pieces after one more character: a new piece after a separator, a longer last one otherwise. */
  function Extended<T(==)>(parts: seq<seq<T>>, c: T, sep: T): seq<seq<T>>
    requires parts != []
  {
    var n := |parts| - 1;
    if c == sep then parts + [[]] else parts[..n] + [parts[n] + [c]]
  }

  /** Splitting follows a left-to-right scan. */
  lemma {:induction false} SplitSnoc<T>(s: seq<T>, c: T, sep: T)
    ensures Split(s + [c], sep) == Extended(Split(s, sep), c, sep)
  {
    if c == sep {
      SplitAtSeparator(s, [], sep);
      assert s + [c] == s + [sep] + [];
    } else if s == [] {
      SplitPlain([c], sep);
      assert s + [c] == [c];
    } else {
      SplitSnoc(s[1..], c, sep);
      assert (s + [c])[0] == s[0] && (s + [c])[1..] == s[1..] + [c];
      ExtendedBehind(s[0], Split(s[1..], sep), c, sep);
    }
  }

  /** Extending at the end and putting a character or an empty piece in front do not interfere. */
  lemma ExtendedBehind<T>(first: T, rest: seq<seq<T>>, c: T, sep: T)
    requires rest != [] && c != sep
    ensures var longer := Extended(rest, c, sep);
            && Extended([[]] + rest, c, sep) == [[]] + longer
            && Extended([[first] + rest[0]] + rest[1..], c, sep) == [[first] + longer[0]] + longer[1..]
  {
    var n := |rest| - 1;
    var longer := Extended(rest, c, sep);
    assert ([[]] + rest)[..n + 1] == [[]] + rest[..n];
    if n == 0 {
      assert longer == [rest[0] + [c]] && rest[1..] == [];
      ConcatAssociative([first], rest[0], [c]);
    } else {
      var parts := [[first] + rest[0]] + rest[1..];
      assert longer[0] == rest[0] && longer[1..] == rest[1..n] + [rest[n] + [c]];
      assert parts[..n] == [[first] + rest[0]] + rest[1..n] && parts[n] == rest[n];
    }
  }
}
