/**
 `detail::thread_group`: the list of worker threads a server has started and not yet
 joined. A thread is named by the number of its `std::thread`; joining is recorded in
 the order in which it happens.
 */
module ThreadGroup {
  import opened Sequences

  type Thread = nat

  /**
   The elements whose flag is down, in order. `raised[i]` is what the visit of entry i
   reads: a flag may rise while the loop is running, so the readings are arbitrary.
   */
  function Unfinished(threads: seq<Thread>, raised: seq<bool>): seq<Thread>
    requires |raised| == |threads|
  {
    if threads == [] then []
    else (if raised[0] then [] else [threads[0]]) + Unfinished(threads[1..], raised[1..])
  }

  function Finished(threads: seq<Thread>, raised: seq<bool>): seq<Thread>
    requires |raised| == |threads|
  {
    if threads == [] then []
    else (if raised[0] then [threads[0]] else []) + Finished(threads[1..], raised[1..])
  }

  class Group {
    var threads: seq<Thread>
    var joined: seq<Thread>  // the threads that have been joined so far

    constructor ()
      ensures threads == [] && joined == []
    {
      threads, joined := [], [];
    }

    method Add(t: Thread)
      modifies this`threads
      ensures threads == old(threads) + [t]
    {
      threads := threads + [t];
    }

    /** The iterator loop, erasing in place: after an erase the iterator stays where it is. */
    method JoinFinished(raised: seq<bool>)
      requires |raised| == |threads|
      modifies this
      ensures threads == Unfinished(old(threads), raised)
      ensures joined == old(joined) + Finished(old(threads), raised)
    {
      var it := 0;
      var visited := 0;
      while it < |threads|
        invariant 0 <= it <= |threads| && 0 <= visited <= |raised|
        invariant |threads| - it == |raised| - visited
        invariant threads[it..] == old(threads)[visited..]
        invariant Unfinished(old(threads), raised) ==
                  threads[..it] + Unfinished(old(threads)[visited..], raised[visited..])
        invariant old(joined) + Finished(old(threads), raised) ==
                  joined + Finished(old(threads)[visited..], raised[visited..])
        decreases |raised| - visited
      {
        ghost var rest, readings := old(threads)[visited..], raised[visited..];
        assert threads[it] == rest[0] && raised[visited] == readings[0];
        assert rest[1..] == old(threads)[visited + 1..] && readings[1..] == raised[visited + 1..];
        var kept, later := threads[..it], threads[it + 1..];
        assert threads[it..][1..] == later == rest[1..];
        if raised[visited] {
          ConcatAssociative(joined, [threads[it]], Finished(rest[1..], readings[1..]));
          joined := joined + [threads[it]];
          threads := kept + later;
          assert threads[..it] == kept && threads[it..] == later;
        } else {
          ConcatAssociative(kept, [threads[it]], Unfinished(rest[1..], readings[1..]));
          assert threads[..it + 1] == kept + [threads[it]];
          it := it + 1;
        }
        visited := visited + 1;
      }
      assert threads[..it] == threads;
    }

    method JoinAll()
      modifies this
      ensures threads == [] && joined == old(joined) + old(threads)
    {
      var i := 0;
      while i < |threads|
        invariant 0 <= i <= |threads| && threads == old(threads)
        invariant joined == old(joined) + threads[..i]
      {
        joined := joined + [threads[i]];
        i := i + 1;
      }
      threads := [];
    }
  }

  // ---------- runs ----------

  /** `JoinFinished` comes with what the flags read; the entries beyond the readings read false. */
  datatype Op = Add(t: Thread) | JoinFinished(raised: seq<bool>) | JoinAll

  datatype State = State(threads: seq<Thread>, joined: seq<Thread>)

  function Readings(raised: seq<bool>, n: nat): (r: seq<bool>)
    ensures |r| == n
  {
    seq(n, i requires 0 <= i => i < |raised| && raised[i])
  }

  function Apply(s: State, op: Op): State {
    match op
    case Add(t) => s.(threads := s.threads + [t])
    case JoinFinished(raised) =>
      var r := Readings(raised, |s.threads|);
      State(Unfinished(s.threads, r), s.joined + Finished(s.threads, r))
    case JoinAll => State([], s.joined + s.threads)
  }

  function Run(ops: seq<Op>): State {
    if ops == [] then State([], []) else Apply(Run(ops[..|ops| - 1]), ops[|ops| - 1])
  }

  function Added(ops: seq<Op>): seq<Thread> {
    if ops == [] then []
    else Added(ops[..|ops| - 1]) + (if ops[|ops| - 1].Add? then [ops[|ops| - 1].t] else [])
  }

  lemma {:induction false} SplitByFlag(threads: seq<Thread>, raised: seq<bool>)
    requires |raised| == |threads|
    ensures multiset(Unfinished(threads, raised)) + multiset(Finished(threads, raised)) == multiset(threads)
    ensures |Unfinished(threads, raised)| <= |threads|
  {
    if threads != [] {
      SplitByFlag(threads[1..], raised[1..]);
      assert threads == [threads[0]] + threads[1..];
    }
  }

  /** `join_finished` joins exactly the entries whose flag it saw raised, and no other. */
  lemma {:induction false} JoinsOnlyRaised(threads: seq<Thread>, raised: seq<bool>, t: Thread)
    requires |raised| == |threads|
    ensures t in Finished(threads, raised) <==> exists i :: 0 <= i < |threads| && threads[i] == t && raised[i]
    ensures t in Unfinished(threads, raised) <==> exists i :: 0 <= i < |threads| && threads[i] == t && !raised[i]
  {
    if threads != [] {
      JoinsOnlyRaised(threads[1..], raised[1..], t);
      forall i | 0 <= i < |threads[1..]| ensures threads[1..][i] == threads[i + 1] && raised[1..][i] == raised[i + 1] {}
      if i :| 0 <= i < |threads| && threads[i] == t && raised[i] && i > 0 {
        assert threads[1..][i - 1] == t && raised[1..][i - 1];
      }
      if i :| 0 <= i < |threads| && threads[i] == t && !raised[i] && i > 0 {
        assert threads[1..][i - 1] == t && !raised[1..][i - 1];
      }
    }
  }

  /** Whatever the calls and whenever the flags rise, every thread added is held or joined, once. */
  lemma {:induction false} Conservation(ops: seq<Op>)
    ensures multiset(Run(ops).threads) + multiset(Run(ops).joined) == multiset(Added(ops))
  {
    if ops != [] {
      Conservation(ops[..|ops| - 1]);
      var s, op := Run(ops[..|ops| - 1]), ops[|ops| - 1];
      match op {
        case Add(t) =>
        case JoinFinished(raised) => SplitByFlag(s.threads, Readings(raised, |s.threads|));
        case JoinAll =>
      }
    }
  }

  /**
   When each thread is added once: nothing is ever joined twice, and after `join_all`
   every thread added so far has been joined exactly once.
   */
  lemma JoinedOnce(ops: seq<Op>, t: Thread)
    requires multiset(Added(ops))[t] == 1
    ensures multiset(Run(ops).joined)[t] <= 1
    ensures multiset(Run(ops + [JoinAll]).joined)[t] == 1 && Run(ops + [JoinAll]).threads == []
  {
    Conservation(ops);
    assert (ops + [JoinAll])[..|ops|] == ops;
    assert multiset(Run(ops).threads)[t] + multiset(Run(ops).joined)[t] == 1;
  }

  /** The threads still held are in the order in which they were added. */
  ghost predicate InOrder(held: seq<Thread>, added: seq<Thread>, at: seq<nat>) {
    && |at| == |held|
    && (forall i :: 0 <= i < |held| ==> at[i] < |added| && added[at[i]] == held[i])
    && (forall i, j :: 0 <= i < j < |held| ==> at[i] < at[j])
  }

  /** The places, in the list, of the entries that are kept. */
  function Kept(raised: seq<bool>): seq<nat> {
    if raised == [] then []
    else
      var n := |raised| - 1;
      Kept(raised[..n]) + (if raised[n] then [] else [n])
  }

  lemma {:induction false} UnfinishedSnoc(threads: seq<Thread>, raised: seq<bool>)
    requires |raised| == |threads| > 0
    ensures var n := |threads| - 1;
            Unfinished(threads, raised) ==
            Unfinished(threads[..n], raised[..n]) + (if raised[n] then [] else [threads[n]])
  {
    var n := |threads| - 1;
    if n > 0 {
      UnfinishedSnoc(threads[1..], raised[1..]);
      assert threads[1..][..n - 1] == threads[..n][1..] && raised[1..][..n - 1] == raised[..n][1..];
    }
  }

  lemma {:induction false} KeptInOrder(threads: seq<Thread>, raised: seq<bool>)
    requires |raised| == |threads|
    ensures InOrder(Unfinished(threads, raised), threads, Kept(raised))
  {
    if threads != [] {
      var n := |threads| - 1;
      KeptInOrder(threads[..n], raised[..n]);
      UnfinishedSnoc(threads, raised);
    }
  }

  lemma {:induction false} OrderKept(ops: seq<Op>) returns (at: seq<nat>)
    ensures InOrder(Run(ops).threads, Added(ops), at)
  {
    if ops == [] {
      return [];
    }
    var before := OrderKept(ops[..|ops| - 1]);
    var s, op := Run(ops[..|ops| - 1]), ops[|ops| - 1];
    match op {
      case Add(t) => at := before + [|Added(ops[..|ops| - 1])|];
      case JoinFinished(raised) =>
        var r := Readings(raised, |s.threads|);
        KeptInOrder(s.threads, r);
        at := seq(|Kept(r)|, i requires 0 <= i < |Kept(r)| => before[Kept(r)[i]]);
      case JoinAll => at := [];
    }
  }
}
