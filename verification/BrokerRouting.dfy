/**
 The snapshot with which a PUBLISH is routed is the session map at that step of the run;
 with distinct ids it says who has subscribed by then.
 */
module BrokerRouting {
  import opened Packets
  import opened Framing
  import opened Topics
  import opened Broker
  import opened BrokerRuns
  import opened BrokerInvariants
  import opened BrokerDelivery
  import opened BrokerTheorems
  import opened BrokerOwnership

  /** Step i of the run routes PUBLISH n of handler k, and snap is what it sees. */
  predicate RoutedAt(acts: seq<Action>, i: nat, k: Sock, n: nat, snap: Snap)
    requires i < |acts|
  {
    && Exec(acts[..i]).Some?
    && var s := Exec(acts[..i]).value;
       && acts[i] == Client(k, Route(snap.order)) && HandlerEnabled(s, k, Route(snap.order))
       && Current(s.handlers[k]) == n && snap.m == s.handlers[k].pc.m && snap.sessions == s.sessions
  }

  lemma RoutedFront(acts: seq<Action>, i: nat, k: Sock, n: nat, snap: Snap)
    requires i < |acts| - 1 && RoutedAt(acts[..|acts| - 1], i, k, n, snap)
    ensures RoutedAt(acts, i, k, n, snap)
  {
    assert acts[..i] == acts[..|acts| - 1][..i];
  }

  lemma SnapsAfter(s: State, a: Action, k: Sock, n: nat)
    requires Enabled(s, a) && (k, n) in Next(s, a).snaps
    ensures var snap := Next(s, a).snaps[(k, n)];
            || ((k, n) in s.snaps && snap == s.snaps[(k, n)])
            || (a == Client(k, Route(snap.order)) && Current(s.handlers[k]) == n
                && snap.m == s.handlers[k].pc.m && snap.sessions == s.sessions)
  {
    match a {
      case Server(step) => assert Next(s, a).snaps == s.snaps;
      case Client(j, c) =>
        if c.Route? {
          SnapsAfterRoute(s, j, c.order, k, n);
        } else {
          HandlerFrame(s, j, c);
        }
    }
  }

  lemma SnapsAfterRoute(s: State, j: Sock, order: seq<Id>, k: Sock, n: nat)
    requires HandlerEnabled(s, j, Route(order)) && (k, n) in HandlerNext(s, j, Route(order)).snaps
    ensures var snap := HandlerNext(s, j, Route(order)).snaps[(k, n)];
            || ((k, n) in s.snaps && snap == s.snaps[(k, n)])
            || (j == k && snap.order == order && Current(s.handlers[k]) == n
                && snap.m == s.handlers[k].pc.m && snap.sessions == s.sessions)
  {
    hide Current, Sockets;
  }

  /** Every remembered snapshot is the session map at the step that routed the message. */
  lemma {:induction false} SnapshotOfTheRun(acts: seq<Action>, s: State, k: Sock, n: nat) returns (i: nat)
    requires Reaches(acts, s) && (k, n) in s.snaps
    ensures i < |acts| && RoutedAt(acts, i, k, n, s.snaps[(k, n)])
  {
    var last := |acts| - 1;
    var before, snap := Exec(acts[..last]).value, s.snaps[(k, n)];
    SnapsAfter(before, acts[last], k, n);
    if (k, n) in before.snaps && snap == before.snaps[(k, n)] {
      i := SnapshotOfTheRun(acts[..last], before, k, n);
      RoutedFront(acts, i, k, n, snap);
    } else {
      i := last;
    }
  }

  lemma {:induction false} DistinctFront(acts: seq<Action>, s: State, i: nat)
    requires DistinctRun(acts, s) && i <= |acts|
    ensures Exec(acts[..i]).Some? && DistinctRun(acts[..i], Exec(acts[..i]).value)
  {
    if i < |acts| {
      DistinctFront(acts[..|acts| - 1], Exec(acts[..|acts| - 1]).value, i);
      assert acts[..|acts| - 1][..i] == acts[..i];
    } else {
      assert acts[..i] == acts;
    }
  }

  /** At step i of the run t had a session and had itself asked for a filter that matches. */
  ghost predicate SubscribedAt(acts: seq<Action>, i: nat, t: Sock, topic: bytes)
    requires i <= |acts|
  {
    && Exec(acts[..i]).Some?
    && var s := Exec(acts[..i]).value;
       HasSession(s, t) && AskedFor(s.handlers[t], topic)
  }

  /** The packet is a well-formed SUBSCRIBE, and one of its filters matches the topic. */
  ghost predicate Asks(p: Packet, topic: bytes) {
    && p.kind == 8 && DecodeSubscribe(p.body).Some?
    && var entries := DecodeSubscribe(p.body).value.entries;
       exists j :: 0 <= j < |entries| && Matches(entries[j].filter, topic)
  }

  ghost predicate Among(filters: seq<bytes>, topic: bytes) {
    exists i :: 0 <= i < |filters| && Matches(filters[i], topic)
  }

  lemma AmongConcat(a: seq<bytes>, b: seq<bytes>, topic: bytes)
    ensures Among(a + b, topic) <==> Among(a, topic) || Among(b, topic)
  {
    var all := a + b;
    if i :| 0 <= i < |a| && Matches(a[i], topic) {
      assert all[i] == a[i];
    }
    if i :| 0 <= i < |b| && Matches(b[i], topic) {
      assert all[|a| + i] == b[i];
    }
  }

  lemma FiltersAsk(p: Packet, topic: bytes)
    ensures Among(FiltersOf(p), topic) <==> Asks(p, topic)
  {
    hide Matches;
    if p.kind == 8 && DecodeSubscribe(p.body).Some? {
      var entries, filters := DecodeSubscribe(p.body).value.entries, FiltersOf(p);
      assert |filters| == |entries| && forall j :: 0 <= j < |filters| ==> filters[j] == entries[j].filter;
    }
  }

  /** The filters requested are those of the entries of the SUBSCRIBE packets read, and no others. */
  lemma {:induction false} RequestedMeans(read: seq<Packet>, topic: bytes)
    ensures Among(Requested(read), topic) <==> exists i :: 0 <= i < |read| && Asks(read[i], topic)
  {
    if read != [] {
      var n := |read| - 1;
      var before, p := read[..n], read[n];
      assert read == before + [p];
      RequestedMeans(before, topic);
      ReadSnoc(before, p);
      AmongConcat(Requested(before), FiltersOf(p), topic);
      FiltersAsk(p, topic);
      hide Requested, Asks, Among;
      assert forall i :: 0 <= i < n ==> read[i] == before[i];
    }
  }

  /**
   A client has asked for a topic if and only if a filter in a SUBSCRIBE packet that it has
   sent, and whose filters have been entered, matches the topic: all that were read, but
   for the last packet while that is still to be entered.
   */
  lemma AskedForMeans(h: Handler, topic: bytes)
    requires PcOk(h)
    ensures var n := |h.read| - (if h.pc.Subscribing? then 1 else 0);
            AskedFor(h, topic) <==> exists i :: 0 <= i < n && Asks(h.read[i], topic)
  {
    var front := h.read[..|h.read| - (if h.pc.Subscribing? then 1 else 0)];
    EnteredIs(h, front);
    RequestedMeans(front, topic);
    assert AskedFor(h, topic) == Among(Requested(front), topic);
    hide Requested, Entered, Asks;
    assert forall i :: 0 <= i < |front| ==> front[i] == h.read[i];
  }

  lemma EnteredIs(h: Handler, front: seq<Packet>)
    requires PcOk(h) && front == h.read[..|h.read| - (if h.pc.Subscribing? then 1 else 0)]
    ensures Entered(h) == Requested(front)
  {
    if h.pc.Subscribing? {
      var p := h.read[|h.read| - 1];
      ReadSnoc(front, p);
      assert h.read == front + [p];
      var all, last := Requested(h.read), |FiltersOf(p)|;
      assert all[..|all| - last] == Requested(front);
    } else {
      assert front == h.read;
      assert Entered(h) == Requested(h.read)[..|Requested(h.read)|];
    }
  }

  /**
   Delivery in terms of what the clients have done. In a run without duplicate ids a
   PUBLISH is routed at one step; when its send to t is neither pending nor has failed,
   t decodes it at exactly one place if t had a session at that step and had itself asked
   for a filter that matches, and nowhere otherwise.
   */
  lemma SubscribersGetIt(acts: seq<Action>, s: State, k: Sock, n: nat, t: Sock)
    returns (i: nat, got: seq<Message>, origins: seq<(Sock, nat)>)
    requires DistinctRun(acts, s) && (k, n) in s.snaps && (k, n, t) !in s.lost && !Pending(s, k, n, t)
    ensures i < |acts| && RoutedAt(acts, i, k, n, s.snaps[(k, n)])
    ensures Decodes(s, Box(s.outbox, t), got, origins)
    ensures if SubscribedAt(acts, i, t, s.snaps[(k, n)].m.topic)
            then exists p :: OnlyAt(s, k, n, got, origins, p)
            else (k, n) !in origins
  {
    hide Decodes, OnlyAt, DistinctRun;
    var snap := s.snaps[(k, n)];
    DistinctIsRun(acts, s);
    i := SnapshotOfTheRun(acts, s, k, n);
    DistinctFront(acts, s, i);
    var at := Exec(acts[..i]).value;
    TargetsAreTheSubscribers(acts[..i], at, snap.m.topic, snap.order, t);
    SelectsSocket(snap.sessions, snap.m.topic, snap.order, t);
    got, origins := DecodedOnce(acts, s, k, n, t);
  }
}
