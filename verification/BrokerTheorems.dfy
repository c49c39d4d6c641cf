/**
 The MQTT server over whole runs: every schedule of handlers, acceptor and API calls.
 */
module BrokerTheorems {
  import opened RemainingLength
  import opened Packets
  import opened Framing
  import opened Broker
  import opened BrokerRuns
  import opened BrokerInvariants
  import opened BrokerDelivery

  ghost predicate Basics(s: State) {
    Threads(s) && SessionsHeld(s) && SocketsOpen(s) && Reads(s) && LogOk(s) && LogComplete(s)
  }

  lemma BasicsStep(s: State, a: Action)
    requires Basics(s) && Enabled(s, a)
    ensures Basics(Next(s, a))
  {
    match a {
      case Server(step) =>
        ThreadsServer(s, step);
        SessionsServer(s, step);
        ReadsServer(s, step);
        LogServer(s, step);
      case Client(k, c) =>
        ThreadsHandler(s, k, c);
        SessionsHandler(s, k, c);
        ReadsHandler(s, k, c);
        LogHandler(s, k, c);
    }
  }

  lemma DeliveriesStep(s: State, a: Action)
    requires Basics(s) && Deliveries(s) && Enabled(s, a)
    ensures Deliveries(Next(s, a))
  {
    match a {
      case Server(step) => DeliveriesServer(s, step);
      case Client(k, c) => DeliveriesHandler(s, k, c);
    }
  }

  lemma {:induction false} EveryRun(acts: seq<Action>, s: State)
    requires Reaches(acts, s)
    ensures Basics(s) && Deliveries(s)
  {
    if acts != [] {
      var before := Exec(acts[..|acts| - 1]).value;
      EveryRun(acts[..|acts| - 1], before);
      BasicsStep(before, acts[|acts| - 1]);
      DeliveriesStep(before, acts[|acts| - 1]);
    }
  }

  // ---------- stop ----------

  /**
   Whenever `stop` has returned (or `start` was never called), whatever the client ids
   and the schedule: no session is left, every handler has finished, and every socket
   that was ever accepted is closed.
   */
  lemma StopLeavesNothing(acts: seq<Action>, s: State)
    requires Reaches(acts, s) && s.phase.Idle?
    ensures s.sessions == map[] && s.open == {}
    ensures forall k :: k in s.handlers ==> s.handlers[k].pc.Done?
  {
    EveryRun(acts, s);
    forall k | k in s.handlers ensures s.handlers[k].pc.Done? {}
    assert forall id :: id !in s.sessions;
  }

  /** Every key of the session map has a live handler still to run `remove_session` for it. */
  lemma EveryKeyHasALiveHandler(acts: seq<Action>, s: State, id: Id)
    requires Reaches(acts, s) && id in s.sessions
    ensures exists k ::
              && k in s.handlers && s.handlers[k].id == id && Live(s.handlers[k].pc)
              && s.sessions[id].sock == k && k in s.open
  {
    EveryRun(acts, s);
  }

  // ---------- delivery ----------

  lemma SelectsSocket(sessions: Sessions, topic: bytes, order: seq<Id>, t: Sock)
    requires Selects(sessions, topic, order)
    ensures t in Sockets(sessions, order) <==>
            exists id :: id in sessions && sessions[id].sock == t && Wants(sessions[id], topic)
  {
    if id :| id in sessions && sessions[id].sock == t && Wants(sessions[id], topic) {
      var i :| 0 <= i < |order| && order[i] == id;
      assert Sockets(sessions, order)[i] == t;
    }
  }

  /** At the locked snapshot, the session of socket t held a filter that matches. */
  ghost predicate WantedBy(snap: Snap, t: Sock) {
    exists id :: id in snap.sessions && snap.sessions[id].sock == t && Wants(snap.sessions[id], snap.m.topic)
  }

  /**
   How often PUBLISH n of handler k is due at socket t: once, if t wanted it and the
   send has been made and did not fail.
   */
  ghost function Due(s: State, k: Sock, n: nat, t: Sock): nat {
    if (k, n) in s.snaps && WantedBy(s.snaps[(k, n)], t) && (k, n, t) !in s.lost && !Pending(s, k, n, t) then 1 else 0
  }

  /**
   In every interleaving, the n-th PUBLISH of a handler, once routed, is in the box of
   socket t exactly once if t's session had a matching filter in the locked snapshot and
   the send to t has been made and did not fail; otherwise it is not there at all.
   */
  lemma ExactlyOneFrame(acts: seq<Action>, s: State, k: Sock, n: nat, t: Sock)
    requires Reaches(acts, s)
    ensures Copies(Box(s.outbox, t), k, n) == Due(s, k, n, t)
  {
    EveryRun(acts, s);
    assert FateAt(s, k, n, t) && CopiesAt(s, k, n, t);
    if (k, n) in s.snaps {
      var snap := s.snaps[(k, n)];
      assert SnapAt(s.handlers[k], n, snap);
      SelectsSocket(snap.sessions, snap.m.topic, snap.order, t);
    }
  }

  /** A PUBLISH that has not been routed is in no box. */
  lemma NothingUnrouted(acts: seq<Action>, s: State, k: Sock, n: nat, t: Sock)
    requires Reaches(acts, s) && (k, n) !in s.snaps
    ensures Copies(Box(s.outbox, t), k, n) == 0
  {
    ExactlyOneFrame(acts, s, k, n, t);
  }

  // ---------- what a subscriber decodes ----------

  function Outs(box: seq<Sent>): (outs: seq<Outgoing>)
    ensures |outs| == |box|
    ensures forall i :: 0 <= i < |box| ==> outs[i] == box[i].out
  {
    seq(|box|, i requires 0 <= i < |box| => box[i].out)
  }

  /** Which PUBLISHes the frames of a box come from. */
  function Origins(box: seq<Sent>): seq<(Sock, nat)> {
    if box == [] then []
    else
      var last := box[|box| - 1];
      var before := Origins(box[..|box| - 1]);
      if last.Forward? then before + [(last.from, last.n)] else before
  }

  ghost predicate BoxOk(s: State, box: seq<Sent>) {
    forall i :: 0 <= i < |box| ==> FrameOk(s, box[i])
  }

  lemma SeenSnoc(outs: seq<Outgoing>, o: Outgoing)
    ensures AllSeen(outs + [o]) == AllSeen(outs) + [Seen(o)]
  {
  }

  lemma SentDecodes(s: State, sent: Sent)
    requires FrameOk(s, sent)
    ensures sent.Reply? ==> PublishOf(Seen(sent.out)) == []
    ensures sent.Forward? ==> PublishOf(Seen(sent.out)) == [s.snaps[(sent.from, sent.n)].m]
  {
  }

  lemma {:induction false} DecodedOrigins(s: State, box: seq<Sent>)
    requires BoxOk(s, box)
    ensures var got, origins := Published(AllSeen(Outs(box))), Origins(box);
            && |got| == |origins|
            && forall i :: 0 <= i < |got| ==> origins[i] in s.snaps && got[i] == s.snaps[origins[i]].m
  {
    if box != [] {
      var n := |box| - 1;
      DecodedOrigins(s, box[..n]);
      assert Outs(box) == Outs(box[..n]) + [box[n].out];
      SeenSnoc(Outs(box[..n]), box[n].out);
      ReadSnoc(AllSeen(Outs(box[..n])), Seen(box[n].out));
      SentDecodes(s, box[n]);
    }
  }

  ghost predicate Occurs(box: seq<Sent>, o: (Sock, nat)) {
    exists p :: 0 <= p < |box| && box[p].Forward? && box[p].from == o.0 && box[p].n == o.1
  }

  lemma {:induction false} OriginsOccur(box: seq<Sent>, i: nat)
    requires i < |Origins(box)|
    ensures Occurs(box, Origins(box)[i])
  {
    var n := |box| - 1;
    if i < |Origins(box[..n])| {
      OriginsOccur(box[..n], i);
      var o := Origins(box)[i];
      var p :| 0 <= p < n && box[..n][p].Forward? && box[..n][p].from == o.0 && box[..n][p].n == o.1;
      assert box[p] == box[..n][p];
    } else {
      assert box[n].Forward?;
    }
  }

  lemma {:induction false} OriginsOrdered(box: seq<Sent>, i: nat, j: nat)
    requires InOrder(box) && i < j < |Origins(box)| && Origins(box)[i].0 == Origins(box)[j].0
    ensures Origins(box)[i].1 < Origins(box)[j].1
  {
    var n := |box| - 1;
    var o := Origins(box[..n]);
    if j < |o| {
      OriginsOrdered(box[..n], i, j);
    } else {
      OriginsOccur(box[..n], i);
      var p :| 0 <= p < n && box[..n][p].Forward? && box[..n][p].from == o[i].0 && box[..n][p].n == o[i].1;
      assert box[p] == box[..n][p];
    }
  }

  /** The PUBLISH named by `o` is message number o.1 of its publisher, and that message is `m`. */
  ghost predicate IsMessage(s: State, o: (Sock, nat), m: Message) {
    && o.0 in s.handlers && o.1 < |Published(s.handlers[o.0].read)|
    && m == Published(s.handlers[o.0].read)[o.1]
  }

  lemma SnapIsMessage(s: State, o: (Sock, nat))
    requires Snapshots(s) && o in s.snaps
    ensures IsMessage(s, o, s.snaps[o].m)
  {
    assert o == (o.0, o.1);
    assert SnapAt(s.handlers[o.0], o.1, s.snaps[(o.0, o.1)]);
  }

  lemma BoxDecodes(s: State, box: seq<Sent>)
    requires BoxOk(s, box)
    ensures AllPackets(Wire(Outs(box))) == AllSeen(Outs(box))
  {
    forall i | 0 <= i < |box| ensures |Outs(box)[i].payload| <= MAX_LENGTH {
      assert FrameOk(s, box[i]);
    }
    WholeStream(Outs(box));
  }

  lemma {:induction false} OriginsCount(box: seq<Sent>, k: Sock, n: nat)
    ensures multiset(Origins(box))[(k, n)] == Copies(box, k, n)
  {
    if box != [] {
      OriginsCount(box[..|box| - 1], k, n);
    }
  }

  /** `m` is message number o.1 of the bytes that publisher o.0 sends after its CONNECT. */
  ghost predicate FromStream(s: State, o: (Sock, nat), m: Message) {
    && o.0 in s.handlers && Handshake(s.handlers[o.0].stream).Some?
    && var all := Published(AllPackets(Handshake(s.handlers[o.0].stream).value.1));
       o.1 < |all| && m == all[o.1]
  }

  lemma SnapFromStream(s: State, o: (Sock, nat))
    requires Snapshots(s) && Reads(s) && o in s.snaps
    ensures FromStream(s, o, s.snaps[o].m)
  {
    SnapIsMessage(s, o);
    ReadIsPrefix(s, o.0);
  }

  /** What the messages that a box decodes to are, where they come from, and in which order. */
  ghost predicate Decodes(s: State, box: seq<Sent>, got: seq<Message>, origins: seq<(Sock, nat)>) {
    && got == Published(AllPackets(Wire(Outs(box)))) && |got| == |origins|
    && (forall i :: 0 <= i < |got| ==> FromStream(s, origins[i], got[i]))
    && (forall i, j :: 0 <= i < j < |got| && origins[i].0 == origins[j].0 ==> origins[i].1 < origins[j].1)
  }

  lemma BoxOrigins(s: State, box: seq<Sent>)
    requires Snapshots(s) && Reads(s) && InOrder(box) && BoxOk(s, box)
    ensures Decodes(s, box, Published(AllPackets(Wire(Outs(box)))), Origins(box))
  {
    BoxDecodes(s, box);
    DecodedOrigins(s, box);
    forall i, j | 0 <= i < j < |Origins(box)| && Origins(box)[i].0 == Origins(box)[j].0
      ensures Origins(box)[i].1 < Origins(box)[j].1
    {
      OriginsOrdered(box, i, j);
    }
    forall i | 0 <= i < |Origins(box)| ensures FromStream(s, Origins(box)[i], s.snaps[Origins(box)[i]].m) {
      SnapFromStream(s, Origins(box)[i]);
    }
  }

  /**
   End to end, from the publishers' bytes to the subscriber's: parsing everything that
   was sent to t gives messages that can be told apart by publisher and number, such that
   each is the message of that number in that publisher's byte stream, those of one
   publisher come in the order in which it sent them, and message n of publisher k is
   among them exactly as often as it is due: once if t's session had a matching filter in
   the locked snapshot with which it was routed and the send was made and did not fail,
   and not at all otherwise.
   */
  lemma SubscriberDecodes(acts: seq<Action>, s: State, t: Sock) returns (got: seq<Message>, origins: seq<(Sock, nat)>)
    requires Reaches(acts, s)
    ensures Decodes(s, Box(s.outbox, t), got, origins)
    ensures forall k: Sock, n: nat :: multiset(origins)[(k, n)] == Due(s, k, n, t)
  {
    EveryRun(acts, s);
    var box := Box(s.outbox, t);
    DeliveredBox(s, t);
    BoxOrigins(s, box);
    got, origins := Published(AllPackets(Wire(Outs(box)))), Origins(box);
    forall k: Sock, n: nat ensures multiset(origins)[(k, n)] == Due(s, k, n, t) {
      OriginsCount(box, k, n);
      ExactlyOneFrame(acts, s, k, n, t);
    }
  }

  /** Place i is where message n of publisher k is, and it is nowhere else. */
  ghost predicate OnlyAt(s: State, k: Sock, n: nat, got: seq<Message>, origins: seq<(Sock, nat)>, i: nat) {
    OnceAt(origins, (k, n), i) && i < |got| && FromStream(s, (k, n), got[i])
  }

  predicate OnceAt<T(==)>(xs: seq<T>, x: T, i: nat) {
    i < |xs| && xs[i] == x && forall j :: 0 <= j < |xs| && xs[j] == x ==> j == i
  }

  lemma {:induction false} OnceInSequence<T>(xs: seq<T>, x: T) returns (i: nat)
    ensures multiset(xs)[x] == 0 <==> x !in xs
    ensures multiset(xs)[x] == 1 ==> OnceAt(xs, x, i)
  {
    i := 0;
    if xs != [] {
      var n := |xs| - 1;
      assert xs == xs[..n] + [xs[n]];
      i := OnceInSequence(xs[..n], x);
      assert forall j :: 0 <= j < n ==> xs[j] == xs[..n][j];
      if xs[n] == x {
        i := n;
      }
    }
  }

  /**
   One message and one subscriber, once the sends of the message are done: decoded
   exactly once if wanted, otherwise not at all.
   */
  lemma DecodedOnce(acts: seq<Action>, s: State, k: Sock, n: nat, t: Sock)
      returns (got: seq<Message>, origins: seq<(Sock, nat)>)
    requires Reaches(acts, s) && (k, n) in s.snaps && (k, n, t) !in s.lost && !Pending(s, k, n, t)
    ensures Decodes(s, Box(s.outbox, t), got, origins)
    ensures if WantedBy(s.snaps[(k, n)], t) then exists i :: OnlyAt(s, k, n, got, origins, i) else (k, n) !in origins
  {
    hide Reaches, Decodes, OnlyAt;
    got, origins := SubscriberDecodes(acts, s, t);
    assert multiset(origins)[(k, n)] == Due(s, k, n, t);
    FoundOnce(s, Box(s.outbox, t), got, origins, k, n);
  }

  lemma FoundOnce(s: State, box: seq<Sent>, got: seq<Message>, origins: seq<(Sock, nat)>, k: Sock, n: nat)
    requires Decodes(s, box, got, origins)
    ensures multiset(origins)[(k, n)] == 0 ==> (k, n) !in origins
    ensures multiset(origins)[(k, n)] == 1 ==> exists i :: OnlyAt(s, k, n, got, origins, i)
  {
    var i := OnceInSequence(origins, (k, n));
    assert multiset(origins)[(k, n)] == 1 ==> OnlyAt(s, k, n, got, origins, i);
  }

  lemma DeliveredBox(s: State, t: Sock)
    requires Deliveries(s)
    ensures InOrder(Box(s.outbox, t)) && BoxOk(s, Box(s.outbox, t))
  {
  }

  // ---------- the history ----------

  lemma {:induction false} PublishedPrefix(read: seq<Packet>, more: seq<Packet>)
    ensures Published(read) <= Published(read + more)
  {
    if more == [] {
      assert read + more == read;
    } else {
      var n := |more| - 1;
      PublishedPrefix(read, more[..n]);
      assert (read + more)[..|read + more| - 1] == read + more[..n];
    }
  }

  lemma {:induction false} NumbersConcat(a: seq<Recorded>, b: seq<Recorded>, k: Sock)
    ensures Numbers(a + b, k) == Numbers(a, k) + Numbers(b, k)
  {
    if b == [] {
      assert a + b == a;
    } else {
      var n := |b| - 1;
      NumbersConcat(a, b[..n], k);
      assert (a + b)[..|a + b| - 1] == a + b[..n];
    }
  }

  /**
   The history since the last clear is the recent end of everything recorded; what it
   holds of one publisher are consecutive messages, in its order, up to its last one.
   */
  lemma HistoryKeepsOrder(acts: seq<Action>, s: State, k: Sock)
    requires Reaches(acts, s) && k in s.handlers
    ensures s.cleared <= |s.log| && s.history == Messages(s.log[s.cleared..])
    ensures |Numbers(s.log[..s.cleared], k)| <= RecordedCount(s.handlers[k])
    ensures Numbers(s.log[s.cleared..], k) == UpTo(RecordedCount(s.handlers[k]))[|Numbers(s.log[..s.cleared], k)|..]
  {
    EveryRun(acts, s);
    var before, since := s.log[..s.cleared], s.log[s.cleared..];
    assert s.log == before + since;
    NumbersConcat(before, since, k);
    assert Numbers(s.log, k) == UpTo(RecordedCount(s.handlers[k]));
  }

  /** Every entry of the history is the message of that number in its publisher's own byte stream. */
  lemma HistoryIsGenuine(acts: seq<Action>, s: State, i: nat)
    requires Reaches(acts, s) && i < |s.log|
    ensures var e := s.log[i];
            && e.from in s.handlers && Handshake(s.handlers[e.from].stream).Some?
            && var all := Published(AllPackets(Handshake(s.handlers[e.from].stream).value.1));
               e.n < |all| && e.m == all[e.n]
  {
    EveryRun(acts, s);
    ReadIsPrefix(s, s.log[i].from);
  }

  lemma ReadIsPrefix(s: State, k: Sock)
    requires Reads(s) && k in s.handlers && s.handlers[k].read != []
    ensures Handshake(s.handlers[k].stream).Some?
    ensures Published(s.handlers[k].read) <= Published(AllPackets(Handshake(s.handlers[k].stream).value.1))
  {
    PublishedPrefix(s.handlers[k].read, AllPackets(s.handlers[k].inbound));
  }
}
