/**
 The fate of every PUBLISH in every interleaving: one locked snapshot decides who gets
 it, and each of those gets it once or the send to it failed.
 */
module BrokerDelivery {
  import opened Sequences
  import opened RemainingLength
  import opened Packets
  import opened Framing
  import opened Broker
  import opened BrokerRuns
  import opened BrokerInvariants

  // ---------- snapshots ----------

  ghost predicate SnapAt(h: Handler, n: nat, snap: Snap) {
    && n < RoutedCount(h) && snap.m == Published(h.read)[n]
    && Selects(snap.sessions, snap.m.topic, snap.order)
    && snap.targets == Sockets(snap.sessions, snap.order)
    && Distinct(snap.targets)
  }

  /** The PUBLISHes that have been routed are exactly those with a snapshot. */
  ghost predicate Snapshots(s: State) {
    && (forall k: Sock, n: nat :: (k, n) in s.snaps ==> k in s.handlers && SnapAt(s.handlers[k], n, s.snaps[(k, n)]))
    && (forall k: Sock, n: nat :: k in s.handlers && n < RoutedCount(s.handlers[k]) ==> (k, n) in s.snaps)
  }

  lemma SnapshotsServer(s: State, step: ServerStep)
    requires Snapshots(s) && ServerEnabled(s, step)
    ensures Snapshots(ServerNext(s, step))
  {
    if step.Accept? {
      assert forall n: nat :: (step.sock, n) !in s.snaps;
      assert RoutedCount(ServerNext(s, step).handlers[step.sock]) == 0;
    }
  }

  lemma SnapshotsFrame(s: State, s': State, k: Sock)
    requires Snapshots(s) && k in s.handlers && k in s'.handlers && s'.handlers == s.handlers[k := s'.handlers[k]]
    requires s'.snaps == s.snaps
    requires Published(s.handlers[k].read) <= Published(s'.handlers[k].read)
    requires RoutedCount(s'.handlers[k]) == RoutedCount(s.handlers[k])
    ensures Snapshots(s')
  {
    forall n: nat | (k, n) in s'.snaps ensures SnapAt(s'.handlers[k], n, s'.snaps[(k, n)]) {
      assert SnapAt(s.handlers[k], n, s.snaps[(k, n)]);
    }
  }

  lemma OneSocketEach(s: State, order: seq<Id>, topic: bytes)
    requires SessionsHeld(s) && Selects(s.sessions, topic, order)
    ensures Distinct(Sockets(s.sessions, order))
  {
    var socks := Sockets(s.sessions, order);
    forall i, j | 0 <= i < j < |socks| ensures socks[i] != socks[j] {
      assert s.handlers[socks[i]].id == order[i] && s.handlers[socks[j]].id == order[j];
    }
  }

  /** What the Route step does, in the terms of these invariants. */
  ghost predicate Routed(s: State, s': State, k: Sock, snap: Snap) {
    && k in s.handlers && s.handlers[k].pc.Routing? && Published(s.handlers[k].read) != []
    && s'.handlers == s.handlers[k := s.handlers[k].(pc := Sending(snap.m, snap.targets))]
    && s'.snaps == s.snaps[(k, Current(s.handlers[k])) := snap]
    && SnapAt(s'.handlers[k], Current(s.handlers[k]), snap)
    && s'.delivered == s.delivered && s'.lost == s.lost && s'.outbox == s.outbox
  }

  lemma RouteStep(s: State, k: Sock, order: seq<Id>)
    requires SessionsHeld(s) && HandlerEnabled(s, k, Route(order))
    requires var h := s.handlers[k]; Published(h.read) != [] && Published(h.read)[Current(h)] == h.pc.m
    ensures var snap := Snap(s.handlers[k].pc.m, s.sessions, order, Sockets(s.sessions, order));
            Routed(s, HandlerNext(s, k, Route(order)), k, snap)
  {
    OneSocketEach(s, order, s.handlers[k].pc.m.topic);
  }

  lemma SnapshotsRoute(s: State, s': State, k: Sock, snap: Snap)
    requires Snapshots(s) && Routed(s, s', k, snap)
    ensures Snapshots(s')
  {
    var c := Current(s.handlers[k]);
    forall j: Sock, n: nat | (j, n) in s'.snaps
      ensures j in s'.handlers && SnapAt(s'.handlers[j], n, s'.snaps[(j, n)])
    {
      if j != k || n != c {
        assert SnapAt(s.handlers[j], n, s.snaps[(j, n)]);
      }
    }
  }

  // ---------- sends ----------

  /** A handler that is sending has a suffix of its snapshot's targets left. */
  ghost predicate SendingOk(s: State) {
    forall k :: k in s.handlers && s.handlers[k].pc.Sending? ==>
      && (k, Current(s.handlers[k])) in s.snaps
      && var snap, left := s.snaps[(k, Current(s.handlers[k]))], s.handlers[k].pc.targets;
         && snap.m == s.handlers[k].pc.m && |left| <= |snap.targets| && left == snap.targets[|snap.targets| - |left|..]
  }

  predicate Pending(s: State, k: Sock, n: nat, t: Sock) {
    && k in s.handlers && s.handlers[k].pc.Sending?
    && Current(s.handlers[k]) == n && t in s.handlers[k].pc.targets
  }

  /** Each target of a snapshot is in exactly one of three states, and nobody else is in any. */
  ghost predicate FateAt(s: State, k: Sock, n: nat, t: Sock) {
    var d, l, p := (k, n, t) in s.delivered, (k, n, t) in s.lost, Pending(s, k, n, t);
    && (d || l || p <==> (k, n) in s.snaps && t in s.snaps[(k, n)].targets)
    && !(d && l) && !(d && p) && !(l && p)
  }

  ghost predicate Fates(s: State) {
    forall k: Sock, n: nat, t: Sock :: FateAt(s, k, n, t)
  }

  lemma FatesServer(s: State, step: ServerStep)
    requires SendingOk(s) && Fates(s) && ServerEnabled(s, step)
    ensures SendingOk(ServerNext(s, step)) && Fates(ServerNext(s, step))
  {
    var s' := ServerNext(s, step);
    forall k: Sock, n: nat, t: Sock ensures FateAt(s', k, n, t) {
      assert FateAt(s, k, n, t);
    }
  }

  lemma FatesFrame(s: State, s': State, k: Sock)
    requires SendingOk(s) && Fates(s)
    requires k in s.handlers && k in s'.handlers && s'.handlers == s.handlers[k := s'.handlers[k]]
    requires s'.snaps == s.snaps && s'.delivered == s.delivered && s'.lost == s.lost
    requires s.handlers[k].pc.Sending? ==> s.handlers[k].pc.targets == []
    requires !s'.handlers[k].pc.Sending?
    ensures SendingOk(s') && Fates(s')
  {
    forall j: Sock, n: nat, t: Sock ensures FateAt(s', j, n, t) {
      assert FateAt(s, j, n, t);
    }
  }

  lemma FatesRoute(s: State, s': State, k: Sock, snap: Snap)
    requires Snapshots(s) && SendingOk(s) && Fates(s) && Routed(s, s', k, snap)
    ensures SendingOk(s') && Fates(s')
  {
    NotYetRouted(s, k);
    SendingRouted(s, s', k, snap);
    hide Snapshots, SendingOk, Routed;
    forall j: Sock, n: nat, t: Sock ensures FateAt(s', j, n, t) {
      assert FateAt(s, j, n, t);
      FateRouted(s, s', k, snap, j, n, t);
    }
  }

  lemma NotYetRouted(s: State, k: Sock)
    requires Snapshots(s) && k in s.handlers && s.handlers[k].pc.Routing? && Published(s.handlers[k].read) != []
    ensures (k, Current(s.handlers[k])) !in s.snaps
  {
  }

  lemma SendingRouted(s: State, s': State, k: Sock, snap: Snap)
    requires SendingOk(s) && Routed(s, s', k, snap)
    ensures SendingOk(s')
  {
    assert snap.targets[0..] == snap.targets;
  }

  lemma FateRouted(s: State, s': State, k: Sock, snap: Snap, j: Sock, n: nat, t: Sock)
    requires FateAt(s, j, n, t) && Routed(s, s', k, snap) && (k, Current(s.handlers[k])) !in s.snaps
    ensures FateAt(s', j, n, t)
  {
  }

  /** What the SendNext step does, in the terms of these invariants. */
  ghost predicate SentNext(s: State, s': State, k: Sock, ok: bool) {
    && k in s.handlers && s.handlers[k].pc.Sending? && s.handlers[k].pc.targets != []
    && var h := s.handlers[k];
       var c, t := Current(h), h.pc.targets[0];
       && s'.handlers == s.handlers[k := h.(pc := Sending(h.pc.m, h.pc.targets[1..]))]
       && s'.snaps == s.snaps
       && s'.delivered == (if ok then s.delivered + {(k, c, t)} else s.delivered)
       && s'.lost == (if ok then s.lost else s.lost + {(k, c, t)})
       && s'.outbox == (if ok then Post(s.outbox, t, Forward(k, c, PublishOut(h.pc.m))) else s.outbox)
  }

  lemma SendStep(s: State, k: Sock, ok: bool)
    requires HandlerEnabled(s, k, SendNext(ok))
    ensures SentNext(s, HandlerNext(s, k, SendNext(ok)), k, ok)
  {
  }

  lemma NextTarget(s: State, k: Sock)
    requires Snapshots(s) && SendingOk(s)
    requires k in s.handlers && s.handlers[k].pc.Sending? && s.handlers[k].pc.targets != []
    ensures var left := s.handlers[k].pc.targets; left[0] !in left[1..]
  {
    var c, left := Current(s.handlers[k]), s.handlers[k].pc.targets;
    assert SnapAt(s.handlers[k], c, s.snaps[(k, c)]);
  }

  lemma FateSent(s: State, s': State, k: Sock, ok: bool, j: Sock, n: nat, t: Sock)
    requires FateAt(s, j, n, t) && SentNext(s, s', k, ok)
    requires FateAt(s, k, Current(s.handlers[k]), s.handlers[k].pc.targets[0])
    requires var left := s.handlers[k].pc.targets; left[0] !in left[1..]
    ensures FateAt(s', j, n, t)
  {
    var left := s.handlers[k].pc.targets;
    assert t in left <==> t == left[0] || t in left[1..];
  }

  lemma SendingShrinks(s: State, s': State, k: Sock, ok: bool)
    requires SendingOk(s) && SentNext(s, s', k, ok)
    ensures SendingOk(s')
  {
    var snap, left := s.snaps[(k, Current(s.handlers[k]))], s.handlers[k].pc.targets;
    assert left[1..] == snap.targets[|snap.targets| - |left[1..]|..];
    assert Current(s'.handlers[k]) == Current(s.handlers[k]);
  }

  lemma FatesSend(s: State, s': State, k: Sock, ok: bool)
    requires SendingOk(s) && Fates(s) && SentNext(s, s', k, ok)
    requires var left := s.handlers[k].pc.targets; left[0] !in left[1..]
    ensures SendingOk(s') && Fates(s')
  {
    SendingShrinks(s, s', k, ok);
    forall j: Sock, n: nat, t: Sock ensures FateAt(s', j, n, t) {
      FateSent(s, s', k, ok, j, n, t);
    }
  }

  // ---------- outboxes ----------

  /** How many copies of one PUBLISH a box holds. */
  function Copies(box: seq<Sent>, k: Sock, n: nat): nat {
    if box == [] then 0
    else
      var last := box[|box| - 1];
      Copies(box[..|box| - 1], k, n) + if last.Forward? && last.from == k && last.n == n then 1 else 0
  }

  lemma CopiesSnoc(box: seq<Sent>, last: Sent, k: Sock, n: nat)
    ensures Copies(box + [last], k, n) ==
            Copies(box, k, n) + if last.Forward? && last.from == k && last.n == n then 1 else 0
  {
    assert (box + [last])[..|box|] == box;
  }

  ghost predicate CopiesAt(s: State, k: Sock, n: nat, t: Sock) {
    Copies(Box(s.outbox, t), k, n) == if (k, n, t) in s.delivered then 1 else 0
  }

  ghost predicate Outboxes(s: State) {
    forall k: Sock, n: nat, t: Sock :: CopiesAt(s, k, n, t)
  }

  lemma OutboxesReply(s: State, s': State, t: Sock, out: Outgoing)
    requires Outboxes(s) && s'.delivered == s.delivered && s'.outbox == Post(s.outbox, t, Reply(out))
    ensures Outboxes(s')
  {
    forall k: Sock, n: nat, t': Sock ensures CopiesAt(s', k, n, t') {
      assert CopiesAt(s, k, n, t');
      CopiesSnoc(Box(s.outbox, t), Reply(out), k, n);
    }
  }

  lemma OutboxesFrame(s: State, s': State)
    requires Outboxes(s) && s'.delivered == s.delivered && s'.outbox == s.outbox
    ensures Outboxes(s')
  {
    forall k: Sock, n: nat, t: Sock ensures CopiesAt(s', k, n, t) {
      assert CopiesAt(s, k, n, t);
    }
  }

  lemma OutboxesSend(s: State, s': State, k: Sock, ok: bool)
    requires Outboxes(s) && SentNext(s, s', k, ok)
    requires (k, Current(s.handlers[k]), s.handlers[k].pc.targets[0]) !in s.delivered
    ensures Outboxes(s')
  {
    var h := s.handlers[k];
    var box, sent := Box(s.outbox, h.pc.targets[0]), Forward(k, Current(h), PublishOut(h.pc.m));
    forall j: Sock, n: nat, t: Sock ensures CopiesAt(s', j, n, t) {
      assert CopiesAt(s, j, n, t);
      CopiesSnoc(box, sent, j, n);
    }
  }

  lemma {:induction false} CopyFound(box: seq<Sent>, i: nat)
    requires i < |box| && box[i].Forward?
    ensures Copies(box, box[i].from, box[i].n) >= 1
  {
    if i < |box| - 1 {
      CopyFound(box[..|box| - 1], i);
    }
  }

  /** In every box, the PUBLISHes of one publisher come in the order in which it sent them. */
  ghost predicate InOrder(box: seq<Sent>) {
    forall i, j :: 0 <= i < j < |box| && box[i].Forward? && box[j].Forward? && box[i].from == box[j].from ==>
        box[i].n < box[j].n
  }

  ghost predicate Ordered(s: State) {
    forall t: Sock :: InOrder(Box(s.outbox, t))
  }

  lemma OrderedReply(s: State, s': State, t: Sock, out: Outgoing)
    requires Ordered(s) && s'.outbox == Post(s.outbox, t, Reply(out))
    ensures Ordered(s')
  {
    forall t': Sock ensures InOrder(Box(s'.outbox, t')) {
      assert InOrder(Box(s.outbox, t'));
    }
  }

  /** Every PUBLISH of handler k that has gone out anywhere is older than its current one, or that one itself. */
  lemma DeliveredIsRouted(s: State, k: Sock, n: nat, t: Sock)
    requires Snapshots(s) && Fates(s) && (k, n, t) in s.delivered
    ensures k in s.handlers && n < RoutedCount(s.handlers[k])
  {
    assert FateAt(s, k, n, t);
    assert SnapAt(s.handlers[k], n, s.snaps[(k, n)]);
  }

  lemma OrderedSend(s: State, s': State, k: Sock, ok: bool)
    requires Ordered(s) && Outboxes(s) && Snapshots(s) && Fates(s) && SentNext(s, s', k, ok)
    requires (k, Current(s.handlers[k]), s.handlers[k].pc.targets[0]) !in s.delivered
    ensures Ordered(s')
  {
    var t0 := s.handlers[k].pc.targets[0];
    var box := Box(s.outbox, t0);
    forall i: nat | i < |box| && box[i].Forward? && box[i].from == k ensures box[i].n < Current(s.handlers[k]) {
      CopyFound(box, i);
      assert CopiesAt(s, k, box[i].n, t0);
      DeliveredIsRouted(s, k, box[i].n, t0);
    }
    forall t: Sock ensures InOrder(Box(s'.outbox, t)) {
      assert InOrder(Box(s.outbox, t));
    }
  }

  // ---------- frames ----------

  /** The body of a forwarded message fits a frame and decodes to that message. */
  predicate Faithful(m: Message) {
    |PublishBody(m)| <= MAX_LENGTH && DecodePublish(PublishBody(m)) == Some(m)
  }

  predicate FrameOk(s: State, sent: Sent) {
    match sent
    case Reply(out) => out.header / 16 != PUBLISH && |out.payload| <= MAX_LENGTH
    case Forward(k, n, out) =>
      (k, n) in s.snaps && out == PublishOut(s.snaps[(k, n)].m) && Faithful(s.snaps[(k, n)].m)
  }

  ghost predicate FramesOk(s: State) {
    forall t: Sock, i: nat :: i < |Box(s.outbox, t)| ==> FrameOk(s, Box(s.outbox, t)[i])
  }

  lemma {:induction false} PublishedFaithful(read: seq<Packet>, i: nat)
    requires Bounded(read) && i < |Published(read)|
    ensures Faithful(Published(read)[i])
  {
    var last := read[|read| - 1];
    if i < |Published(read[..|read| - 1])| {
      PublishedFaithful(read[..|read| - 1], i);
    } else {
      ForwardedBodyIdentical(last.body);
    }
  }

  lemma FramesFrame(s: State, s': State)
    requires FramesOk(s) && s'.outbox == s.outbox
    requires forall key :: key in s.snaps ==> key in s'.snaps && s'.snaps[key] == s.snaps[key]
    ensures FramesOk(s')
  {
    forall t: Sock, i: nat | i < |Box(s'.outbox, t)| ensures FrameOk(s', Box(s'.outbox, t)[i]) {
      assert FrameOk(s, Box(s.outbox, t)[i]);
    }
  }

  lemma FramesPost(s: State, s': State, t0: Sock, sent: Sent)
    requires FramesOk(s) && s'.outbox == Post(s.outbox, t0, sent) && s'.snaps == s.snaps && FrameOk(s, sent)
    ensures FramesOk(s')
  {
    forall t: Sock, i: nat | i < |Box(s'.outbox, t)| ensures FrameOk(s', Box(s'.outbox, t)[i]) {
      if i < |Box(s.outbox, t)| {
        assert FrameOk(s, Box(s.outbox, t)[i]);
      }
    }
  }

  // ---------- all steps ----------

  ghost predicate Deliveries(s: State) {
    Snapshots(s) && SendingOk(s) && Fates(s) && Outboxes(s) && Ordered(s) && FramesOk(s)
  }

  lemma DeliveriesServer(s: State, step: ServerStep)
    requires Deliveries(s) && ServerEnabled(s, step)
    ensures Deliveries(ServerNext(s, step))
  {
    var s' := ServerNext(s, step);
    SnapshotsServer(s, step);
    FatesServer(s, step);
    assert s'.snaps == s.snaps && s'.outbox == s.outbox && s'.delivered == s.delivered;
    OutboxesFrame(s, s');
    FramesFrame(s, s');
  }

  lemma DeliveriesRouted(s: State, s': State, k: Sock, snap: Snap)
    requires Deliveries(s) && Routed(s, s', k, snap)
    ensures Deliveries(s')
  {
    SnapshotsRoute(s, s', k, snap);
    FatesRoute(s, s', k, snap);
    OutboxesFrame(s, s');
    assert (k, Current(s.handlers[k])) !in s.snaps;
    FramesFrame(s, s');
  }

  lemma DeliveriesRoute(s: State, k: Sock, order: seq<Id>)
    requires Deliveries(s) && SessionsHeld(s) && Reads(s) && HandlerEnabled(s, k, Route(order))
    ensures Deliveries(HandlerNext(s, k, Route(order)))
  {
    WorkingOnLast(s, k);
    RouteStep(s, k, order);
    DeliveriesRouted(s, HandlerNext(s, k, Route(order)), k,
        Snap(s.handlers[k].pc.m, s.sessions, order, Sockets(s.sessions, order)));
  }

  lemma BoxesSent(s: State, s': State, k: Sock, ok: bool)
    requires Deliveries(s) && SentNext(s, s', k, ok) && Faithful(s.handlers[k].pc.m)
    ensures Outboxes(s') && Ordered(s') && FramesOk(s')
  {
    var h := s.handlers[k];
    var t := h.pc.targets[0];
    assert FateAt(s, k, Current(h), t);
    OutboxesSend(s, s', k, ok);
    OrderedSend(s, s', k, ok);
    if ok {
      FramesPost(s, s', t, Forward(k, Current(h), PublishOut(h.pc.m)));
    } else {
      FramesFrame(s, s');
    }
  }

  lemma DeliveriesSent(s: State, s': State, k: Sock, ok: bool)
    requires Deliveries(s) && SentNext(s, s', k, ok) && Faithful(s.handlers[k].pc.m)
    ensures Deliveries(s')
  {
    NextTarget(s, k);
    SnapshotsFrame(s, s', k);
    FatesSend(s, s', k, ok);
    BoxesSent(s, s', k, ok);
  }

  lemma DeliveriesSend(s: State, k: Sock, ok: bool)
    requires Deliveries(s) && Reads(s) && HandlerEnabled(s, k, SendNext(ok))
    ensures Deliveries(HandlerNext(s, k, SendNext(ok)))
  {
    WorkingOnLast(s, k);
    PublishedFaithful(s.handlers[k].read, Current(s.handlers[k]));
    SendStep(s, k, ok);
    DeliveriesSent(s, HandlerNext(s, k, SendNext(ok)), k, ok);
  }

  lemma NotSending(s: State, k: Sock, c: HandlerStep)
    requires HandlerEnabled(s, k, c) && !c.Route? && !c.SendNext?
    ensures s.handlers[k].pc.Sending? ==> s.handlers[k].pc.targets == []
    ensures !HandlerNext(s, k, c).handlers[k].pc.Sending?
  {
  }

  predicate Replies(c: HandlerStep) {
    (c.SendConnack? && c.ok) || (c.SendSuback? && c.ok) || (c.SendPong? && c.ok)
  }

  /** Every other step either posts one reply to the handler's own socket or posts nothing. */
  lemma ReplyEffect(s: State, k: Sock, c: HandlerStep) returns (out: Outgoing)
    requires HandlerEnabled(s, k, c) && PcOk(s.handlers[k]) && !c.Route? && !c.SendNext?
    ensures var s' := HandlerNext(s, k, c);
            && (Replies(c) ==> s'.outbox == Post(s.outbox, k, Reply(out)) && FrameOk(s, Reply(out)))
            && (!Replies(c) ==> s'.outbox == s.outbox)
  {
    out := if c.SendConnack? then CONNACK_OUT else if c.SendSuback? then s.handlers[k].pc.reply else PINGRESP_OUT;
  }

  lemma BoxesOther(s: State, s': State, k: Sock, posts: bool, out: Outgoing)
    requires Outboxes(s) && Ordered(s) && FramesOk(s)
    requires s'.snaps == s.snaps && s'.delivered == s.delivered
    requires posts ==> s'.outbox == Post(s.outbox, k, Reply(out)) && FrameOk(s, Reply(out))
    requires !posts ==> s'.outbox == s.outbox
    ensures Outboxes(s') && Ordered(s') && FramesOk(s')
  {
    if posts {
      OutboxesReply(s, s', k, out);
      OrderedReply(s, s', k, out);
      FramesPost(s, s', k, Reply(out));
    } else {
      OutboxesFrame(s, s');
      FramesFrame(s, s');
    }
  }

  lemma SnapshotsOther(s: State, k: Sock, c: HandlerStep)
    requires Snapshots(s) && HandlerEnabled(s, k, c) && !c.Route? && !c.SendNext?
    ensures Snapshots(HandlerNext(s, k, c))
  {
    var s' := HandlerNext(s, k, c);
    HandlerEffect(s, k, c);
    HandlerFrame(s, k, c);
    if c.Read? {
      ReadKeepsNumbers(s.handlers[k], s'.handlers[k]);
    } else {
      CountsKept(s, k, c);
    }
    SnapshotsFrame(s, s', k);
  }

  lemma DeliveriesOther(s: State, k: Sock, c: HandlerStep)
    requires Deliveries(s) && Reads(s) && HandlerEnabled(s, k, c) && !c.Route? && !c.SendNext?
    ensures Deliveries(HandlerNext(s, k, c))
  {
    var s' := HandlerNext(s, k, c);
    SnapshotsOther(s, k, c);
    HandlerEffect(s, k, c);
    HandlerFrame(s, k, c);
    NotSending(s, k, c);
    FatesFrame(s, s', k);
    var out := ReplyEffect(s, k, c);
    BoxesOther(s, s', k, Replies(c), out);
  }

  lemma DeliveriesHandler(s: State, k: Sock, c: HandlerStep)
    requires Deliveries(s) && SessionsHeld(s) && Reads(s) && HandlerEnabled(s, k, c)
    ensures Deliveries(HandlerNext(s, k, c))
  {
    if c.Route? {
      DeliveriesRoute(s, k, c.order);
    } else if c.SendNext? {
      DeliveriesSend(s, k, c.ok);
    } else {
      DeliveriesOther(s, k, c);
    }
  }
}
