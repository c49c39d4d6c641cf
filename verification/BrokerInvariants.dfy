/**
 What every step of the MQTT server keeps, whatever the interleaving. Each invariant is
 proved separately for the steps of the server and those of the handlers.
 */
module BrokerInvariants {
  import opened Sequences
  import opened RemainingLength
  import opened Packets
  import opened Framing
  import opened Broker
  import opened BrokerRuns
  import ThreadGroup

  // ---------- what a handler step leaves alone ----------

  lemma HandlerEffect(s: State, k: Sock, c: HandlerStep)
    requires HandlerEnabled(s, k, c)
    ensures var h, s' := s.handlers[k], HandlerNext(s, k, c);
            && k in s'.handlers && s'.handlers == s.handlers[k := s'.handlers[k]]
            && var h' := s'.handlers[k];
               && h'.stream == h.stream
               && (!c.Read? ==> h'.read == h.read)
               && (!c.Read? && !c.Admit? ==> h'.inbound == h.inbound)
               && (!c.Admit? ==> h'.id == h.id)
               && (!c.Reject? ==> h'.rejected == h.rejected)
  {
  }

  lemma HandlerFrame(s: State, k: Sock, c: HandlerStep)
    requires HandlerEnabled(s, k, c)
    ensures var s' := HandlerNext(s, k, c);
            && s'.phase == s.phase && s'.acceptor == s.acceptor && s'.group == s.group && s'.cleared == s.cleared
            && (!c.Record? ==> s'.log == s.log && s'.history == s.history)
            && (!c.Route? ==> s'.snaps == s.snaps)
            && (!c.SendNext? ==> s'.delivered == s.delivered && s'.lost == s.lost)
            && (!c.Admit? && !c.AddFilters? && !c.Reject? && !c.Leave? ==> s'.sessions == s.sessions)
            && (!c.Refuse? && !c.Reject? && !c.RejectClose? && !c.Leave? && !c.Finish? ==> s'.open == s.open)
            && (!c.SendNext? && !c.SendConnack? && !c.SendSuback? && !c.SendPong? ==> s'.outbox == s.outbox)
  {
  }

  // ---------- threads ----------

  ghost predicate Threads(s: State) {
    && (s.phase.Idle? ==> s.acceptor.Exited? && s.group == [])
    && (s.phase.Joined? || s.phase.Swept? ==> s.acceptor.Exited?)
    && (s.acceptor.Adding? ==> s.acceptor.sock in s.handlers)
    && (forall k :: k in s.handlers ==> s.handlers[k].pc.Done? || k in s.group || s.acceptor == Adding(k))
  }

  lemma ThreadsServer(s: State, step: ServerStep)
    requires Threads(s) && ServerEnabled(s, step)
    ensures Threads(ServerNext(s, step))
  {
    var s' := ServerNext(s, step);
    match step {
      case JoinFinished(raised) =>
        forall k | k in s'.handlers ensures s'.handlers[k].pc.Done? || k in s'.group || s'.acceptor == Adding(k) {
          ThreadGroup.JoinsOnlyRaised(s.group, raised, k);
          if k in s.group && k !in s'.group {
            var i :| 0 <= i < |s.group| && s.group[i] == k;
          }
        }
      case JoinAll =>
        forall k | k in s'.handlers ensures s'.handlers[k].pc.Done? {
          if k in s.group {
            var i :| 0 <= i < |s.group| && s.group[i] == k;
          }
        }
      case _ =>
    }
  }

  lemma ThreadsHandler(s: State, k: Sock, c: HandlerStep)
    requires Threads(s) && HandlerEnabled(s, k, c)
    ensures Threads(HandlerNext(s, k, c))
  {
    HandlerEffect(s, k, c);
    HandlerFrame(s, k, c);
    ThreadsFrame(s, HandlerNext(s, k, c), k);
  }

  lemma ThreadsFrame(s: State, s': State, k: Sock)
    requires Threads(s) && k in s.handlers && k in s'.handlers && s'.handlers == s.handlers[k := s'.handlers[k]]
    requires !s.handlers[k].pc.Done?
    requires s'.phase == s.phase && s'.acceptor == s.acceptor && s'.group == s.group
    ensures Threads(s')
  {
  }

  // ---------- sessions and sockets ----------

  predicate Holding(h: Handler) {
    Live(h.pc) && !h.rejected
  }

  /**
   Every session in the map is that of the handler which put it there, and that handler
   has not yet run its final `remove_session`; this needs nothing about the client ids.
   */
  ghost predicate SessionsHeld(s: State) {
    forall id :: id in s.sessions ==>
      var k := s.sessions[id].sock;
      k in s.handlers && s.handlers[k].id == id && Holding(s.handlers[k]) && k in s.open
  }

  ghost predicate SocketsOpen(s: State) {
    && (forall k :: k in s.open ==> k in s.handlers && !s.handlers[k].pc.Done?)
    && (forall k :: k in s.handlers && s.handlers[k].pc.Handshaking? ==> k in s.open && !s.handlers[k].rejected)
    && (forall k :: k in s.handlers && s.handlers[k].pc.RejectClosing? ==> s.handlers[k].rejected)
  }

  lemma SessionsServer(s: State, step: ServerStep)
    requires SessionsHeld(s) && SocketsOpen(s) && ServerEnabled(s, step)
    ensures SessionsHeld(ServerNext(s, step)) && SocketsOpen(ServerNext(s, step))
  {
    if step.SweepSessions? {
      forall k | k in s.handlers && s.handlers[k].pc.Handshaking? ensures k !in AllSockets(s.sessions) {}
    }
  }

  /** Steps that leave the session map and the sockets alone. */
  lemma SessionsFrame(s: State, s': State, k: Sock)
    requires SessionsHeld(s) && SocketsOpen(s)
    requires k in s.handlers && k in s'.handlers && s'.handlers == s.handlers[k := s'.handlers[k]]
    requires s'.sessions == s.sessions && s'.open == s.open
    requires s'.handlers[k].id == s.handlers[k].id && (Holding(s.handlers[k]) ==> Holding(s'.handlers[k]))
    requires !s'.handlers[k].pc.Done? && !s'.handlers[k].pc.Handshaking? && !s'.handlers[k].pc.RejectClosing?
    ensures SessionsHeld(s') && SocketsOpen(s')
  {
  }

  lemma SessionsAdmit(s: State, k: Sock, anonymous: Id)
    requires SessionsHeld(s) && SocketsOpen(s) && HandlerEnabled(s, k, Admit(anonymous))
    ensures SessionsHeld(HandlerNext(s, k, Admit(anonymous))) && SocketsOpen(HandlerNext(s, k, Admit(anonymous)))
  {
  }

  lemma SessionsAddFilters(s: State, k: Sock)
    requires SessionsHeld(s) && SocketsOpen(s) && HandlerEnabled(s, k, AddFilters)
    ensures SessionsHeld(HandlerNext(s, k, AddFilters)) && SocketsOpen(HandlerNext(s, k, AddFilters))
  {
  }

  /** Removing a session severs the socket of no other session. */
  lemma SessionsRemove(s: State, k: Sock, c: HandlerStep)
    requires SessionsHeld(s) && SocketsOpen(s) && HandlerEnabled(s, k, c) && (c.Reject? || c.Leave?)
    ensures SessionsHeld(HandlerNext(s, k, c)) && SocketsOpen(HandlerNext(s, k, c))
  {
  }

  lemma SessionsClose(s: State, k: Sock, c: HandlerStep)
    requires SessionsHeld(s) && SocketsOpen(s) && HandlerEnabled(s, k, c) && (c.Refuse? || c.RejectClose? || c.Finish?)
    ensures SessionsHeld(HandlerNext(s, k, c)) && SocketsOpen(HandlerNext(s, k, c))
  {
  }

  predicate TouchesSessions(c: HandlerStep) {
    c.Admit? || c.AddFilters? || c.Reject? || c.Leave? || c.Refuse? || c.RejectClose? || c.Finish?
  }

  lemma HoldingKept(s: State, k: Sock, c: HandlerStep)
    requires HandlerEnabled(s, k, c) && !TouchesSessions(c)
    ensures var h, h' := s.handlers[k], HandlerNext(s, k, c).handlers[k];
            (Holding(h) ==> Holding(h')) && !h'.pc.Done? && !h'.pc.Handshaking? && !h'.pc.RejectClosing?
  {
  }

  lemma SessionsQuiet(s: State, k: Sock, c: HandlerStep)
    requires SessionsHeld(s) && SocketsOpen(s) && HandlerEnabled(s, k, c) && !TouchesSessions(c)
    ensures SessionsHeld(HandlerNext(s, k, c)) && SocketsOpen(HandlerNext(s, k, c))
  {
    var s' := HandlerNext(s, k, c);
    HandlerEffect(s, k, c);
    HandlerFrame(s, k, c);
    HoldingKept(s, k, c);
    SessionsFrame(s, s', k);
  }

  lemma SessionsHandler(s: State, k: Sock, c: HandlerStep)
    requires SessionsHeld(s) && SocketsOpen(s) && HandlerEnabled(s, k, c)
    ensures SessionsHeld(HandlerNext(s, k, c)) && SocketsOpen(HandlerNext(s, k, c))
  {
    if !TouchesSessions(c) {
      SessionsQuiet(s, k, c);
    } else if c.Reject? || c.Leave? {
      SessionsRemove(s, k, c);
    } else if c.Admit? {
      SessionsAdmit(s, k, c.anonymous);
    } else if c.AddFilters? {
      SessionsAddFilters(s, k);
    } else {
      SessionsClose(s, k, c);
    }
  }

  // ---------- what handlers have read ----------

  /** The packets read so far are the first ones of the peer's bytes after CONNECT; the pc agrees with the last. */
  ghost predicate ReadOk(h: Handler) {
    && (h.pc.Handshaking? ==> h.read == [])
    && (Handshake(h.stream).None? ==> h.read == [] && !Live(h.pc))
    && (Handshake(h.stream).Some? && !h.pc.Handshaking? ==>
          h.read + AllPackets(h.inbound) == AllPackets(Handshake(h.stream).value.1))
  }

  ghost predicate Bounded(read: seq<Packet>) {
    forall i :: 0 <= i < |read| ==> |read[i].body| <= MAX_LENGTH
  }

  predicate PcOk(h: Handler) {
    match h.pc
    case Recording(m) => h.read != [] && PublishOf(h.read[|h.read| - 1]) == [m]
    case Routing(m) => h.read != [] && PublishOf(h.read[|h.read| - 1]) == [m]
    case Sending(m, _) => h.read != [] && PublishOf(h.read[|h.read| - 1]) == [m]
    case Subscribing(sub) =>
      && h.read != [] && h.read[|h.read| - 1].kind == SUBSCRIBE
      && DecodeSubscribe(h.read[|h.read| - 1].body) == Some(sub)
    case Subacking(reply) => reply.header == SUBACK * 16 && |reply.payload| <= MAX_LENGTH
    case _ => true
  }

  ghost predicate Reads(s: State) {
    forall k :: k in s.handlers ==> ReadOk(s.handlers[k]) && Bounded(s.handlers[k].read) && PcOk(s.handlers[k])
  }

  lemma ReadsServer(s: State, step: ServerStep)
    requires Reads(s) && ServerEnabled(s, step)
    ensures Reads(ServerNext(s, step))
  {
  }

  lemma ReadStep(h: Handler, h': Handler)
    requires ReadOk(h) && Bounded(h.read) && h.pc.Reading? && NextPacket(h.inbound).Some?
    requires var (p, rest) := NextPacket(h.inbound).value;
             h' == h.(inbound := rest, read := h.read + [p], pc := AfterRead(p))
    ensures ReadOk(h') && Bounded(h'.read) && PcOk(h')
  {
    var (p, rest) := NextPacket(h.inbound).value;
    NextPacketBounds(h.inbound);
    ConcatAssociative(h.read, [p], AllPackets(rest));
  }

  lemma SubackFits(p: Packet, sub: Subscribe, codes: seq<byte>)
    requires DecodeSubscribe(p.body) == Some(sub) && |p.body| <= MAX_LENGTH && |codes| <= |sub.entries|
    ensures |SubackOut(sub.packetId, codes).payload| <= MAX_LENGTH
  {
    EntriesReserialise(p.body[2..]);
  }

  lemma ReadsFrame(h: Handler, h': Handler)
    requires ReadOk(h) && Bounded(h.read) && !h.pc.Handshaking? && !h'.pc.Handshaking?
    requires h'.stream == h.stream && h'.inbound == h.inbound && h'.read == h.read
    requires Live(h'.pc) ==> Live(h.pc)
    ensures ReadOk(h') && Bounded(h'.read)
  {
  }

  lemma PcKept(s: State, k: Sock, c: HandlerStep)
    requires Reads(s) && HandlerEnabled(s, k, c) && !c.Admit? && !c.Read? && !c.Refuse? && !c.AddFilters?
    ensures PcOk(HandlerNext(s, k, c).handlers[k])
  {
    if c.Record? || c.Route? || c.SendNext? {
      PublishKept(s, k, c);
    } else {
      PcLeft(s, k, c);
    }
  }

  lemma PublishKept(s: State, k: Sock, c: HandlerStep)
    requires k in s.handlers && PcOk(s.handlers[k]) && HandlerEnabled(s, k, c) && (c.Record? || c.Route? || c.SendNext?)
    ensures PcOk(HandlerNext(s, k, c).handlers[k])
  {
  }

  /** After every other step there is nothing that the pc would have to agree with. */
  lemma PcLeft(s: State, k: Sock, c: HandlerStep)
    requires HandlerEnabled(s, k, c) && !c.Admit? && !c.Read? && !c.Refuse? && !c.AddFilters?
    requires !c.Record? && !c.Route? && !c.SendNext?
    ensures PcOk(HandlerNext(s, k, c).handlers[k])
  {
  }

  lemma LivePcKept(s: State, k: Sock, c: HandlerStep)
    requires HandlerEnabled(s, k, c) && !c.Admit? && !c.Read? && !c.Refuse?
    ensures !HandlerNext(s, k, c).handlers[k].pc.Handshaking? && !s.handlers[k].pc.Handshaking?
    ensures Live(HandlerNext(s, k, c).handlers[k].pc) ==> Live(s.handlers[k].pc)
  {
  }

  lemma AdmitReads(h: Handler, h': Handler)
    requires h.read == [] && Handshake(h.stream).Some? && h'.pc.Connacking?
    requires h'.stream == h.stream && h'.read == h.read && h'.inbound == Handshake(h.stream).value.1
    ensures ReadOk(h') && Bounded(h'.read) && PcOk(h')
  {
    var packets := AllPackets(h'.inbound);
    assert [] + packets == packets;
  }

  lemma SubackReads(s: State, k: Sock)
    requires HandlerEnabled(s, k, AddFilters) && PcOk(s.handlers[k]) && Bounded(s.handlers[k].read)
    ensures PcOk(HandlerNext(s, k, AddFilters).handlers[k])
  {
    var h := s.handlers[k];
    SubackFits(h.read[|h.read| - 1], h.pc.sub, ReturnCodes(s.sessions, h.id, |h.pc.sub.entries|));
  }

  lemma ReadsOther(s: State, k: Sock, c: HandlerStep)
    requires Reads(s) && HandlerEnabled(s, k, c) && !c.Admit? && !c.Read? && !c.Refuse?
    ensures var h' := HandlerNext(s, k, c).handlers[k]; ReadOk(h') && Bounded(h'.read) && PcOk(h')
  {
    HandlerEffect(s, k, c);
    LivePcKept(s, k, c);
    if c.AddFilters? {
      SubackReads(s, k);
    } else {
      PcKept(s, k, c);
    }
    ReadsFrame(s.handlers[k], HandlerNext(s, k, c).handlers[k]);
  }

  lemma ReadsAt(s: State, k: Sock, c: HandlerStep)
    requires Reads(s) && HandlerEnabled(s, k, c)
    ensures var h' := HandlerNext(s, k, c).handlers[k]; ReadOk(h') && Bounded(h'.read) && PcOk(h')
  {
    if c.Admit? {
      AdmitReads(s.handlers[k], HandlerNext(s, k, c).handlers[k]);
    } else if c.Read? {
      ReadStep(s.handlers[k], HandlerNext(s, k, c).handlers[k]);
    } else if !c.Refuse? {
      ReadsOther(s, k, c);
    }
  }

  lemma ReadsHandler(s: State, k: Sock, c: HandlerStep)
    requires Reads(s) && HandlerEnabled(s, k, c)
    ensures Reads(HandlerNext(s, k, c))
  {
    HandlerEffect(s, k, c);
    ReadsAt(s, k, c);
  }

  // ---------- the history ----------

  /** Which of its messages a handler has recorded, in the order in which it did. */
  function Numbers(log: seq<Recorded>, k: Sock): seq<nat> {
    if log == [] then []
    else
      var e := log[|log| - 1];
      var before := Numbers(log[..|log| - 1], k);
      if e.from == k then before + [e.n] else before
  }

  function UpTo(n: nat): seq<nat> {
    seq(n, i requires 0 <= i => i)
  }

  function Messages(log: seq<Recorded>): (ms: seq<Message>)
    ensures |ms| == |log|
  {
    seq(|log|, i requires 0 <= i < |log| => log[i].m)
  }

  ghost predicate LogOk(s: State) {
    && s.cleared <= |s.log| && s.history == Messages(s.log[s.cleared..])
    && (forall i :: 0 <= i < |s.log| ==>
          && s.log[i].from in s.handlers
          && s.log[i].n < |Published(s.handlers[s.log[i].from].read)|
          && s.log[i].m == Published(s.handlers[s.log[i].from].read)[s.log[i].n])
  }

  /** Each handler has recorded its messages 0, 1, 2, ... up to where it is. */
  ghost predicate LogComplete(s: State) {
    forall k :: k in s.handlers ==>
        RecordedCount(s.handlers[k]) >= 0 && Numbers(s.log, k) == UpTo(RecordedCount(s.handlers[k]))
  }

  lemma {:induction false} NoNumbers(log: seq<Recorded>, k: Sock)
    requires forall i :: 0 <= i < |log| ==> log[i].from != k
    ensures Numbers(log, k) == []
  {
    if log != [] {
      NoNumbers(log[..|log| - 1], k);
    }
  }

  lemma LogAccept(s: State, k: Sock, stream: bytes)
    requires LogOk(s) && LogComplete(s) && ServerEnabled(s, Accept(k, stream))
    ensures LogOk(ServerNext(s, Accept(k, stream))) && LogComplete(ServerNext(s, Accept(k, stream)))
  {
    NoNumbers(s.log, k);
    var s' := ServerNext(s, Accept(k, stream));
    assert RecordedCount(s'.handlers[k]) == 0;
  }

  lemma LogServer(s: State, step: ServerStep)
    requires LogOk(s) && LogComplete(s) && ServerEnabled(s, step)
    ensures LogOk(ServerNext(s, step)) && LogComplete(ServerNext(s, step))
  {
    if step.Accept? {
      LogAccept(s, step.sock, step.stream);
    }
  }

  lemma LastPublished(h: Handler, m: Message)
    requires h.read != [] && PublishOf(h.read[|h.read| - 1]) == [m]
    ensures Published(h.read) != [] && Published(h.read)[Current(h)] == m
  {
  }

  /** A handler that reads a packet keeps the numbers of its earlier messages. */
  lemma ReadKeepsNumbers(h: Handler, h': Handler)
    requires h.pc.Reading? && NextPacket(h.inbound).Some?
    requires var (p, rest) := NextPacket(h.inbound).value;
             h' == h.(inbound := rest, read := h.read + [p], pc := AfterRead(p))
    ensures Published(h.read) <= Published(h'.read)
    ensures RecordedCount(h') == RecordedCount(h) == |Published(h.read)|
    ensures RoutedCount(h') == RoutedCount(h)
  {
    ReadSnoc(h.read, NextPacket(h.inbound).value.0);
  }

  lemma NumbersSnoc(log: seq<Recorded>, e: Recorded, k: Sock)
    ensures Numbers(log + [e], k) == if e.from == k then Numbers(log, k) + [e.n] else Numbers(log, k)
  {
    assert (log + [e])[..|log|] == log;
  }

  ghost predicate ReadsOn(s: State, s': State, k: Sock) {
    && k in s.handlers && k in s'.handlers && s'.handlers == s.handlers[k := s'.handlers[k]]
    && Published(s.handlers[k].read) <= Published(s'.handlers[k].read)
    && RecordedCount(s'.handlers[k]) == RecordedCount(s.handlers[k])
  }

  lemma LogOkFrame(s: State, s': State, k: Sock)
    requires LogOk(s) && ReadsOn(s, s', k) && s'.log == s.log && s'.history == s.history && s'.cleared == s.cleared
    ensures LogOk(s')
  {
  }

  lemma LogCompleteFrame(s: State, s': State, k: Sock)
    requires LogComplete(s) && ReadsOn(s, s', k) && s'.log == s.log
    ensures LogComplete(s')
  {
  }

  lemma LogGrows(s: State, s': State, e: Recorded)
    requires LogOk(s) && s'.handlers.Keys == s.handlers.Keys
    requires forall j :: j in s.handlers ==> s'.handlers[j].read == s.handlers[j].read
    requires s'.log == s.log + [e] && s'.history == s.history + [e.m] && s'.cleared == s.cleared
    requires e.from in s.handlers && e.n < |Published(s.handlers[e.from].read)|
    requires Published(s.handlers[e.from].read)[e.n] == e.m
    ensures LogOk(s')
  {
    assert s'.log[s.cleared..] == s.log[s.cleared..] + [e];
  }

  lemma UpToSnoc(n: nat)
    ensures UpTo(n + 1) == UpTo(n) + [n]
  {
  }

  lemma LogCountsUp(s: State, s': State, e: Recorded)
    requires LogComplete(s) && s'.handlers.Keys == s.handlers.Keys && s'.log == s.log + [e]
    requires forall j :: j in s.handlers && j != e.from ==> s'.handlers[j] == s.handlers[j]
    requires e.from in s.handlers
    requires RecordedCount(s.handlers[e.from]) == e.n && RecordedCount(s'.handlers[e.from]) == e.n + 1
    ensures LogComplete(s')
  {
    forall j | j in s'.handlers
      ensures RecordedCount(s'.handlers[j]) >= 0 && Numbers(s'.log, j) == UpTo(RecordedCount(s'.handlers[j]))
    {
      NumbersSnoc(s.log, e, j);
      UpToSnoc(e.n);
    }
  }

  /** The message a handler is working on is the last one it has read. */
  lemma WorkingOnLast(s: State, k: Sock)
    requires Reads(s) && k in s.handlers
    requires s.handlers[k].pc.Recording? || s.handlers[k].pc.Routing? || s.handlers[k].pc.Sending?
    ensures var h := s.handlers[k];
            Published(h.read) != [] && Published(h.read)[Current(h)] == h.pc.m
  {
    LastPublished(s.handlers[k], s.handlers[k].pc.m);
  }

  lemma RecordEffect(s: State, k: Sock)
    requires HandlerEnabled(s, k, Record)
    requires Published(s.handlers[k].read) != []
    ensures var h, s' := s.handlers[k], HandlerNext(s, k, Record);
            var e := Recorded(k, Current(h), h.pc.m);
            && s'.log == s.log + [e] && s'.history == s.history + [e.m] && s'.cleared == s.cleared
            && RecordedCount(h) == e.n && RecordedCount(s'.handlers[k]) == e.n + 1
  {
  }

  lemma LogRecord(s: State, k: Sock, s': State, e: Recorded)
    requires LogOk(s) && LogComplete(s) && k in s.handlers && e.from == k
    requires k in s'.handlers && s'.handlers == s.handlers[k := s'.handlers[k]]
    requires s'.handlers[k].read == s.handlers[k].read
    requires s'.log == s.log + [e] && s'.history == s.history + [e.m] && s'.cleared == s.cleared
    requires e.n < |Published(s.handlers[k].read)| && Published(s.handlers[k].read)[e.n] == e.m
    requires RecordedCount(s.handlers[k]) == e.n && RecordedCount(s'.handlers[k]) == e.n + 1
    ensures LogOk(s') && LogComplete(s')
  {
    LogGrows(s, s', e);
    LogCountsUp(s, s', e);
  }

  lemma CountsKept(s: State, k: Sock, c: HandlerStep)
    requires HandlerEnabled(s, k, c) && !c.Read?
    ensures !c.Record? ==> RecordedCount(HandlerNext(s, k, c).handlers[k]) == RecordedCount(s.handlers[k])
    ensures !c.Route? ==> RoutedCount(HandlerNext(s, k, c).handlers[k]) == RoutedCount(s.handlers[k])
  {
  }

  lemma LogHandler(s: State, k: Sock, c: HandlerStep)
    requires LogOk(s) && LogComplete(s) && Reads(s) && HandlerEnabled(s, k, c)
    ensures LogOk(HandlerNext(s, k, c)) && LogComplete(HandlerNext(s, k, c))
  {
    hide LogOk, LogComplete;
    HandlerEffect(s, k, c);
    HandlerFrame(s, k, c);
    if c.Record? {
      WorkingOnLast(s, k);
      RecordEffect(s, k);
      LogRecord(s, k, HandlerNext(s, k, c), Recorded(k, Current(s.handlers[k]), s.handlers[k].pc.m));
    } else {
      if c.Read? {
        ReadKeepsNumbers(s.handlers[k], HandlerNext(s, k, c).handlers[k]);
      } else {
        CountsKept(s, k, c);
      }
      LogOkFrame(s, HandlerNext(s, k, c), k);
      LogCompleteFrame(s, HandlerNext(s, k, c), k);
    }
  }
}
