/**
 The edges of the packet loop over whole runs: why a handler leaves it, how much it still
 reads once `stop` has begun, and what the history holds.
 */
module BrokerLoop {
  import opened Sequences
  import opened Packets
  import opened Framing
  import opened Broker
  import opened BrokerRuns
  import opened BrokerInvariants
  import opened BrokerTheorems

  // ---------- why a handler leaves ----------

  predicate Leaves(pc: Pc) {
    pc.Leaving? || pc.Finishing? || pc.Done?
  }

  /** The packet read last has a type other than PUBLISH, SUBSCRIBE and PINGREQ. */
  predicate SentAway(h: Handler) {
    h.read != [] && var kind := h.read[|h.read| - 1].kind; kind != 3 && kind != 8 && kind != 12
  }

  /** The step at which the handler gives up, and why it may. */
  predicate GivesUp(s: State, a: Action, k: Sock) {
    || a == Client(k, SendConnack(false))
    || (a == Client(k, Enter) && !s.phase.Serving?)
    || (a == Client(k, Hangup) && k in s.handlers && (NextPacket(s.handlers[k].inbound).None? || k !in s.open))
  }

  predicate GivesUpAt(acts: seq<Action>, i: nat, k: Sock) {
    i < |acts| && Exec(acts[..i]).Some? && GivesUp(Exec(acts[..i]).value, acts[i], k)
  }

  lemma LeavesBy(s: State, k: Sock, c: HandlerStep)
    requires HandlerEnabled(s, k, c) && Leaves(HandlerNext(s, k, c).handlers[k].pc)
    ensures var h := HandlerNext(s, k, c).handlers[k];
            || Handshake(h.stream).None? || SentAway(h) || GivesUp(s, Client(k, c), k)
            || (Leaves(s.handlers[k].pc) && h.read == s.handlers[k].read && h.stream == s.handlers[k].stream)
  {
    hide Handshake, NextPacket, DecodePublish, DecodeSubscribe;
  }

  lemma LeavesStep(s: State, a: Action, k: Sock)
    requires Enabled(s, a) && k in Next(s, a).handlers && Leaves(Next(s, a).handlers[k].pc)
    ensures var h := Next(s, a).handlers[k];
            || Handshake(h.stream).None? || SentAway(h) || GivesUp(s, a, k)
            || (k in s.handlers && Leaves(s.handlers[k].pc)
                && h.read == s.handlers[k].read && h.stream == s.handlers[k].stream)
  {
    match a {
      case Server(step) => LeavesServer(s, step, k);
      case Client(j, c) =>
        if j == k {
          LeavesBy(s, k, c);
        } else {
          HandlerEffect(s, j, c);
        }
    }
  }

  lemma LeavesServer(s: State, step: ServerStep, k: Sock)
    requires ServerEnabled(s, step) && k in ServerNext(s, step).handlers && Leaves(ServerNext(s, step).handlers[k].pc)
    ensures k in s.handlers && s.handlers[k] == ServerNext(s, step).handlers[k]
  {
  }

  /**
   A handler leaves for one of these reasons only: it was never admitted; the last packet
   it read has a type that the loop does not serve; its CONNACK could not be sent; it
   came back to the head of the loop when the server was no longer running; or there was
   no further complete packet, or its socket had been closed. Not because another send
   failed, for one.
   */
  lemma {:induction false} WhyItLeaves(acts: seq<Action>, s: State, k: Sock) returns (i: nat)
    requires Reaches(acts, s) && k in s.handlers && Leaves(s.handlers[k].pc)
    ensures Handshake(s.handlers[k].stream).None? || SentAway(s.handlers[k]) || GivesUpAt(acts, i, k)
  {
    hide Handshake, SentAway, GivesUp, HandlerNext, ServerNext;
    var n := |acts| - 1;
    var before := Exec(acts[..n]).value;
    LeavesStep(before, acts[n], k);
    i := n;
    if Handshake(s.handlers[k].stream).Some? && !SentAway(s.handlers[k]) && !GivesUp(before, acts[n], k) {
      SameReason(before.handlers[k], s.handlers[k]);
      i := WhyItLeaves(acts[..n], before, k);
      assert acts[..n][..i] == acts[..i];
    }
  }

  lemma SameReason(h: Handler, h': Handler)
    requires h'.read == h.read
    ensures SentAway(h') <==> SentAway(h)
  {
  }

  // ---------- reading after stop has begun ----------

  /** How many packets handler k has read since `stop` last began. */
  function ReadsSinceStop(acts: seq<Action>, k: Sock): nat {
    if acts == [] then 0
    else
      var before, a := ReadsSinceStop(acts[..|acts| - 1], k), acts[|acts| - 1];
      if a == Server(StopBegin) then 0 else if a == Client(k, Read) then before + 1 else before
  }

  predicate Stopping(phase: Phase) {
    phase.Closing? || phase.Joined? || phase.Swept?
  }

  predicate StopsReading(s: State, k: Sock, n: nat) {
    && (k !in s.handlers ==> n == 0)
    && (Stopping(s.phase) ==> n <= 1 && (k in s.handlers && s.handlers[k].pc.Reading? ==> n == 0))
  }

  lemma StopsReadingServer(s: State, step: ServerStep, k: Sock, n: nat)
    requires StopsReading(s, k, n) && ServerEnabled(s, step)
    ensures StopsReading(ServerNext(s, step), k, if step.StopBegin? then 0 else n)
  {
  }

  lemma StopsReadingClient(s: State, j: Sock, c: HandlerStep, k: Sock, n: nat)
    requires StopsReading(s, k, n) && HandlerEnabled(s, j, c)
    ensures StopsReading(HandlerNext(s, j, c), k, if j == k && c.Read? then n + 1 else n)
  {
    HandlerEffect(s, j, c);
    HandlerFrame(s, j, c);
    if j == k {
      EntersReading(s, k, c);
    }
  }

  lemma EntersReading(s: State, k: Sock, c: HandlerStep)
    requires HandlerEnabled(s, k, c)
    ensures HandlerNext(s, k, c).handlers[k].pc.Reading? ==> c.Enter? && s.phase.Serving?
    ensures c.Read? ==> s.handlers[k].pc.Reading?
  {
    hide Handshake, NextPacket, DecodePublish, DecodeSubscribe;
  }

  /** Once `stop` has begun, each handler reads at most one more packet. */
  lemma {:induction false} OneMoreAtMost(acts: seq<Action>, s: State, k: Sock)
    requires Reaches(acts, s)
    ensures StopsReading(s, k, ReadsSinceStop(acts, k))
    ensures s.phase.Closing? || s.phase.Joined? || s.phase.Swept? ==> ReadsSinceStop(acts, k) <= 1
  {
    if acts != [] {
      var n := |acts| - 1;
      var before := Exec(acts[..n]).value;
      OneMoreAtMost(acts[..n], before, k);
      hide HandlerNext, ServerNext, HandlerEnabled, ServerEnabled;
      var count := ReadsSinceStop(acts[..n], k);
      match acts[n] {
        case Server(step) => StopsReadingServer(before, step, k, count);
        case Client(j, c) => StopsReadingClient(before, j, c, k, count);
      }
    }
  }

  // ---------- the history ----------

  /** The message in the packet that k has read last. */
  function LastMessage(s: Option<State>, k: Sock): seq<Message> {
    if s.Some? && k in s.value.handlers && s.value.handlers[k].read != [] then
      var body := s.value.handlers[k].read[|s.value.handlers[k].read| - 1].body;
      if DecodePublish(body).Some? then [DecodePublish(body).value] else []
    else []
  }

  /** The messages recorded since the last `clear_messages`, read off the steps. */
  function SinceClear(acts: seq<Action>): seq<Message> {
    if acts == [] then []
    else
      var before, a := acts[..|acts| - 1], acts[|acts| - 1];
      if a == Server(Clear) then []
      else if a.Client? && a.c.Record? then SinceClear(before) + LastMessage(Exec(before), a.k)
      else SinceClear(before)
  }

  lemma RecordsLast(s: State, k: Sock)
    requires Reads(s) && HandlerEnabled(s, k, Record)
    ensures HandlerNext(s, k, Record).history == s.history + LastMessage(Some(s), k)
  {
    assert PcOk(s.handlers[k]);
  }

  lemma OnlyClear(s: State, step: ServerStep)
    requires ServerEnabled(s, step)
    ensures ServerNext(s, step).history == if step.Clear? then [] else s.history
  {
  }

  /** In every run, the history is exactly what has been recorded since the last clear; nothing else touches it. */
  lemma {:induction false} HistorySinceClear(acts: seq<Action>, s: State)
    requires Reaches(acts, s)
    ensures s.history == SinceClear(acts)
  {
    if acts != [] {
      var n := |acts| - 1;
      var before := Exec(acts[..n]).value;
      HistorySinceClear(acts[..n], before);
      hide HandlerNext, ServerNext, LastMessage;
      match acts[n] {
        case Server(step) => OnlyClear(before, step);
        case Client(k, c) =>
          HandlerFrame(before, k, c);
          if c.Record? {
            EveryRun(acts[..n], before);
            RecordsLast(before, k);
          }
      }
    }
  }

  // ---------- closed sockets ----------

  predicate WasClosed(s: State, t: Sock) {
    t in s.handlers && t !in s.open
  }

  lemma OnlyCloses(s: State, j: Sock, c: HandlerStep)
    requires HandlerEnabled(s, j, c)
    ensures HandlerNext(s, j, c).open <= s.open
  {
    hide Handshake, NextPacket, DecodePublish, DecodeSubscribe, PublishOut;
  }

  lemma SendsToOpen(s: State, j: Sock, c: HandlerStep, t: Sock)
    requires HandlerEnabled(s, j, c) && (c.SendNext? || c.SendConnack? || c.SendSuback? || c.SendPong?) && t !in s.open
    ensures Box(HandlerNext(s, j, c).outbox, t) == Box(s.outbox, t)
  {
  }

  lemma ClosedByClient(s: State, j: Sock, c: HandlerStep, t: Sock)
    requires WasClosed(s, t) && HandlerEnabled(s, j, c)
    ensures WasClosed(HandlerNext(s, j, c), t) && Box(HandlerNext(s, j, c).outbox, t) == Box(s.outbox, t)
  {
    HandlerEffect(s, j, c);
    HandlerFrame(s, j, c);
    OnlyCloses(s, j, c);
    if c.SendNext? || c.SendConnack? || c.SendSuback? || c.SendPong? {
      SendsToOpen(s, j, c, t);
    }
  }

  lemma ClosedByServer(s: State, step: ServerStep, t: Sock)
    requires WasClosed(s, t) && ServerEnabled(s, step)
    ensures WasClosed(ServerNext(s, step), t) && Box(ServerNext(s, step).outbox, t) == Box(s.outbox, t)
  {
  }

  /** A socket that has been closed stays closed, and nothing more is sent to it, for the rest of the run. */
  lemma {:induction false} ClosedStaysSilent(acts: seq<Action>, s: State, i: nat, t: Sock)
    requires Reaches(acts, s) && i <= |acts| && Exec(acts[..i]).Some? && WasClosed(Exec(acts[..i]).value, t)
    ensures WasClosed(s, t) && Box(s.outbox, t) == Box(Exec(acts[..i]).value.outbox, t)
  {
    if i == |acts| {
      assert acts[..i] == acts;
    } else {
      var n := |acts| - 1;
      var before := Exec(acts[..n]).value;
      assert acts[..n][..i] == acts[..i];
      ClosedStaysSilent(acts[..n], before, i, t);
      hide HandlerNext, ServerNext, HandlerEnabled, ServerEnabled, WasClosed;
      match acts[n] {
        case Server(step) => ClosedByServer(before, step, t);
        case Client(j, c) => ClosedByClient(before, j, c, t);
      }
    }
  }
}
