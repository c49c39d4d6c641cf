/**
 The packet loop of one handler, as a method over a byte stream, and the handlers of the
 runs agree on what is read.
 */
module BrokerReading {
  import opened Framing
  import opened BrokerRuns
  import opened Broker
  import opened BrokerInvariants
  import opened BrokerTheorems
  import opened BrokerOwnership

  /** Only the last packet read can be one that ends the connection, and then the handler reads no more. */
  ghost predicate LoopOk(s: State) {
    forall k :: k in s.handlers ==> LoopAt(s.handlers[k])
  }

  predicate LoopAt(h: Handler) {
    && (forall i :: 0 <= i < |h.read| - 1 ==> Serviced(h.read[i]))
    && (h.read != [] && !Serviced(h.read[|h.read| - 1]) ==> Ending(h))
  }

  predicate Ending(h: Handler) {
    h.pc.Rejecting? || h.pc.Leaving? || h.rejected || !Live(h.pc)
  }

  lemma EndingKept(s: State, k: Sock, c: HandlerStep)
    requires HandlerEnabled(s, k, c) && !c.Read? && !c.Admit?
    ensures Ending(s.handlers[k]) ==> Ending(HandlerNext(s, k, c).handlers[k])
  {
    hide NextPacket;
  }

  lemma LoopRead(s: State, k: Sock)
    requires LoopOk(s) && RejectedOk(s) && HandlerEnabled(s, k, Read)
    ensures LoopAt(HandlerNext(s, k, Read).handlers[k])
  {
    var h, h' := s.handlers[k], HandlerNext(s, k, Read).handlers[k];
    var p := OnePacketRead(s, k);
    ServicedGoesOn(p);
    assert LoopAt(h) && !h.rejected;
    assert forall i :: 0 <= i < |h.read| ==> h'.read[i] == h.read[i];
  }

  lemma LoopKept(s: State, k: Sock, c: HandlerStep)
    requires LoopOk(s) && Reads(s) && HandlerEnabled(s, k, c) && !c.Read?
    ensures LoopAt(HandlerNext(s, k, c).handlers[k])
  {
    HandlerEffect(s, k, c);
    if !c.Admit? {
      EndingKept(s, k, c);
    }
    LoopFrame(s.handlers[k], HandlerNext(s, k, c).handlers[k]);
  }

  lemma LoopFrame(h: Handler, h': Handler)
    requires LoopAt(h) && h'.read == h.read && (h.read != [] && Ending(h) ==> Ending(h'))
    ensures LoopAt(h')
  {
  }

  lemma LoopClient(s: State, k: Sock, c: HandlerStep)
    requires LoopOk(s) && RejectedOk(s) && Reads(s) && HandlerEnabled(s, k, c)
    ensures LoopOk(HandlerNext(s, k, c))
  {
    HandlerEffect(s, k, c);
    if c.Read? {
      LoopRead(s, k);
    } else {
      LoopKept(s, k, c);
    }
    OthersLoop(s, HandlerNext(s, k, c), k);
  }

  lemma OthersLoop(s: State, s': State, k: Sock)
    requires LoopOk(s) && k in s'.handlers && s'.handlers == s.handlers[k := s'.handlers[k]] && LoopAt(s'.handlers[k])
    ensures LoopOk(s')
  {
  }

  lemma LoopServer(s: State, step: ServerStep)
    requires LoopOk(s) && ServerEnabled(s, step)
    ensures LoopOk(ServerNext(s, step))
  {
  }

  lemma LoopStep(s: State, a: Action)
    requires LoopOk(s) && RejectedOk(s) && Reads(s) && Enabled(s, a)
    ensures LoopOk(Next(s, a))
  {
    match a {
      case Server(step) => LoopServer(s, step);
      case Client(k, c) => LoopClient(s, k, c);
    }
  }

  lemma {:induction false} LoopRuns(acts: seq<Action>, s: State)
    requires Reaches(acts, s)
    ensures LoopOk(s)
  {
    if acts != [] {
      var before := Exec(acts[..|acts| - 1]).value;
      LoopRuns(acts[..|acts| - 1], before);
      EveryRun(acts[..|acts| - 1], before);
      RejectedRuns(acts[..|acts| - 1], before);
      LoopStep(before, acts[|acts| - 1]);
    }
  }

  lemma {:induction false} UpToEndPrefix(read: seq<Packet>, more: seq<Packet>)
    requires forall i :: 0 <= i < |read| - 1 ==> Serviced(read[i])
    ensures read <= UpToEnd(read + more)
  {
    if read != [] {
      var all := read + more;
      assert all[0] == read[0] && all[1..] == read[1..] + more;
      assert read == [read[0]] + read[1..];
      if |read| > 1 {
        UpToEndPrefix(read[1..], more);
      }
    }
  }

  /** In every run, what a handler has read is a front part of what the packet loop dispatches of its peer's bytes. */
  lemma HandlersFollowTheLoop(acts: seq<Action>, s: State, k: Sock)
    requires Reaches(acts, s) && k in s.handlers && s.handlers[k].read != []
    ensures Handshake(s.handlers[k].stream).Some?
    ensures s.handlers[k].read <= UpToEnd(AllPackets(Handshake(s.handlers[k].stream).value.1))
  {
    EveryRun(acts, s);
    LoopRuns(acts, s);
    UpToEndPrefix(s.handlers[k].read, AllPackets(s.handlers[k].inbound));
  }
}
