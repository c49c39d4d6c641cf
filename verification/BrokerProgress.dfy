/**
 The broker gets on: every handler comes to its end by itself, and from no state that a
 run reaches is `stop` kept from returning.
 */
module BrokerProgress {
  import opened Packets
  import opened Framing
  import opened Broker
  import opened BrokerRuns
  import opened BrokerInvariants
  import opened BrokerOwnership
  import ThreadGroup

  // ---------- every handler comes to its end ----------

  /** How far the handler is from the end of its loop, apart from what it has still to read. */
  function Rank(pc: Pc): nat {
    match pc
    case Handshaking => 8
    case Recording(_) => 7
    case Routing(_) => 6
    case Subscribing(_) => 6
    case Rejecting => 6
    case Sending(_, _) => 5
    case Connacking => 5
    case Subacking(_) => 5
    case Ponging => 5
    case RejectClosing => 5
    case AtLoop => 4
    case Reading => 3
    case Leaving => 2
    case Finishing => 1
    case Done => 0
  }

  function Greeting(h: Handler): nat {
    if h.pc.Handshaking? then 1 else 0
  }

  function TargetsLeft(h: Handler): nat {
    if h.pc.Sending? then |h.pc.targets| else 0
  }

  /** Lexicographically: first of all to be admitted, then to read less, then the place in the loop. */
  predicate Closer(h': Handler, h: Handler) {
    || Greeting(h') < Greeting(h)
    || (Greeting(h') == Greeting(h) && |h'.inbound| < |h.inbound|)
    || (Greeting(h') == Greeting(h) && |h'.inbound| == |h.inbound| && Rank(h'.pc) < Rank(h.pc))
    || (Greeting(h') == Greeting(h) && |h'.inbound| == |h.inbound| && Rank(h'.pc) == Rank(h.pc)
        && TargetsLeft(h') < TargetsLeft(h))
  }

  lemma LoopAdvances(s: State, k: Sock, c: HandlerStep)
    requires HandlerEnabled(s, k, c) && (c.Enter? || c.Read? || c.Hangup? || c.Leave? || c.Finish?)
    ensures Closer(HandlerNext(s, k, c).handlers[k], s.handlers[k])
  {
    hide DecodePublish, DecodeSubscribe, Handshake;
  }

  lemma OtherAdvances(s: State, k: Sock, c: HandlerStep)
    requires HandlerEnabled(s, k, c) && !c.Enter? && !c.Read? && !c.Hangup? && !c.Leave? && !c.Finish?
    ensures Closer(HandlerNext(s, k, c).handlers[k], s.handlers[k])
  {
    hide NextPacket, Handshake;
  }

  /** Every step of a handler takes it closer to its end, whatever the others do in between. */
  lemma EveryStepAdvances(s: State, k: Sock, c: HandlerStep)
    requires HandlerEnabled(s, k, c)
    ensures Closer(HandlerNext(s, k, c).handlers[k], s.handlers[k])
  {
    if c.Enter? || c.Read? || c.Hangup? || c.Leave? || c.Finish? {
      LoopAdvances(s, k, c);
    } else {
      OtherAdvances(s, k, c);
    }
  }

  lemma {:induction false} SomeOrder(sessions: Sessions, topic: bytes, ids: set<Id>) returns (order: seq<Id>)
    requires ids <= sessions.Keys
    ensures forall i :: 0 <= i < |order| ==> order[i] in ids && Wants(sessions[order[i]], topic)
    ensures forall i, j :: 0 <= i < j < |order| ==> order[i] != order[j]
    ensures forall id :: id in ids && Wants(sessions[id], topic) ==> id in order
  {
    if ids == {} {
      order := [];
    } else {
      var id :| id in ids;
      order := SomeOrder(sessions, topic, ids - {id});
      if Wants(sessions[id], topic) {
        order := order + [id];
      }
    }
  }

  lemma SnapshotExists(sessions: Sessions, topic: bytes) returns (order: seq<Id>)
    ensures Selects(sessions, topic, order)
  {
    order := SomeOrder(sessions, topic, sessions.Keys);
  }

  /** Whatever the others do, a handler that has not finished can take a step. */
  lemma NeverBlocked(s: State, k: Sock) returns (c: HandlerStep)
    requires k in s.handlers && !s.handlers[k].pc.Done?
    ensures HandlerEnabled(s, k, c)
  {
    hide NextPacket, Handshake, Selects;
    var h := s.handlers[k];
    match h.pc {
      case Handshaking => c := if Handshake(h.stream).Some? then Admit([97]) else Refuse;
      case Connacking => c := SendConnack(false);
      case AtLoop => c := Enter;
      case Reading => c := if NextPacket(h.inbound).Some? && k in s.open then Read else Hangup;
      case Recording(_) => c := Record;
      case Routing(m) =>
        var order := SnapshotExists(s.sessions, m.topic);
        c := Route(order);
      case Sending(_, targets) => c := if targets == [] then SendDone else SendNext(false);
      case Subscribing(_) => c := AddFilters;
      case Subacking(_) => c := SendSuback(false);
      case Ponging => c := SendPong(false);
      case Rejecting => c := Reject;
      case RejectClosing => c := RejectClose;
      case Leaving => c := Leave;
      case Finishing => c := Finish;
    }
  }

  /** Every send to a socket that is open may succeed. */
  lemma SendsMaySucceed(s: State, k: Sock)
    requires k in s.handlers
    ensures var h := s.handlers[k];
            && (h.pc.Connacking? && k in s.open ==> HandlerEnabled(s, k, SendConnack(true)))
            && (h.pc.Subacking? && k in s.open ==> HandlerEnabled(s, k, SendSuback(true)))
            && (h.pc.Ponging? && k in s.open ==> HandlerEnabled(s, k, SendPong(true)))
            && (h.pc.Sending? && h.pc.targets != [] && h.pc.targets[0] in s.open ==>
                  HandlerEnabled(s, k, SendNext(true)))
  {
  }

  /** The actions lead from one state to the other. */
  ghost predicate Leads(s: State, more: seq<Action>, s': State)
    decreases |more|
  {
    if more == [] then s' == s else Enabled(s, more[0]) && Leads(Next(s, more[0]), more[1..], s')
  }

  lemma LeadsBy(s: State, a: Action, more: seq<Action>, s': State)
    requires Enabled(s, a) && Leads(Next(s, a), more, s')
    ensures Leads(s, [a] + more, s')
  {
    assert ([a] + more)[1..] == more;
  }

  lemma {:induction false} LeadsOn(s: State, a: seq<Action>, s1: State, b: seq<Action>, s2: State)
    requires Leads(s, a, s1) && Leads(s1, b, s2)
    ensures Leads(s, a + b, s2)
    decreases |a|
  {
    if a == [] {
      assert a + b == b;
    } else {
      LeadsOn(Next(s, a[0]), a[1..], s1, b, s2);
      assert a + b == [a[0]] + (a[1..] + b);
      LeadsBy(s, a[0], a[1..] + b, s2);
    }
  }

  /** What the steps of one handler leave alone. */
  predicate OnlyHandler(s: State, s': State, k: Sock) {
    && s'.phase == s.phase && s'.acceptor == s.acceptor && s'.group == s.group
    && s'.handlers.Keys == s.handlers.Keys && forall j :: j in s.handlers && j != k ==> s'.handlers[j] == s.handlers[j]
  }

  lemma OnlyOne(s: State, k: Sock, c: HandlerStep)
    requires HandlerEnabled(s, k, c)
    ensures OnlyHandler(s, HandlerNext(s, k, c), k)
  {
    HandlerEffect(s, k, c);
    HandlerFrame(s, k, c);
  }

  /** From every state, the steps of one handler alone lead it to its end. */
  lemma {:induction false} ComesToItsEnd(s: State, k: Sock) returns (more: seq<Action>, s': State)
    requires k in s.handlers
    ensures Leads(s, more, s') && OnlyHandler(s, s', k) && s'.handlers[k].pc.Done?
    ensures forall i :: 0 <= i < |more| ==> more[i].Client? && more[i].k == k
    decreases Greeting(s.handlers[k]), |s.handlers[k].inbound|, Rank(s.handlers[k].pc), TargetsLeft(s.handlers[k])
  {
    if s.handlers[k].pc.Done? {
      more, s' := [], s;
    } else {
      var c := NeverBlocked(s, k);
      EveryStepAdvances(s, k, c);
      OnlyOne(s, k, c);
      hide HandlerNext, HandlerEnabled;
      var rest;
      rest, s' := ComesToItsEnd(HandlerNext(s, k, c), k);
      more := [Client(k, c)] + rest;
      LeadsBy(s, Client(k, c), rest, s');
    }
  }

  // ---------- stop can return ----------

  /** Every thread that has been started serves a connection. */
  ghost predicate GroupKnown(s: State) {
    && (forall i :: 0 <= i < |s.group| ==> s.group[i] in s.handlers)
    && (s.acceptor.Adding? ==> s.acceptor.sock in s.handlers)
  }

  lemma GroupServer(s: State, step: ServerStep)
    requires GroupKnown(s) && ServerEnabled(s, step)
    ensures GroupKnown(ServerNext(s, step))
  {
    if step.JoinFinished? {
      var s' := ServerNext(s, step);
      forall i | 0 <= i < |s'.group| ensures s'.group[i] in s'.handlers {
        ThreadGroup.JoinsOnlyRaised(s.group, step.raised, s'.group[i]);
      }
    }
  }

  lemma GroupStep(s: State, a: Action)
    requires GroupKnown(s) && Enabled(s, a)
    ensures GroupKnown(Next(s, a))
  {
    match a {
      case Server(step) => GroupServer(s, step);
      case Client(k, c) =>
        OnlyOne(s, k, c);
        hide HandlerNext;
    }
  }

  lemma {:induction false} GroupRuns(acts: seq<Action>, s: State)
    requires Reaches(acts, s)
    ensures GroupKnown(s)
  {
    if acts != [] {
      var n := |acts| - 1;
      GroupRuns(acts[..n], Exec(acts[..n]).value);
      GroupStep(Exec(acts[..n]).value, acts[n]);
    }
  }

  /** All handlers of a list come to their end, one after the other. */
  lemma {:induction false} AllComeToTheirEnd(s: State, list: seq<Sock>) returns (more: seq<Action>, s': State)
    requires forall i :: 0 <= i < |list| ==> list[i] in s.handlers
    ensures Leads(s, more, s') && s'.phase == s.phase && s'.acceptor == s.acceptor && s'.group == s.group
    ensures s'.handlers.Keys == s.handlers.Keys
    ensures forall i :: 0 <= i < |list| ==> s'.handlers[list[i]].pc.Done?
    ensures forall k :: k in s.handlers && s.handlers[k].pc.Done? ==> s'.handlers[k].pc.Done?
    decreases |list|
  {
    if list == [] {
      more, s' := [], s;
    } else {
      var first, s1 := ComesToItsEnd(s, list[0]);
      var rest;
      rest, s' := AllComeToTheirEnd(s1, list[1..]);
      LeadsOn(s, first, s1, rest, s');
      more := first + rest;
      forall i | 0 <= i < |list| ensures s'.handlers[list[i]].pc.Done? {
        assert i > 0 ==> list[i] == list[1..][i - 1];
      }
    }
  }

  function AcceptorRank(acceptor: Acceptor): nat {
    match acceptor
    case Adding(_) => 3
    case Reaping => 2
    case Accepting => 1
    case Exited => 0
  }

  lemma AcceptorStep(s: State) returns (step: ServerStep)
    requires GroupKnown(s) && s.phase.Closing? && !s.acceptor.Exited?
    ensures ServerEnabled(s, step) && GroupKnown(ServerNext(s, step)) && ServerNext(s, step).phase.Closing?
    ensures AcceptorRank(ServerNext(s, step).acceptor) < AcceptorRank(s.acceptor)
  {
    step := match s.acceptor
      case Adding(_) => AddThread
      case Reaping => JoinFinished(seq(|s.group|, _ => false))
      case _ => AcceptorExit;
    GroupServer(s, step);
  }

  lemma {:induction false} AcceptorEnds(s: State) returns (more: seq<Action>, s': State)
    requires GroupKnown(s) && s.phase.Closing?
    ensures Leads(s, more, s') && GroupKnown(s') && s'.phase.Closing? && s'.acceptor.Exited?
    decreases AcceptorRank(s.acceptor)
  {
    if s.acceptor.Exited? {
      more, s' := [], s;
    } else {
      var step := AcceptorStep(s);
      var rest;
      hide ServerNext, ServerEnabled, GroupKnown;
      rest, s' := AcceptorEnds(ServerNext(s, step));
      more := [Server(step)] + rest;
      LeadsBy(s, Server(step), rest, s');
    }
  }

  lemma SweptReturns(s: State) returns (more: seq<Action>, s': State)
    requires GroupKnown(s) && s.phase.Swept?
    ensures Leads(s, more, s') && s'.phase.Idle?
  {
    var ends, s1 := AllComeToTheirEnd(s, s.group);
    s' := ServerNext(s1, JoinAll);
    assert Leads(s', [], s');
    LeadsBy(s1, Server(JoinAll), [], s');
    assert [Server(JoinAll)] + [] == [Server(JoinAll)];
    LeadsOn(s, ends, s1, [Server(JoinAll)], s');
    more := ends + [Server(JoinAll)];
  }

  function StopStep(s: State): ServerStep {
    match s.phase
    case Serving => StopBegin
    case Closing => JoinAcceptor
    case _ => SweepSessions
  }

  function PhaseRank(phase: Phase): nat {
    match phase
    case Serving => 4
    case Closing => 3
    case Joined => 2
    case Swept => 1
    case Idle => 0
  }

  lemma StopStepEnabled(s: State)
    requires GroupKnown(s) && (s.phase.Serving? || (s.phase.Closing? && s.acceptor.Exited?) || s.phase.Joined?)
    ensures ServerEnabled(s, StopStep(s))
    ensures var s1 := ServerNext(s, StopStep(s)); GroupKnown(s1) && PhaseRank(s1.phase) < PhaseRank(s.phase)
  {
  }

  lemma {:induction false} CanReturn(s: State) returns (more: seq<Action>, s': State)
    requires GroupKnown(s)
    ensures Leads(s, more, s') && s'.phase.Idle?
    decreases PhaseRank(s.phase)
  {
    if s.phase.Idle? {
      more, s' := [], s;
    } else if s.phase.Swept? {
      more, s' := SweptReturns(s);
    } else {
      var front, s1 := [], s;
      if s.phase.Closing? {
        front, s1 := AcceptorEnds(s);
      }
      var step := StopStep(s1);
      StopStepEnabled(s1);
      hide ServerNext, ServerEnabled, GroupKnown, StopStep;
      var rest;
      rest, s' := CanReturn(ServerNext(s1, step));
      LeadsBy(s1, Server(step), rest, s');
      LeadsOn(s, front, s1, [Server(step)] + rest, s');
      more := front + ([Server(step)] + rest);
    }
  }

  lemma {:induction false} LeadsReaches(acts: seq<Action>, s: State, more: seq<Action>, s': State)
    requires Reaches(acts, s) && Leads(s, more, s')
    ensures Reaches(acts + more, s')
    decreases |more|
  {
    if more == [] {
      assert acts + more == acts;
    } else {
      Extend(acts, s, more[0]);
      LeadsReaches(acts + [more[0]], Next(s, more[0]), more[1..], s');
      assert acts + [more[0]] + more[1..] == acts + more;
    }
  }

  /**
   No run ever reaches a state from which `stop` could not return: whatever has happened,
   with duplicate ids or without, some continuation ends with the server stopped.
   */
  lemma StopCanReturn(acts: seq<Action>, s: State) returns (more: seq<Action>, s': State)
    requires Reaches(acts, s)
    ensures Leads(s, more, s') && Reaches(acts + more, s') && s'.phase.Idle?
  {
    GroupRuns(acts, s);
    more, s' := CanReturn(s);
    LeadsReaches(acts, s, more, s');
  }
}
