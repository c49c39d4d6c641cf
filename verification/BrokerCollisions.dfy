/**
 Runs of the MQTT server in which two clients use one id: the second takes the session
 over, a rejected client takes the session of its successor with it, and a displaced
 client holds up `stop`.
 */
module BrokerCollisions {
  import opened Sequences
  import opened Packets
  import opened Framing
  import opened Broker
  import opened BrokerRuns
  import opened BrokerInvariants
  import opened BrokerTheorems
  import opened BrokerOwnership
  import ThreadGroup

  const X: Id := [120]
  const TWICE: Connect := Connect.Connect(X, 0, 2)

  function ConnectFrame(): bytes {
    FramePacket(CONNECT * 16, ConnectBody(TWICE))
  }

  /** A SUBSCRIBE without a packet id. */
  function BadSubscribe(): bytes {
    FramePacket(SUBSCRIBE * 16 + 2, [])
  }

  lemma ConnectAccepted(rest: bytes)
    ensures Handshake(ConnectFrame() + rest) == Some((TWICE, rest))
  {
    FrameRoundTrip(CONNECT * 16, ConnectBody(TWICE), rest);
    ConnectExact(ConnectBody(TWICE), TWICE);
  }

  lemma BadSubscribeRead()
    ensures NextPacket(BadSubscribe()) == Some((Packet(SUBSCRIBE, []), []))
    ensures AfterRead(Packet(SUBSCRIBE, [])) == Rejecting && Requested([Packet(SUBSCRIBE, [])]) == []
  {
    FrameRoundTrip(SUBSCRIBE * 16 + 2, [], []);
    assert BadSubscribe() + [] == BadSubscribe();
    ReadSnoc([], Packet(SUBSCRIBE, []));
    assert [] + [Packet(SUBSCRIBE, [])] == [Packet(SUBSCRIBE, [])];
  }

  /** A connection whose peer will send this, before anything has been read. */
  function Peer(stream: bytes): Handler {
    Handler(stream, stream, [], [], Handshaking, false)
  }

  function Newcomer(rest: bytes): Handler {
    Peer(ConnectFrame() + rest)
  }

  lemma Do(acts: seq<Action>, s: State, a: Action) returns (longer: seq<Action>, s': State)
    requires Reaches(acts, s) && Enabled(s, a)
    ensures longer == acts + [a] && Reaches(longer, s') && s' == Next(s, a)
  {
    Extend(acts, s, a);
    longer, s' := acts + [a], Next(s, a);
  }

  /** Two peers are connected, and neither has sent its CONNECT. */
  function TwoAccepted(first: bytes, second: bytes): State {
    State(Serving, Adding(2), [1], map[1 := Peer(first), 2 := Peer(second)], map[], {1, 2},
          [], map[], [], 0, map[], {}, {})
  }

  lemma OneKept()
    ensures ThreadGroup.Unfinished([1], [false]) == [1]
  {
    assert [1][1..] == [];
  }

  lemma ReachTwo(first: bytes, second: bytes) returns (acts: seq<Action>, s: State)
    ensures Reaches(acts, s) && s == TwoAccepted(first, second)
  {
    acts, s := Do([], INIT, Server(Start));
    acts, s := Do(acts, s, Server(Accept(1, first)));
    acts, s := Do(acts, s, Server(AddThread));
    assert s.group == [1];
    OneKept();
    acts, s := Do(acts, s, Server(JoinFinished([false])));
    acts, s := Do(acts, s, Server(Accept(2, second)));
    assert s.handlers == TwoAccepted(first, second).handlers && s.open == {1, 2};
  }

  function Admitted(rest: bytes, pc: Pc): Handler {
    Newcomer(rest).(inbound := rest, id := X, pc := pc)
  }

  /** Where everybody is, in a run with these two peers. */
  predicate Stage(s: State, phase: Phase, acceptor: Acceptor, group: seq<Sock>, h1: Handler, h2: Handler,
                  sessions: Sessions, sockets: set<Sock>)
  {
    && s.phase == phase && s.acceptor == acceptor && s.group == group && s.handlers == map[1 := h1, 2 := h2]
    && s.sessions == sessions && s.open == sockets
  }

  lemma AdmitSecond(s: State, h1: Handler, sessions: Sessions, sockets: set<Sock>)
    requires Stage(s, Serving, Adding(2), [1], h1, Newcomer([]), sessions, sockets)
    ensures Enabled(s, Client(2, Admit([97]))) && ChosenId(s.handlers[2], [97]) == X
    ensures Stage(Next(s, Client(2, Admit([97]))), Serving, Adding(2), [1], h1, Admitted([], Connacking),
            sessions[X := Session(2, [])], sockets)
  {
    hide Handshake, ConnectFrame;
    ConnectAccepted([]);
  }

  /** Both have sent a CONNECT with the id "x": both are registered, and only the second has a session. */
  lemma SecondConnectTakesOver() returns (acts: seq<Action>, s: State)
    ensures Reaches(acts, s)
    ensures Stage(s, Serving, Adding(2), [1], Admitted([], Connacking), Admitted([], Connacking),
                  map[X := Session(2, [])], {1, 2})
    ensures Holding(s.handlers[1]) && s.handlers[1].id == X && !Ownership(s)
  {
    hide Next, Enabled, Reaches;
    acts, s := ReachTwo(ConnectFrame() + [], ConnectFrame() + []);
    AdmitFirst(s, []);
    acts, s := Do(acts, s, Client(1, Admit([97])));
    AdmitSecond(s, Admitted([], Connacking), map[X := Session(1, [])], {1, 2});
    acts, s := Do(acts, s, Client(2, Admit([97])));
    assert !Owned(s, 1);
  }

  // ---------- a rejected client ----------

  function Turned(pc: Pc, rejected: bool): Handler {
    Handler(ConnectFrame() + BadSubscribe(), [], X, [Packet(SUBSCRIBE, [])], pc, rejected)
  }

  /** Handler 1 is h1 while peer 2 has not sent anything yet. */
  predicate Alone(s: State, h1: Handler, sessions: Sessions, sockets: set<Sock>) {
    Stage(s, Serving, Adding(2), [1], h1, Newcomer([]), sessions, sockets)
  }

  lemma AdmitFirst(s: State, rest: bytes)
    requires Alone(s, Newcomer(rest), map[], {1, 2})
    ensures Enabled(s, Client(1, Admit([97])))
    ensures Alone(Next(s, Client(1, Admit([97]))), Admitted(rest, Connacking), map[X := Session(1, [])], {1, 2})
  {
    hide Handshake, ConnectFrame;
    ConnectAccepted(rest);
  }

  lemma EnterFirst(s: State, rest: bytes, sessions: Sessions)
    requires Alone(s, Admitted(rest, Connacking), sessions, {1, 2})
    ensures Enabled(s, Client(1, SendConnack(true)))
    ensures var s1 := Next(s, Client(1, SendConnack(true)));
            && Enabled(s1, Client(1, Enter))
            && Alone(Next(s1, Client(1, Enter)), Admitted(rest, Reading), sessions, {1, 2})
  {
  }

  lemma ReadBad(s: State, sessions: Sessions)
    requires Alone(s, Admitted(BadSubscribe(), Reading), sessions, {1, 2})
    ensures Enabled(s, Client(1, Read))
    ensures Alone(Next(s, Client(1, Read)), Turned(Rejecting, false), sessions, {1, 2})
  {
    BadSubscribeRead();
    assert [] + [Packet(SUBSCRIBE, [])] == [Packet(SUBSCRIBE, [])];
  }

  lemma RejectFirst(s: State)
    requires Alone(s, Turned(Rejecting, false), map[X := Session(1, [])], {1, 2})
    ensures Enabled(s, Client(1, Reject))
    ensures Alone(Next(s, Client(1, Reject)), Turned(RejectClosing, true), map[], {2})
  {
    assert {1, 2} - {1} == {2};
  }

  /** Client 1 sends a SUBSCRIBE outside the grammar: its session is removed and its socket closed. */
  lemma FirstRejected() returns (acts: seq<Action>, s: State)
    ensures Reaches(acts, s) && Alone(s, Turned(RejectClosing, true), map[], {2})
  {
    hide Next, Enabled, Reaches;
    acts, s := ReachTwo(ConnectFrame() + BadSubscribe(), ConnectFrame() + []);
    AdmitFirst(s, BadSubscribe());
    acts, s := Do(acts, s, Client(1, Admit([97])));
    EnterFirst(s, BadSubscribe(), map[X := Session(1, [])]);
    acts, s := Do(acts, s, Client(1, SendConnack(true)));
    acts, s := Do(acts, s, Client(1, Enter));
    ReadBad(s, map[X := Session(1, [])]);
    acts, s := Do(acts, s, Client(1, Read));
    RejectFirst(s);
    acts, s := Do(acts, s, Client(1, Reject));
  }

  lemma SuccessorOwns(s: State)
    requires Stage(s, Serving, Adding(2), [1], Turned(RejectClosing, true), Admitted([], Connacking),
             map[X := Session(2, [])], {2})
    ensures Ownership(s) && SharedAt(s, 2, 1) && s.handlers[2].id == X
  {
    assert Owned(s, 2);
  }

  lemma NobodyHolds(s: State)
    requires Alone(s, Turned(RejectClosing, true), map[], {2})
    ensures !HeldByAnother(s, 2, X)
  {
  }

  /**
   A second way to lose a session. Client 1 has been rejected and its session is gone
   when client 2 connects with the same id: nobody else relies on it, and client 2 owns
   its session. Then the handler of client 1 comes to its end and runs `remove_session`
   for the id once more: the session of client 2 is gone, and its socket is closed.
   */
  lemma RejectedClientTakesSession() returns (acts: seq<Action>, s: State, more: seq<Action>, s': State)
    ensures Reaches(acts, s) && Enabled(s, Client(2, Admit([97])))
    ensures ChosenId(s.handlers[2], [97]) == X && !HeldByAnother(s, 2, X)
    ensures var s1 := Next(s, Client(2, Admit([97])));
            Ownership(s1) && Continues(s1, more, s') && !Ownership(s')
    ensures 2 in s'.handlers && Holding(s'.handlers[2]) && s'.handlers[2].id == X && X !in s'.sessions && 2 !in s'.open
  {
    hide Next, Enabled, Reaches, Ownership, HeldByAnother;
    acts, s := FirstRejected();
    NobodyHolds(s);
    AdmitSecond(s, Turned(RejectClosing, true), map[], {2});
    var longer, s1 := Do(acts, s, Client(2, Admit([97])));
    SuccessorOwns(s1);
    EveryRun(longer, s1);
    RejectedRuns(longer, s1);
    more, s' := SharedBreaks(s1, 2, 1);
  }

  // ---------- a displaced client and stop ----------

  const DISPLACED: Handler := Admitted([], Reading)

  lemma EnterDisplaced(s: State)
    requires Stage(s, Serving, Adding(2), [1], Admitted([], Connacking), Admitted([], Connacking),
             map[X := Session(2, [])], {1, 2})
    ensures Enabled(s, Client(1, SendConnack(true)))
    ensures var s1 := Next(s, Client(1, SendConnack(true)));
            && Enabled(s1, Client(1, Enter))
            && Stage(Next(s1, Client(1, Enter)), Serving, Adding(2), [1], DISPLACED, Admitted([], Connacking),
                map[X := Session(2, [])], {1, 2})
  {
  }

  lemma BothKept()
    ensures ThreadGroup.Unfinished([1, 2], [false, false]) == [1, 2]
  {
    assert [1, 2][1..] == [2] && [false, false][1..] == [false] && [2][1..] == [];
  }

  lemma AcceptorLeaves(acts: seq<Action>, s: State, h: Handler) returns (longer: seq<Action>, s': State)
    requires Reaches(acts, s) && Stage(s, Serving, Adding(2), [1], DISPLACED, h, map[X := Session(2, [])], {1, 2})
    ensures Reaches(longer, s') && Stage(s', Serving, Exited, [1, 2], DISPLACED, h, map[X := Session(2, [])], {1, 2})
  {
    hide Reaches;
    longer, s' := Do(acts, s, Server(AddThread));
    assert s'.group == [1, 2];
    BothKept();
    longer, s' := Do(longer, s', Server(JoinFinished([false, false])));
    longer, s' := Do(longer, s', Server(AcceptorExit));
  }

  lemma OneSocket()
    ensures AllSockets(map[X := Session(2, [])]) == {2}
  {
    var sessions := map[X := Session(2, [])];
    assert X in sessions && sessions[X].sock == 2;
    assert forall id :: id in sessions ==> id == X;
  }

  lemma StopSweeps(acts: seq<Action>, s: State, h: Handler) returns (longer: seq<Action>, s': State)
    requires Reaches(acts, s) && Stage(s, Serving, Exited, [1, 2], DISPLACED, h, map[X := Session(2, [])], {1, 2})
    ensures Reaches(longer, s') && Stage(s', Swept, Exited, [1, 2], DISPLACED, h, map[], {1})
  {
    hide Reaches;
    longer, s' := Do(acts, s, Server(StopBegin));
    longer, s' := Do(longer, s', Server(JoinAcceptor));
    OneSocket();
    longer, s' := Do(longer, s', Server(SweepSessions));
  }

  lemma SecondLeaves(acts: seq<Action>, s: State) returns (longer: seq<Action>, s': State)
    requires Reaches(acts, s) && Stage(s, Swept, Exited, [1, 2], DISPLACED, Admitted([], Connacking), map[], {1})
    ensures Reaches(longer, s') && Stage(s', Swept, Exited, [1, 2], DISPLACED, Admitted([], Done), map[], {1})
  {
    hide Reaches;
    longer, s' := Do(acts, s, Client(2, SendConnack(false)));
    assert Stage(s', Swept, Exited, [1, 2], DISPLACED, Admitted([], Leaving), map[], {1});
    longer, s' := Do(longer, s', Client(2, Leave));
    assert Stage(s', Swept, Exited, [1, 2], DISPLACED, Admitted([], Finishing), map[], {1});
    longer, s' := Do(longer, s', Client(2, Finish));
  }

  lemma OnlyThePeer(s: State, a: Action)
    requires Stage(s, Swept, Exited, [1, 2], DISPLACED, Admitted([], Done), map[], {1}) && Enabled(s, a)
    ensures a == Server(Clear) || a == Client(1, Hangup)
  {
    assert s.group[0] == 1;
  }

  /**
   A client that has lost its session to another one with its id is not in the map that
   `stop` sweeps. Its socket stays open, and `join_all` waits for its thread, which waits
   for the peer: nothing else can happen until the peer closes the connection.
   */
  lemma DisplacedHoldsUpStop() returns (acts: seq<Action>, s: State)
    ensures Reaches(acts, s) && s.phase.Swept? && s.sessions == map[] && s.open == {1}
    ensures 1 in s.handlers && s.handlers[1] == DISPLACED && !ServerEnabled(s, JoinAll)
    ensures forall a :: Enabled(s, a) ==> a == Server(Clear) || a == Client(1, Hangup)
  {
    hide Next, Enabled, Reaches;
    acts, s := SecondConnectTakesOver();
    EnterDisplaced(s);
    acts, s := Do(acts, s, Client(1, SendConnack(true)));
    acts, s := Do(acts, s, Client(1, Enter));
    acts, s := AcceptorLeaves(acts, s, Admitted([], Connacking));
    acts, s := StopSweeps(acts, s, Admitted([], Connacking));
    acts, s := SecondLeaves(acts, s);
    assert s.group[0] == 1;
    forall a | Enabled(s, a) ensures a == Server(Clear) || a == Client(1, Hangup) {
      OnlyThePeer(s, a);
    }
  }
}
