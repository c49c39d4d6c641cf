/**
 Which clients the sweep of `stop` misses.
 */
module BrokerStop {
  import opened Framing
  import opened Broker
  import opened BrokerRuns
  import opened BrokerInvariants
  import opened BrokerTheorems
  import opened BrokerOwnership

  /** The step is a CONNECT by another handler with the id of k, which has yet to leave. */
  predicate TakesId(s: State, a: Action, k: Sock) {
    && a.Client? && a.c.Admit? && HandlerEnabled(s, a.k, a.c)
    && a.k != k && k in s.handlers && Live(s.handlers[k].pc)
    && ChosenId(s.handlers[a.k], a.c.anonymous) == s.handlers[k].id
  }

  predicate DisplacedAt(acts: seq<Action>, i: nat, k: Sock)
    requires i < |acts|
  {
    Exec(acts[..i]).Some? && TakesId(Exec(acts[..i]).value, acts[i], k)
  }

  /** At some step of the run another client took the id of k. */
  ghost predicate Displaced(acts: seq<Action>, k: Sock) {
    exists i :: 0 <= i < |acts| && DisplacedAt(acts, i, k)
  }

  lemma DisplacedLast(acts: seq<Action>, k: Sock)
    requires acts != []
    ensures var n := |acts| - 1;
            Displaced(acts, k) <==> Displaced(acts[..n], k) || DisplacedAt(acts, n, k)
  {
    hide DisplacedAt;
    var n := |acts| - 1;
    forall i | 0 <= i < n ensures DisplacedAt(acts, i, k) <==> DisplacedAt(acts[..n], i, k) {
      DisplacedFront(acts, i, k);
    }
  }

  lemma DisplacedFront(acts: seq<Action>, i: nat, k: Sock)
    requires i < |acts| - 1
    ensures DisplacedAt(acts, i, k) <==> DisplacedAt(acts[..|acts| - 1], i, k)
  {
    assert acts[..i] == acts[..|acts| - 1][..i];
  }

  /**
   What is known of k when it has been displaced, or has not: nobody is displaced before
   being admitted, a displaced client never has a session again, and one that is not
   displaced keeps its session as long as its socket is open and the map is not swept.
   */
  predicate Known(s: State, k: Sock, displaced: bool) {
    && (displaced ==> k in s.handlers && !s.handlers[k].pc.Handshaking? && !HasSession(s, k))
    && (!displaced && !s.phase.Swept? && k in s.handlers && Live(s.handlers[k].pc) && k in s.open ==> HasSession(s, k))
  }

  lemma KnownServer(s: State, step: ServerStep, k: Sock, displaced: bool)
    requires Known(s, k, displaced) && Threads(s) && ServerEnabled(s, step)
    ensures Known(ServerNext(s, step), k, displaced)
  {
    if step.JoinAll? {
      ThreadsServer(s, step);
    }
  }

  lemma KnownAdmit(s: State, j: Sock, anonymous: Id, k: Sock, displaced: bool)
    requires Known(s, k, displaced) && SessionsHeld(s) && HandlerEnabled(s, j, Admit(anonymous))
    ensures Known(HandlerNext(s, j, Admit(anonymous)), k, displaced || TakesId(s, Client(j, Admit(anonymous)), k))
  {
  }

  /** `remove_session` of another handler with the id of k closes the socket of k, if k has the session. */
  lemma KnownRemove(s: State, j: Sock, c: HandlerStep, k: Sock, displaced: bool)
    requires Known(s, k, displaced) && HandlerEnabled(s, j, c) && (c.Reject? || c.Leave?)
    ensures Known(HandlerNext(s, j, c), k, displaced)
  {
  }

  lemma KnownQuiet(s: State, j: Sock, c: HandlerStep, k: Sock, displaced: bool)
    requires Known(s, k, displaced) && HandlerEnabled(s, j, c) && !c.Admit? && !c.Reject? && !c.Leave?
    ensures Known(HandlerNext(s, j, c), k, displaced)
  {
    var s' := HandlerNext(s, j, c);
    HandlerEffect(s, j, c);
    HandlerFrame(s, j, c);
    LiveKept(s, j, c);
    SameSockets(s, j, c);
    KnownFrame(s, s', j, k, displaced);
  }

  /** These steps only ever close sockets, and leave whose session is whose. */
  lemma SameSockets(s: State, j: Sock, c: HandlerStep)
    requires HandlerEnabled(s, j, c) && !c.Admit? && !c.Reject? && !c.Leave?
    ensures var s' := HandlerNext(s, j, c);
            && s'.open <= s.open && !s'.handlers[j].pc.Handshaking?
            && s'.sessions.Keys == s.sessions.Keys
            && forall id :: id in s.sessions ==> s'.sessions[id].sock == s.sessions[id].sock
  {
    hide NextPacket;
  }

  lemma KnownFrame(s: State, s': State, j: Sock, k: Sock, displaced: bool)
    requires Known(s, k, displaced) && s'.phase == s.phase && s'.open <= s.open
    requires j in s.handlers && j in s'.handlers && s'.handlers == s.handlers[j := s'.handlers[j]]
    requires s'.handlers[j].id == s.handlers[j].id && !s'.handlers[j].pc.Handshaking?
    requires Live(s'.handlers[j].pc) ==> Live(s.handlers[j].pc)
    requires s'.sessions.Keys == s.sessions.Keys
    requires forall id :: id in s.sessions ==> s'.sessions[id].sock == s.sessions[id].sock
    ensures Known(s', k, displaced)
  {
  }

  lemma KnownStep(s: State, a: Action, k: Sock, displaced: bool)
    requires Known(s, k, displaced) && Threads(s) && SessionsHeld(s) && Enabled(s, a)
    ensures Known(Next(s, a), k, displaced || TakesId(s, a, k))
  {
    match a {
      case Server(step) => KnownServer(s, step, k, displaced);
      case Client(j, c) =>
        if c.Admit? {
          KnownAdmit(s, j, c.anonymous, k, displaced);
        } else if c.Reject? || c.Leave? {
          KnownRemove(s, j, c, k, displaced);
        } else {
          KnownQuiet(s, j, c, k, displaced);
        }
    }
  }

  lemma {:induction false} KnownRuns(acts: seq<Action>, s: State, k: Sock)
    requires Reaches(acts, s)
    ensures Known(s, k, Displaced(acts, k))
  {
    if acts != [] {
      var n := |acts| - 1;
      var before := Exec(acts[..n]).value;
      KnownRuns(acts[..n], before, k);
      EveryRun(acts[..n], before);
      DisplacedLast(acts, k);
      KnownStep(before, acts[n], k, Displaced(acts[..n], k));
    }
  }

  /** Until the sweep, a client whose socket is open has a session if and only if nobody has taken its id. */
  lemma SessionUnlessDisplaced(acts: seq<Action>, s: State, k: Sock)
    requires Reaches(acts, s) && !s.phase.Swept? && k in s.handlers && Live(s.handlers[k].pc) && k in s.open
    ensures HasSession(s, k) <==> !Displaced(acts, k)
  {
    KnownRuns(acts, s, k);
  }

  lemma SweptSockets(s: State, k: Sock)
    requires SessionsHeld(s) && k in s.handlers
    ensures k in AllSockets(s.sessions) <==> HasSession(s, k)
  {
  }

  /**
   The sweep of `stop` misses exactly the displaced: of the handlers that have been
   admitted and have yet to leave, those whose sockets are open stay open after it if and
   only if another client has taken their id.
   */
  lemma SweepMissesExactly(acts: seq<Action>, s: State, k: Sock)
    requires Reaches(acts, s) && ServerEnabled(s, SweepSessions)
    requires k in s.handlers && Live(s.handlers[k].pc) && k in s.open
    ensures k in ServerNext(s, SweepSessions).open <==> Displaced(acts, k)
  {
    EveryRun(acts, s);
    SessionUnlessDisplaced(acts, s, k);
    SweptSockets(s, k);
  }

  lemma {:induction false} NobodyDisplaced(acts: seq<Action>, s: State, k: Sock)
    requires DistinctRun(acts, s)
    ensures !Displaced(acts, k)
  {
    if acts != [] {
      var n := |acts| - 1;
      var before := Exec(acts[..n]).value;
      NobodyDisplaced(acts[..n], before, k);
      DisplacedLast(acts, k);
      assert FreshId(before, acts[n]);
    }
  }

  /**
   In particular, without duplicate ids the sweep reaches everybody: no handler that has
   been admitted and has yet to leave has an open socket after it, so none is left waiting
   for its peer.
   */
  lemma SweepReachesAll(acts: seq<Action>, s: State, k: Sock)
    requires DistinctRun(acts, s) && ServerEnabled(s, SweepSessions) && k in s.handlers && Live(s.handlers[k].pc)
    ensures k !in ServerNext(s, SweepSessions).open
    ensures !HandlerEnabled(ServerNext(s, SweepSessions), k, Read)
  {
    NobodyDisplaced(acts, s, k);
    if k in s.open {
      SweepMissesExactly(acts, s, k);
    }
  }
}
