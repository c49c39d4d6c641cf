/**
 When a client can rely on its session: that it is its own and holds exactly the filters
 it asked for. Which steps break that, and from which states no later step can, unless
 one more client id is used twice.
 */
module BrokerOwnership {
  import opened Packets
  import opened Framing
  import opened Topics
  import opened Broker
  import opened BrokerRuns
  import opened BrokerInvariants
  import opened BrokerTheorems

  /** Filters of a SUBSCRIBE that has been read but not yet entered in the session. */
  function Unentered(h: Handler): seq<bytes> {
    if h.pc.Subscribing? then Filters(h.pc.sub.entries) else []
  }

  ghost predicate Owned(s: State, k: Sock)
    requires k in s.handlers
  {
    var h := s.handlers[k];
    && h.id in s.sessions && s.sessions[h.id].sock == k
    && s.sessions[h.id].filters + Unentered(h) == Requested(h.read)
  }

  /** Unless `stop` has just swept the map, every registered handler owns the session of its id. */
  ghost predicate Ownership(s: State) {
    !s.phase.Swept? ==> forall k :: k in s.handlers && Holding(s.handlers[k]) ==> Owned(s, k)
  }

  ghost predicate DistinctIds(s: State) {
    forall j, k :: j in s.handlers && k in s.handlers && j != k && Live(s.handlers[j].pc) && Live(s.handlers[k].pc) ==>
      s.handlers[j].id != s.handlers[k].id
  }

  /** A CONNECT does not use the id of a handler that has yet to leave. */
  ghost predicate FreshId(s: State, a: Action)
    requires Enabled(s, a)
  {
    a.Client? && a.c.Admit? ==>
      forall j :: j in s.handlers && Live(s.handlers[j].pc) ==>
          s.handlers[j].id != ChosenId(s.handlers[a.k], a.c.anonymous)
  }

  lemma LiveKept(s: State, k: Sock, c: HandlerStep)
    requires HandlerEnabled(s, k, c) && !c.Admit?
    ensures Live(HandlerNext(s, k, c).handlers[k].pc) ==> Live(s.handlers[k].pc)
    ensures Holding(HandlerNext(s, k, c).handlers[k]) ==> Holding(s.handlers[k])
    ensures !c.Read? && !c.AddFilters? ==> Unentered(HandlerNext(s, k, c).handlers[k]) == Unentered(s.handlers[k])
  {
  }

  lemma DistinctFrame(s: State, s': State, k: Sock)
    requires DistinctIds(s) && k in s.handlers && k in s'.handlers && s'.handlers == s.handlers[k := s'.handlers[k]]
    requires Live(s'.handlers[k].pc) ==> Live(s.handlers[k].pc) && s'.handlers[k].id == s.handlers[k].id
    ensures DistinctIds(s')
  {
  }

  lemma DistinctAdmit(s: State, k: Sock, anonymous: Id)
    requires DistinctIds(s) && HandlerEnabled(s, k, Admit(anonymous)) && FreshId(s, Client(k, Admit(anonymous)))
    ensures DistinctIds(HandlerNext(s, k, Admit(anonymous)))
  {
  }

  lemma DistinctStep(s: State, a: Action)
    requires DistinctIds(s) && Enabled(s, a) && FreshId(s, a)
    ensures DistinctIds(Next(s, a))
  {
    match a {
      case Server(step) => DistinctServer(s, step);
      case Client(k, c) => DistinctClient(s, k, c);
    }
  }

  lemma DistinctServer(s: State, step: ServerStep)
    requires DistinctIds(s) && ServerEnabled(s, step)
    ensures DistinctIds(ServerNext(s, step))
  {
  }

  lemma DistinctClient(s: State, k: Sock, c: HandlerStep)
    requires DistinctIds(s) && HandlerEnabled(s, k, c) && FreshId(s, Client(k, c))
    ensures DistinctIds(HandlerNext(s, k, c))
  {
    if c.Admit? {
      DistinctAdmit(s, k, c.anonymous);
    } else {
      IdFate(s, k, c);
      DistinctFrame(s, HandlerNext(s, k, c), k);
    }
  }

  lemma IdFate(s: State, k: Sock, c: HandlerStep)
    requires HandlerEnabled(s, k, c) && !c.Admit?
    ensures var h, s' := s.handlers[k], HandlerNext(s, k, c);
            && s'.handlers == s.handlers[k := s'.handlers[k]]
            && (Live(s'.handlers[k].pc) ==> Live(h.pc) && s'.handlers[k].id == h.id)
  {
    HandlerEffect(s, k, c);
    LiveKept(s, k, c);
  }

  lemma OwnershipServer(s: State, step: ServerStep)
    requires Ownership(s) && Threads(s) && ServerEnabled(s, step)
    ensures Ownership(ServerNext(s, step))
  {
    var s' := ServerNext(s, step);
    if step.JoinAll? {
      ThreadsServer(s, step);
    } else {
      forall k | !s'.phase.Swept? && k in s'.handlers && Holding(s'.handlers[k]) ensures Owned(s', k) {
        assert Owned(s, k);
      }
    }
  }

  /** Steps of k that leave the session map alone, or change only the entry of k's own id. */
  lemma OwnershipOthers(s: State, s': State, k: Sock)
    requires Ownership(s) && s'.phase == s.phase
    requires k in s'.handlers && s'.handlers == s.handlers[k := s'.handlers[k]]
    requires forall j :: j in s.handlers && j != k && Holding(s.handlers[j]) ==>
               (s.handlers[j].id in s.sessions ==>
                   s.handlers[j].id in s'.sessions && s'.sessions[s.handlers[j].id] == s.sessions[s.handlers[j].id])
    requires !s.phase.Swept? && Holding(s'.handlers[k]) ==> Owned(s', k)
    ensures Ownership(s')
  {
    forall j | !s'.phase.Swept? && j in s'.handlers && Holding(s'.handlers[j]) ensures Owned(s', j) {
      if j != k {
        assert Owned(s, j);
      }
    }
  }

  lemma Entitled(h: Handler, h': Handler, p: Packet)
    requires h'.read == h.read + [p] && h'.pc == AfterRead(p)
    ensures Requested(h'.read) == Requested(h.read) + Unentered(h')
  {
    ReadSnoc(h.read, p);
    assert Unentered(h') == FiltersOf(p);
  }

  lemma OwnedAfterRead(s: State, s': State, k: Sock)
    requires k in s.handlers && k in s'.handlers && Owned(s, k) && s'.sessions == s.sessions
    requires Unentered(s.handlers[k]) == [] && s'.handlers[k].id == s.handlers[k].id
    requires Requested(s'.handlers[k].read) == Requested(s.handlers[k].read) + Unentered(s'.handlers[k])
    ensures Owned(s', k)
  {
    var filters := s.sessions[s.handlers[k].id].filters;
    assert filters + [] == filters;
  }

  lemma OwnershipReadStep(s: State, s': State, k: Sock)
    requires Ownership(s) && s'.phase == s.phase && s'.sessions == s.sessions
    requires k in s.handlers && k in s'.handlers && s'.handlers == s.handlers[k := s'.handlers[k]]
    requires Unentered(s.handlers[k]) == [] && s'.handlers[k].id == s.handlers[k].id
    requires Holding(s'.handlers[k]) ==> Holding(s.handlers[k])
    requires Requested(s'.handlers[k].read) == Requested(s.handlers[k].read) + Unentered(s'.handlers[k])
    ensures Ownership(s')
  {
    if !s.phase.Swept? && Holding(s'.handlers[k]) {
      OwnedAfterRead(s, s', k);
    }
    OwnershipOthers(s, s', k);
  }

  lemma OwnershipRead(s: State, k: Sock)
    requires Ownership(s) && HandlerEnabled(s, k, Read)
    ensures Ownership(HandlerNext(s, k, Read))
  {
    var s' := HandlerNext(s, k, Read);
    HandlerFrame(s, k, Read);
    var p := OnePacketRead(s, k);
    Entitled(s.handlers[k], s'.handlers[k], p);
    OwnershipReadStep(s, s', k);
  }

  lemma OnePacketRead(s: State, k: Sock) returns (p: Packet)
    requires HandlerEnabled(s, k, Read)
    ensures var h, s' := s.handlers[k], HandlerNext(s, k, Read);
            && s'.handlers == s.handlers[k := s'.handlers[k]] && s'.handlers[k].id == h.id
            && s'.handlers[k].read == h.read + [p] && s'.handlers[k].pc == AfterRead(p)
            && Holding(s'.handlers[k]) == Holding(h) && Unentered(h) == []
  {
    p := NextPacket(s.handlers[k].inbound).value.0;
  }

  // ---------- rejected clients ----------

  /**
   After a SUBSCRIBE outside the grammar a handler only winds up, with its socket closed
   once `sock_close` has run.
   */
  ghost predicate RejectedOk(s: State) {
    forall k :: k in s.handlers && s.handlers[k].rejected ==> WindingUp(s.handlers[k].pc, k in s.open)
  }

  predicate WindingUp(pc: Pc, isOpen: bool) {
    pc.RejectClosing? || ((pc.AtLoop? || pc.Reading?) && !isOpen) || pc.Leaving? || pc.Finishing? || pc.Done?
  }

  lemma RejectedHandler(s: State, k: Sock, c: HandlerStep)
    requires RejectedOk(s) && SocketsOpen(s) && HandlerEnabled(s, k, c)
    ensures RejectedOk(HandlerNext(s, k, c))
  {
    var s' := HandlerNext(s, k, c);
    HandlerEffect(s, k, c);
    RejectedSelf(s, k, c);
    assert s'.open <= s.open;
  }

  lemma RejectedSelf(s: State, k: Sock, c: HandlerStep)
    requires RejectedOk(s) && SocketsOpen(s) && HandlerEnabled(s, k, c)
    ensures var s' := HandlerNext(s, k, c);
            s'.handlers[k].rejected ==> WindingUp(s'.handlers[k].pc, k in s'.open)
  {
    if s.handlers[k].rejected {
      WindingOn(s, k, c);
    } else if !c.Reject? {
      HandlerEffect(s, k, c);
    }
  }

  lemma WindingOn(s: State, k: Sock, c: HandlerStep)
    requires HandlerEnabled(s, k, c) && WindingUp(s.handlers[k].pc, k in s.open)
    ensures var s' := HandlerNext(s, k, c); WindingUp(s'.handlers[k].pc, k in s'.open)
  {
    hide NextPacket, DecodePublish, DecodeSubscribe, Handshake;
  }

  lemma RejectedStep(s: State, a: Action)
    requires RejectedOk(s) && SocketsOpen(s) && Enabled(s, a)
    ensures RejectedOk(Next(s, a))
  {
    match a {
      case Server(step) => RejectedServer(s, step);
      case Client(k, c) => RejectedHandler(s, k, c);
    }
  }

  lemma RejectedServer(s: State, step: ServerStep)
    requires RejectedOk(s) && SocketsOpen(s) && ServerEnabled(s, step)
    ensures RejectedOk(ServerNext(s, step))
  {
  }

  lemma {:induction false} RejectedRuns(acts: seq<Action>, s: State)
    requires Reaches(acts, s)
    ensures RejectedOk(s)
  {
    if acts != [] {
      var before := Exec(acts[..|acts| - 1]).value;
      RejectedRuns(acts[..|acts| - 1], before);
      EveryRun(acts[..|acts| - 1], before);
      RejectedStep(before, acts[|acts| - 1]);
    }
  }

  // ---------- which steps break ownership ----------

  /** Some other handler that relies on its session has this id. */
  ghost predicate HeldByAnother(s: State, k: Sock, id: Id) {
    exists j :: j in s.handlers && j != k && Holding(s.handlers[j]) && s.handlers[j].id == id
  }

  /**
   A CONNECT that takes the id of a client, and a `remove_session`, at the end of a
   handler or after a malformed SUBSCRIBE, by a handler whose id is also a client's.
   */
  ghost predicate Breaks(s: State, a: Action)
    requires Enabled(s, a)
  {
    && !s.phase.Swept? && a.Client?
    && match a.c
       case Admit(anonymous) => HeldByAnother(s, a.k, ChosenId(s.handlers[a.k], anonymous))
       case Reject => HeldByAnother(s, a.k, s.handlers[a.k].id)
       case Leave => HeldByAnother(s, a.k, s.handlers[a.k].id)
       case _ => false
  }

  lemma OwnershipAddFilters(s: State, k: Sock)
    requires Ownership(s) && RejectedOk(s) && HandlerEnabled(s, k, AddFilters)
    ensures Ownership(HandlerNext(s, k, AddFilters))
  {
    var s', h := HandlerNext(s, k, AddFilters), s.handlers[k];
    if !s.phase.Swept? {
      assert Holding(h) && Owned(s, k);
      var filters := s'.sessions[h.id].filters;
      assert filters + [] == filters;
      forall j | j in s.handlers && j != k && Holding(s.handlers[j]) ensures s.handlers[j].id != h.id {
        assert Owned(s, j);
      }
    }
    OwnershipKept(s, s', k);
  }

  /** After the sweep nothing is claimed, so only earlier steps need care with the other entries. */
  lemma OwnershipKept(s: State, s': State, k: Sock)
    requires Ownership(s) && s'.phase == s.phase
    requires k in s'.handlers && s'.handlers == s.handlers[k := s'.handlers[k]]
    requires !s.phase.Swept? ==>
               forall j :: j in s.handlers && j != k && Holding(s.handlers[j]) && s.handlers[j].id in s.sessions ==>
                 s.handlers[j].id in s'.sessions && s'.sessions[s.handlers[j].id] == s.sessions[s.handlers[j].id]
    requires !s.phase.Swept? && Holding(s'.handlers[k]) ==> Owned(s', k)
    ensures Ownership(s')
  {
    if !s.phase.Swept? {
      OwnershipOthers(s, s', k);
    }
  }

  lemma TakenOver(s: State, k: Sock, anonymous: Id)
    requires HandlerEnabled(s, k, Admit(anonymous)) && !s.phase.Swept?
    requires HeldByAnother(s, k, ChosenId(s.handlers[k], anonymous))
    ensures !Ownership(HandlerNext(s, k, Admit(anonymous)))
  {
    var j :| j in s.handlers && j != k && Holding(s.handlers[j]) &&
        s.handlers[j].id == ChosenId(s.handlers[k], anonymous);
    var s' := HandlerNext(s, k, Admit(anonymous));
    assert s'.handlers[j] == s.handlers[j] && s'.sessions[s.handlers[j].id].sock == k;
    assert !Owned(s', j);
  }

  lemma OwnershipAdmit(s: State, k: Sock, anonymous: Id)
    requires Ownership(s) && Reads(s) && HandlerEnabled(s, k, Admit(anonymous))
    requires !s.phase.Swept? ==> !HeldByAnother(s, k, ChosenId(s.handlers[k], anonymous))
    ensures Ownership(HandlerNext(s, k, Admit(anonymous)))
  {
    assert s.handlers[k].read == [];
    OwnershipKept(s, HandlerNext(s, k, Admit(anonymous)), k);
  }

  lemma TakenAway(s: State, k: Sock, c: HandlerStep)
    requires HandlerEnabled(s, k, c) && (c.Reject? || c.Leave?) && !s.phase.Swept?
    requires HeldByAnother(s, k, s.handlers[k].id)
    ensures !Ownership(HandlerNext(s, k, c))
  {
    var j :| j in s.handlers && j != k && Holding(s.handlers[j]) && s.handlers[j].id == s.handlers[k].id;
    var s' := HandlerNext(s, k, c);
    assert s'.handlers[j] == s.handlers[j] && s.handlers[j].id !in s'.sessions;
    assert !Owned(s', j);
  }

  lemma OwnershipRemove(s: State, k: Sock, c: HandlerStep)
    requires Ownership(s) && HandlerEnabled(s, k, c) && (c.Reject? || c.Leave?)
    requires !s.phase.Swept? ==> !HeldByAnother(s, k, s.handlers[k].id)
    ensures Ownership(HandlerNext(s, k, c))
  {
    OwnershipKept(s, HandlerNext(s, k, c), k);
  }

  lemma OwnershipQuiet(s: State, k: Sock, c: HandlerStep)
    requires Ownership(s) && HandlerEnabled(s, k, c)
    requires !c.Read? && !c.Admit? && !c.AddFilters? && !c.Reject? && !c.Leave?
    ensures Ownership(HandlerNext(s, k, c))
  {
    var s' := HandlerNext(s, k, c);
    HandlerEffect(s, k, c);
    HandlerFrame(s, k, c);
    LiveKept(s, k, c);
    if !s.phase.Swept? && Holding(s'.handlers[k]) {
      assert Owned(s, k);
    }
    OwnershipOthers(s, s', k);
  }

  /**
   Of all steps of all threads, exactly those break the ownership of a session: the
   CONNECT that takes a client's id, and the `remove_session` of somebody else for it.
   */
  lemma BreaksExactly(s: State, a: Action)
    requires Ownership(s) && RejectedOk(s) && Basics(s) && Enabled(s, a)
    ensures Ownership(Next(s, a)) <==> !Breaks(s, a)
  {
    if a.Server? {
      OwnershipServer(s, a.step);
    } else {
      BreaksClient(s, a.k, a.c);
    }
  }

  lemma BreaksClient(s: State, k: Sock, c: HandlerStep)
    requires Ownership(s) && RejectedOk(s) && Reads(s) && HandlerEnabled(s, k, c)
    ensures Ownership(HandlerNext(s, k, c)) <==> !Breaks(s, Client(k, c))
  {
    if c.Read? {
      OwnershipRead(s, k);
    } else if c.AddFilters? {
      OwnershipAddFilters(s, k);
    } else if c.Admit? {
      if Breaks(s, Client(k, c)) {
        TakenOver(s, k, c.anonymous);
      } else {
        OwnershipAdmit(s, k, c.anonymous);
      }
    } else if c.Reject? || c.Leave? {
      if Breaks(s, Client(k, c)) {
        TakenAway(s, k, c);
      } else {
        OwnershipRemove(s, k, c);
      }
    } else {
      OwnershipQuiet(s, k, c);
    }
  }

  /** The same for the states that runs reach. */
  lemma StepBreaksExactly(acts: seq<Action>, s: State, a: Action)
    requires Reaches(acts, s) && Ownership(s) && Enabled(s, a)
    ensures Ownership(Next(s, a)) <==> !Breaks(s, a)
  {
    EveryRun(acts, s);
    RejectedRuns(acts, s);
    BreaksExactly(s, a);
  }

  // ---------- from which states no later step can ----------

  /** Client j has the id of handler k, which has yet to run its final `remove_session`. */
  predicate SharedAt(s: State, j: Sock, k: Sock) {
    && j in s.handlers && k in s.handlers && j != k
    && Holding(s.handlers[j]) && Live(s.handlers[k].pc) && s.handlers[j].id == s.handlers[k].id
  }

  ghost predicate Shared(s: State) {
    exists j, k :: SharedAt(s, j, k)
  }

  /** A continuation in which no further CONNECT uses the id of a handler that has yet to leave. */
  ghost predicate Continues(s: State, more: seq<Action>, s': State)
    decreases |more|
  {
    if more == [] then s' == s
    else Enabled(s, more[0]) && FreshId(s, more[0]) && Continues(Next(s, more[0]), more[1..], s')
  }

  lemma UnsharedClient(s: State, k: Sock, c: HandlerStep)
    requires !Shared(s) && HandlerEnabled(s, k, c) && FreshId(s, Client(k, c))
    ensures !Shared(HandlerNext(s, k, c))
  {
    var s' := HandlerNext(s, k, c);
    HandlerEffect(s, k, c);
    if !c.Admit? {
      LiveKept(s, k, c);
    }
    forall i, j ensures !SharedAt(s', i, j) {
      assert !SharedAt(s, i, j);
    }
  }

  lemma UnsharedStep(s: State, a: Action)
    requires !Shared(s) && Enabled(s, a) && FreshId(s, a)
    ensures !Shared(Next(s, a))
  {
    match a {
      case Client(k, c) => UnsharedClient(s, k, c);
      case Server(step) => UnsharedServer(s, step);
    }
  }

  lemma UnsharedServer(s: State, step: ServerStep)
    requires !Shared(s) && ServerEnabled(s, step)
    ensures !Shared(ServerNext(s, step))
  {
    forall i, j ensures !SharedAt(ServerNext(s, step), i, j) {
      assert !SharedAt(s, i, j);
    }
  }

  lemma UnsharedIsSafe(s: State, a: Action)
    requires !Shared(s) && Enabled(s, a) && FreshId(s, a)
    ensures !Breaks(s, a)
  {
    if a.Client? && (a.c.Reject? || a.c.Leave?) {
      HeldIsShared(s, a.k);
    }
  }

  lemma HeldIsShared(s: State, k: Sock)
    requires k in s.handlers && Live(s.handlers[k].pc)
    ensures HeldByAnother(s, k, s.handlers[k].id) ==> Shared(s)
  {
    if j :| j in s.handlers && j != k && Holding(s.handlers[j]) && s.handlers[j].id == s.handlers[k].id {
      assert SharedAt(s, j, k);
    }
  }

  lemma {:induction false} KeepsOwning(s: State, more: seq<Action>, s': State)
    requires Ownership(s) && RejectedOk(s) && Basics(s) && !Shared(s) && Continues(s, more, s')
    ensures Ownership(s') && !Shared(s')
    decreases |more|
  {
    if more != [] {
      BasicsStep(s, more[0]);
      RejectedStep(s, more[0]);
      UnsharedIsSafe(s, more[0]);
      BreaksExactly(s, more[0]);
      UnsharedStep(s, more[0]);
      KeepsOwning(Next(s, more[0]), more[1..], s');
    }
  }

  function Remaining(pc: Pc): nat {
    if pc.RejectClosing? then 3 else if pc.AtLoop? then 2 else if pc.Reading? then 1 else 0
  }

  function WindUp(pc: Pc): HandlerStep {
    if pc.RejectClosing? then RejectClose else if pc.AtLoop? then Enter else if pc.Reading? then Hangup else Leave
  }

  lemma OneMoreStep(s: State, a: Action, more: seq<Action>, s': State)
    requires Enabled(s, a) && FreshId(s, a) && Continues(Next(s, a), more, s')
    ensures Continues(s, [a] + more, s')
  {
    assert ([a] + more)[1..] == more;
  }

  /** A rejected handler that shares its id with client j winds up, and its last act is to remove j's session. */
  lemma {:induction false} SharedBreaks(s: State, j: Sock, k: Sock) returns (more: seq<Action>, s': State)
    requires Ownership(s) && RejectedOk(s) && Basics(s) && !s.phase.Swept? && SharedAt(s, j, k)
    ensures Continues(s, more, s') && !Ownership(s')
    ensures j in s'.handlers && Holding(s'.handlers[j]) && s'.handlers[j].id == s.handlers[j].id
    ensures s.handlers[j].id !in s'.sessions && j !in s'.open
    decreases Remaining(s.handlers[k].pc)
  {
    SharedIsRejected(s, j, k);
    hide Ownership, Basics, RejectedOk, Owned, WindingUp, WindUp, HandlerNext, HandlerEnabled;
    var c := WindUp(s.handlers[k].pc);
    var s1 := HandlerNext(s, k, c);
    WindUpStep(s, j, k);
    if c.Leave? {
      TakenAway(s, k, c);
      more, s' := [], s1;
    } else {
      BreaksExactly(s, Client(k, c));
      BasicsStep(s, Client(k, c));
      RejectedStep(s, Client(k, c));
      more, s' := SharedBreaks(s1, j, k);
    }
    OneMoreStep(s, Client(k, c), more, s');
    more := [Client(k, c)] + more;
  }

  lemma SharedIsRejected(s: State, j: Sock, k: Sock)
    requires Ownership(s) && RejectedOk(s) && !s.phase.Swept? && SharedAt(s, j, k)
    ensures Owned(s, j) && WindingUp(s.handlers[k].pc, k in s.open)
  {
    assert Owned(s, j);
    assert Holding(s.handlers[k]) ==> Owned(s, k);
  }

  lemma WindUpStep(s: State, j: Sock, k: Sock)
    requires SharedAt(s, j, k) && Owned(s, j) && WindingUp(s.handlers[k].pc, k in s.open)
    ensures var c := WindUp(s.handlers[k].pc);
            && HandlerEnabled(s, k, c) && !c.Admit?
            && var s1 := HandlerNext(s, k, c);
               && s1.phase == s.phase && j in s1.handlers && s1.handlers[j] == s.handlers[j]
               && (c.Leave? ==> HeldByAnother(s, k, s.handlers[k].id))
               && (c.Leave? ==> s.handlers[j].id !in s1.sessions && j !in s1.open)
               && (!c.Leave? ==> !Breaks(s, Client(k, c)) && SharedAt(s1, j, k))
               && (!c.Leave? ==> Remaining(s1.handlers[k].pc) < Remaining(s.handlers[k].pc))
  {
  }

  /** No continuation without a further reuse takes a client's session away. */
  ghost predicate Lasts(s: State) {
    forall more, s' :: Continues(s, more, s') ==> Ownership(s')
  }

  lemma UnsharedLasts(s: State)
    requires Ownership(s) && RejectedOk(s) && Basics(s) && !Shared(s)
    ensures Lasts(s)
  {
    forall more, s' | Continues(s, more, s') ensures Ownership(s') {
      KeepsOwning(s, more, s');
    }
  }

  lemma SharedEnds(s: State)
    requires Ownership(s) && RejectedOk(s) && Basics(s) && !s.phase.Swept? && Shared(s)
    ensures !Lasts(s)
  {
    hide Ownership, Basics, RejectedOk;
    var j, k :| SharedAt(s, j, k);
    var more, s' := SharedBreaks(s, j, k);
    assert Continues(s, more, s');
  }

  /**
   From a state in which every client owns its session, none can lose it, as long as no
   further CONNECT uses the id of a handler that has yet to leave, if and only if no
   client shares its id with such a handler now.
   */
  lemma OwnershipLastsExactly(acts: seq<Action>, s: State)
    requires Reaches(acts, s) && Ownership(s) && !s.phase.Swept?
    ensures Lasts(s) <==> !Shared(s)
  {
    hide Lasts, Shared, Ownership;
    EveryRun(acts, s);
    RejectedRuns(acts, s);
    if Shared(s) {
      SharedEnds(s);
    } else {
      UnsharedLasts(s);
    }
  }

  /** The id is not that of a handler which has yet to leave. */
  ghost predicate Unused(s: State, id: Id) {
    forall j :: j in s.handlers && Live(s.handlers[j].pc) ==> s.handlers[j].id != id
  }

  lemma SharedAfterAdmit(s: State, k: Sock, anonymous: Id)
    requires SocketsOpen(s) && HandlerEnabled(s, k, Admit(anonymous))
    ensures Shared(HandlerNext(s, k, Admit(anonymous))) <==> Shared(s) || !Unused(s, ChosenId(s.handlers[k], anonymous))
  {
    var s1 := HandlerNext(s, k, Admit(anonymous));
    if i, j :| SharedAt(s, i, j) {
      assert SharedAt(s1, i, j);
    } else if j :| j in s.handlers && Live(s.handlers[j].pc) && s.handlers[j].id == ChosenId(s.handlers[k], anonymous) {
      assert SharedAt(s1, k, j);
    } else {
      UnsharedClient(s, k, Admit(anonymous));
    }
  }

  /**
   In particular for a CONNECT: it is harmless, now and for the whole future without
   another reuse, if and only if no handler that has yet to leave has the id it takes.
   That is more than that no client has it: a rejected client counts until it is gone.
   (If a client shares its id already, it is too late for that one anyway.)
   */
  lemma DuplicateIdBreaksOwnership(acts: seq<Action>, s: State, k: Sock, anonymous: Id)
    requires Reaches(acts, s) && Ownership(s) && !s.phase.Swept? && HandlerEnabled(s, k, Admit(anonymous))
    ensures Lasts(HandlerNext(s, k, Admit(anonymous))) <==> !Shared(s) && Unused(s, ChosenId(s.handlers[k], anonymous))
  {
    var a := Client(k, Admit(anonymous));
    EveryRun(acts, s);
    RejectedRuns(acts, s);
    SharedAfterAdmit(s, k, anonymous);
    Extend(acts, s, a);
    if Ownership(Next(s, a)) {
      OwnershipLastsExactly(acts + [a], Next(s, a));
    } else {
      assert Continues(Next(s, a), [], Next(s, a));
      BreaksExactly(s, a);
      HeldIsUsed(s, k, ChosenId(s.handlers[k], anonymous));
    }
  }

  lemma HeldIsUsed(s: State, k: Sock, id: Id)
    ensures HeldByAnother(s, k, id) ==> !Unused(s, id)
  {
  }

  lemma Extend(acts: seq<Action>, s: State, a: Action)
    requires Reaches(acts, s) && Enabled(s, a)
    ensures Reaches(acts + [a], Next(s, a))
  {
    assert (acts + [a])[..|acts|] == acts;
  }

  // ---------- runs without duplicate ids ----------

  /** A run in which no CONNECT takes the id of a handler that has yet to leave. */
  ghost predicate DistinctRun(acts: seq<Action>, s: State) {
    && Reaches(acts, s)
    && (acts != [] ==>
          var before := Exec(acts[..|acts| - 1]).value;
          DistinctRun(acts[..|acts| - 1], before) && FreshId(before, acts[|acts| - 1]))
  }

  /** Every session in the map is that of the client which holds it, with exactly the filters it has asked for. */
  ghost predicate EntriesOwned(s: State) {
    forall id :: id in s.sessions ==> s.sessions[id].sock in s.handlers && Owned(s, s.sessions[id].sock)
  }

  lemma EntriesServer(s: State, step: ServerStep)
    requires EntriesOwned(s) && SessionsHeld(s) && ServerEnabled(s, step)
    ensures EntriesOwned(ServerNext(s, step))
  {
    var s' := ServerNext(s, step);
    forall id | id in s'.sessions ensures s'.sessions[id].sock in s'.handlers && Owned(s', s'.sessions[id].sock) {
      assert Owned(s, s.sessions[id].sock);
    }
  }

  /** A step of k under distinct ids changes no entry but its own. */
  lemma EntriesOthers(s: State, s': State, k: Sock)
    requires EntriesOwned(s) && SessionsHeld(s) && SessionsHeld(s')
    requires k in s.handlers && k in s'.handlers && s'.handlers == s.handlers[k := s'.handlers[k]]
    requires forall id :: id in s'.sessions && s'.sessions[id].sock != k ==>
             id in s.sessions && s.sessions[id] == s'.sessions[id]
    requires (exists id :: id in s'.sessions && s'.sessions[id].sock == k) ==> Owned(s', k)
    ensures EntriesOwned(s')
  {
    forall id | id in s'.sessions ensures s'.sessions[id].sock in s'.handlers && Owned(s', s'.sessions[id].sock) {
      if s'.sessions[id].sock != k {
        assert Owned(s, s.sessions[id].sock);
      }
    }
  }

  lemma EntriesAddFilters(s: State, k: Sock)
    requires EntriesOwned(s) && SessionsHeld(s) && DistinctIds(s) && HandlerEnabled(s, k, AddFilters)
    requires SessionsHeld(HandlerNext(s, k, AddFilters))
    ensures EntriesOwned(HandlerNext(s, k, AddFilters))
  {
    var s', h := HandlerNext(s, k, AddFilters), s.handlers[k];
    if h.id in s.sessions {
      assert s.sessions[h.id].sock == k && Owned(s, k);
      var filters := s'.sessions[h.id].filters;
      assert filters + [] == filters;
    }
    EntriesOthers(s, s', k);
  }

  lemma EntriesRead(s: State, k: Sock)
    requires EntriesOwned(s) && SessionsHeld(s) && HandlerEnabled(s, k, Read)
    requires SessionsHeld(HandlerNext(s, k, Read))
    ensures EntriesOwned(HandlerNext(s, k, Read))
  {
    var s' := HandlerNext(s, k, Read);
    HandlerFrame(s, k, Read);
    var p := OnePacketRead(s, k);
    Entitled(s.handlers[k], s'.handlers[k], p);
    if id :| id in s.sessions && s.sessions[id].sock == k {
      OwnedAfterRead(s, s', k);
    }
    EntriesOthers(s, s', k);
  }

  lemma EntriesChanged(s: State, k: Sock, c: HandlerStep)
    requires EntriesOwned(s) && SessionsHeld(s) && Reads(s)
    requires HandlerEnabled(s, k, c) && (c.Admit? || c.Reject? || c.Leave?)
    requires SessionsHeld(HandlerNext(s, k, c))
    ensures EntriesOwned(HandlerNext(s, k, c))
  {
    var s' := HandlerNext(s, k, c);
    if c.Admit? {
      assert s.handlers[k].read == [] && Owned(s', k);
    } else {
      assert !Holding(s'.handlers[k]);
    }
    EntriesOthers(s, s', k);
  }

  lemma EntriesQuiet(s: State, k: Sock, c: HandlerStep)
    requires EntriesOwned(s) && SessionsHeld(s) && HandlerEnabled(s, k, c)
    requires !c.Read? && !c.Admit? && !c.AddFilters? && !c.Reject? && !c.Leave?
    requires SessionsHeld(HandlerNext(s, k, c))
    ensures EntriesOwned(HandlerNext(s, k, c))
  {
    var s' := HandlerNext(s, k, c);
    HandlerEffect(s, k, c);
    HandlerFrame(s, k, c);
    LiveKept(s, k, c);
    if id :| id in s.sessions && s.sessions[id].sock == k {
      assert Owned(s, k);
    }
    EntriesOthers(s, s', k);
  }

  lemma EntriesStep(s: State, a: Action)
    requires EntriesOwned(s) && DistinctIds(s) && Basics(s) && Enabled(s, a)
    ensures EntriesOwned(Next(s, a))
  {
    if a.Server? {
      EntriesServer(s, a.step);
    } else {
      SessionsHandler(s, a.k, a.c);
      if a.c.Read? {
        EntriesRead(s, a.k);
      } else if a.c.AddFilters? {
        EntriesAddFilters(s, a.k);
      } else if a.c.Admit? || a.c.Reject? || a.c.Leave? {
        EntriesChanged(s, a.k, a.c);
      } else {
        EntriesQuiet(s, a.k, a.c);
      }
    }
  }

  /**
   In a run without duplicate ids every client owns its session until `stop` sweeps the
   map, and at all times, after the sweep as well, every session in the map is owned.
   */
  lemma {:induction false} DistinctRunsOwn(acts: seq<Action>, s: State)
    requires DistinctRun(acts, s)
    ensures Ownership(s) && EntriesOwned(s) && DistinctIds(s)
  {
    if acts != [] {
      var before, a := Exec(acts[..|acts| - 1]).value, acts[|acts| - 1];
      DistinctRunsOwn(acts[..|acts| - 1], before);
      EveryRun(acts[..|acts| - 1], before);
      RejectedRuns(acts[..|acts| - 1], before);
      DistinctIsUnshared(before);
      UnsharedIsSafe(before, a);
      BreaksExactly(before, a);
      EntriesStep(before, a);
      DistinctStep(before, a);
    }
  }

  lemma DistinctIsUnshared(s: State)
    requires DistinctIds(s)
    ensures !Shared(s)
  {
  }

  /** The filters of the SUBSCRIBE packets a client has sent and that have been entered. */
  function Entered(h: Handler): seq<bytes> {
    var all, last := Requested(h.read), |Unentered(h)|;
    if last <= |all| then all[..|all| - last] else []
  }

  ghost predicate AskedFor(h: Handler, topic: bytes) {
    exists i :: 0 <= i < |Entered(h)| && Matches(Entered(h)[i], topic)
  }

  lemma OwnedFilters(s: State, k: Sock)
    requires k in s.handlers && Owned(s, k)
    ensures s.sessions[s.handlers[k].id].filters == Entered(s.handlers[k])
  {
    var f, u := s.sessions[s.handlers[k].id].filters, Unentered(s.handlers[k]);
    assert (f + u)[..|f + u| - |u|] == f;
  }

  lemma DistinctIsRun(acts: seq<Action>, s: State)
    requires DistinctRun(acts, s)
    ensures Reaches(acts, s)
  {
  }

  /** The session of t's client is in the map. */
  predicate HasSession(s: State, t: Sock) {
    t in s.handlers && s.handlers[t].id in s.sessions && s.sessions[s.handlers[t].id].sock == t
  }

  /**
   With distinct ids, the snapshot that routes a message to topic selects exactly the
   clients that have a session and have themselves asked, in the SUBSCRIBE packets
   entered so far, for a filter that matches; and until `stop` sweeps the map, those
   with a session are those that are connected and have not been turned away.
   */
  lemma TargetsAreTheSubscribers(acts: seq<Action>, s: State, topic: bytes, order: seq<Id>, t: Sock)
    requires DistinctRun(acts, s) && Selects(s.sessions, topic, order)
    ensures t in Sockets(s.sessions, order) <==> HasSession(s, t) && AskedFor(s.handlers[t], topic)
    ensures !s.phase.Swept? ==> (HasSession(s, t) <==> t in s.handlers && Holding(s.handlers[t]))
  {
    hide Reaches, DistinctRun, DistinctIds, Reads, LogOk, LogComplete;
    DistinctRunsOwn(acts, s);
    DistinctIsRun(acts, s);
    EveryRun(acts, s);
    SelectsSocket(s.sessions, topic, order, t);
    if HasSession(s, t) {
      OwnedFilters(s, t);
    }
    if !s.phase.Swept? && t in s.handlers && Holding(s.handlers[t]) {
      assert Owned(s, t);
    }
  }

  /** With distinct ids, the SUBACK of a connected client carries one return code per filter. */
  lemma SubackOnePerFilter(acts: seq<Action>, s: State, k: Sock)
    requires DistinctRun(acts, s) && !s.phase.Swept? && HandlerEnabled(s, k, AddFilters) && Holding(s.handlers[k])
    ensures HandlerNext(s, k, AddFilters).handlers[k].pc.reply.payload ==
            Word(s.handlers[k].pc.sub.packetId) + seq(|s.handlers[k].pc.sub.entries|, _ => 0)
  {
    DistinctRunsOwn(acts, s);
    assert Owned(s, k);
  }
}
