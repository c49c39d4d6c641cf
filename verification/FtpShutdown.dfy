/**
 The FTP server's shutdown: the caller of `stop`, the acceptor and the client threads,
 in any interleaving. Each `close_client` is one step; the two sweeps of the client
 registry go through it one client at a time with the registry's mutex held.
 */
module FtpShutdown {
  import opened Sequences
  import ThreadGroup

  type Sock = nat

  datatype ThreadPc = NotStarted | Running | Removing | Finished

  /** A control connection. `swept` and `late` remember what happened; no step depends on them. */
  datatype Conn = Conn(
    valid: bool,        // the client's control socket has not been closed
    closes: nat,        // how often it has been closed
    thread: ThreadPc,
    listener: bool,     // a passive listener is open
    opens: nat,
    shuts: nat,         // listeners opened and closed so far
    swept: bool,        // a sweep has closed this client
    late: bool)         // the open listener was opened after that

  const NEW_CONN := Conn(true, 0, NotStarted, false, 0, 0, false, false)

  datatype Phase = Idle | Serving | Stopping | Sweeping(next: nat) | JoiningAcceptor | JoiningThreads

  datatype Acceptor =
    | Exited
    | Accepting
    | Pushing(sock: Sock)     // accepted, not yet in the registry
    | Spawning(sock: Sock)    // in the registry, thread not yet started
    | Adding(sock: Sock)      // thread started, not yet in the thread group
    | Reaping
    | Leaving                 // out of the loop
    | Clearing(next: nat)     // its own sweep

  datatype State = State(
    phase: Phase,
    acceptor: Acceptor,
    clients: seq<Sock>,
    conns: map<Sock, Conn>,
    group: seq<Sock>)

  const INIT := State(Idle, Exited, [], map[], [])

  datatype Action =
    | Start | StopBegin | SweepBegin | SweepOne | SweepEnd | JoinAcceptor | JoinAll
    | Accept(k: Sock) | Push | Spawn | Add | JoinFinished(raised: seq<bool>) | Leave | ClearBegin | ClearOne | ClearEnd
    | Pasv(k: Sock) | UseListener(k: Sock) | Quit(k: Sock) | LoopExit(k: Sock) | Remove(k: Sock)

  function ListenerClosed(c: Conn): Conn {
    if c.listener then c.(listener := false, shuts := c.shuts + 1, late := false) else c
  }

  /** `close_client`: the control socket at most once, and the listener if there is one. */
  function Closed(c: Conn): Conn {
    ListenerClosed(if c.valid then c.(valid := false, closes := c.closes + 1) else c)
  }

  function Swept(c: Conn): Conn {
    Closed(c).(swept := true)
  }

  predicate Unlocked(s: State) {
    !s.phase.Sweeping? && !s.acceptor.Clearing?
  }

  function Without(clients: seq<Sock>, k: Sock): seq<Sock> {
    if clients == [] then []
    else if clients[0] == k then clients[1..]
    else [clients[0]] + Without(clients[1..], k)
  }

  predicate Enabled(s: State, a: Action) {
    match a
    case Start => s.phase.Idle?
    case StopBegin => s.phase.Serving?
    case SweepBegin => s.phase.Stopping? && Unlocked(s)
    case SweepOne => s.phase.Sweeping? && s.phase.next < |s.clients| && s.clients[s.phase.next] in s.conns
    case SweepEnd => s.phase.Sweeping? && s.phase.next == |s.clients|
    case JoinAcceptor => s.phase.JoiningAcceptor? && s.acceptor.Exited?
    case JoinAll =>
      && s.phase.JoiningThreads?
      && forall i :: 0 <= i < |s.group| ==> s.group[i] in s.conns && s.conns[s.group[i]].thread.Finished?
    case Accept(k) => s.acceptor.Accepting? && k !in s.conns
    case Push => s.acceptor.Pushing? && Unlocked(s)
    case Spawn => s.acceptor.Spawning? && s.acceptor.sock in s.conns
    case Add => s.acceptor.Adding?
    case JoinFinished(raised) =>
      && s.acceptor.Reaping? && |raised| == |s.group|
      && forall i :: 0 <= i < |raised| && raised[i] ==> s.group[i] in s.conns && s.conns[s.group[i]].thread.Finished?
    case Leave => s.acceptor.Accepting?
    case ClearBegin => s.acceptor.Leaving? && Unlocked(s)
    case ClearOne => s.acceptor.Clearing? && s.acceptor.next < |s.clients| && s.clients[s.acceptor.next] in s.conns
    case ClearEnd => s.acceptor.Clearing? && s.acceptor.next == |s.clients|
    case Pasv(k) => k in s.conns && s.conns[k].thread.Running?
    case UseListener(k) => k in s.conns && s.conns[k].thread.Running?
    case Quit(k) => k in s.conns && s.conns[k].thread.Running?
    case LoopExit(k) => k in s.conns && s.conns[k].thread.Running?
    case Remove(k) => k in s.conns && s.conns[k].thread.Removing? && Unlocked(s)
  }

  function Next(s: State, a: Action): State
    requires Enabled(s, a)
  {
    match a
    case Start => s.(phase := Serving, acceptor := Accepting)
    case StopBegin => s.(phase := Stopping)
    case SweepBegin => s.(phase := Sweeping(0))
    case SweepOne =>
      var k := s.clients[s.phase.next];
      s.(phase := Sweeping(s.phase.next + 1), conns := s.conns[k := Swept(s.conns[k])])
    case SweepEnd => s.(phase := JoiningAcceptor, clients := [])
    case JoinAcceptor => s.(phase := JoiningThreads)
    case JoinAll => s.(phase := Idle, group := [])
    case Accept(k) => s.(acceptor := Pushing(k), conns := s.conns[k := NEW_CONN])
    case Push => s.(acceptor := Spawning(s.acceptor.sock), clients := s.clients + [s.acceptor.sock])
    case Spawn =>
      var k := s.acceptor.sock;
      s.(acceptor := Adding(k), conns := s.conns[k := s.conns[k].(thread := Running)])
    case Add => s.(acceptor := Reaping, group := s.group + [s.acceptor.sock])
    case JoinFinished(raised) => s.(acceptor := Accepting, group := ThreadGroup.Unfinished(s.group, raised))
    case Leave => s.(acceptor := Leaving)
    case ClearBegin => s.(acceptor := Clearing(0))
    case ClearOne =>
      var k := s.clients[s.acceptor.next];
      s.(acceptor := Clearing(s.acceptor.next + 1), conns := s.conns[k := Swept(s.conns[k])])
    case ClearEnd => s.(acceptor := Exited, clients := [])
    case Pasv(k) =>
      var c := ListenerClosed(s.conns[k]);
      s.(conns := s.conns[k := c.(listener := true, opens := c.opens + 1, late := c.swept)])
    case UseListener(k) => s.(conns := s.conns[k := ListenerClosed(s.conns[k])])
    case Quit(k) => s.(conns := s.conns[k := Closed(s.conns[k])])
    case LoopExit(k) => s.(conns := s.conns[k := s.conns[k].(thread := Removing)])
    case Remove(k) =>
      if k in s.clients then
        s.(clients := Without(s.clients, k), conns := s.conns[k := Closed(s.conns[k]).(thread := Finished)])
      else s.(conns := s.conns[k := s.conns[k].(thread := Finished)])
  }

  function Exec(acts: seq<Action>): Option<State> {
    if acts == [] then Some(INIT)
    else
      match Exec(acts[..|acts| - 1])
      case None => None
      case Some(s) => if Enabled(s, acts[|acts| - 1]) then Some(Next(s, acts[|acts| - 1])) else None
  }

  predicate Reaches(acts: seq<Action>, s: State) {
    Exec(acts) == Some(s)
  }

  // ---------- one connection ----------

  /** The control socket has been closed once if it is not valid and not at all if it is; listeners balance. */
  predicate ConnOk(c: Conn) {
    && c.closes == (if c.valid then 0 else 1)
    && c.opens == c.shuts + (if c.listener then 1 else 0)
    && (c.late ==> c.listener && c.swept)
    && (c.swept ==> !c.valid && (c.listener ==> c.late))
    && (c.thread.Finished? ==> !c.valid && (c.listener ==> c.swept))
  }

  ghost predicate ConnsOk(s: State) {
    forall k :: k in s.conns ==> ConnOk(s.conns[k])
  }

  // ---------- who has a connection in hand ----------

  /** Every accepted client is held by the acceptor, is in the registry, or has been closed. */
  ghost predicate Custody(s: State) {
    && (forall k :: k in s.conns && s.conns[k].valid ==> s.acceptor == Pushing(k) || k in s.clients)
    && (s.acceptor.Pushing? ==> s.acceptor.sock in s.conns && s.acceptor.sock !in s.clients)
    && (forall k :: k in s.clients ==> k in s.conns)
    && Distinct(s.clients)
  }

  /** An unswept client whose thread has been started is in the registry until its thread removes it. */
  ghost predicate Registered(s: State) {
    && (s.acceptor.Pushing? || s.acceptor.Spawning? ==>
        s.acceptor.sock in s.conns && s.conns[s.acceptor.sock].thread.NotStarted?)
    && (forall k :: k in s.conns && !s.conns[k].swept && !s.conns[k].thread.Finished? ==>
        s.acceptor == Pushing(k) || k in s.clients)
    && (forall k :: k in s.conns && s.conns[k].thread.NotStarted? && !s.conns[k].swept ==> !s.conns[k].listener)
  }

  /** How far the sweep that holds the mutex has got; the acceptor leaves an empty registry behind. */
  ghost predicate SweepsOk(s: State) {
    && !(s.phase.Sweeping? && s.acceptor.Clearing?)
    && (s.phase.Sweeping? ==> s.phase.next <= |s.clients| && forall i :: 0 <= i < s.phase.next ==>
        s.clients[i] in s.conns && s.conns[s.clients[i]].swept)
    && (s.acceptor.Clearing? ==> s.acceptor.next <= |s.clients| && forall i :: 0 <= i < s.acceptor.next ==>
        s.clients[i] in s.conns && s.conns[s.clients[i]].swept)
    && (s.acceptor.Exited? ==> s.clients == [])
    && (s.phase.Idle? || s.phase.JoiningThreads? ==> s.acceptor.Exited?)
  }

  ghost predicate Threads(s: State) {
    && (s.phase.Idle? ==> s.group == [])
    && (forall k :: k in s.conns ==>
          || s.conns[k].thread.Finished? || k in s.group
          || s.acceptor == Pushing(k) || s.acceptor == Spawning(k) || s.acceptor == Adding(k))
  }

  // ---------- preservation ----------

  lemma WithoutMembers(clients: seq<Sock>, k: Sock)
    requires Distinct(clients)
    ensures forall x :: x in Without(clients, k) <==> x in clients && x != k
    ensures Distinct(Without(clients, k))
  {
    if clients != [] && clients[0] != k {
      WithoutMembers(clients[1..], k);
      var rest := Without(clients[1..], k);
      assert clients == [clients[0]] + clients[1..];
      assert clients[0] !in clients[1..];
    } else if clients != [] {
      assert clients == [k] + clients[1..];
      assert k !in clients[1..];
    }
  }

  lemma ConnsStep(s: State, a: Action)
    requires ConnsOk(s) && Custody(s) && Registered(s) && Enabled(s, a)
    ensures ConnsOk(Next(s, a))
  {
    if ByThread(a) {
      ConnsThread(s, a);
    } else {
      ConnsServer(s, a);
    }
  }

  lemma ConnsThread(s: State, a: Action)
    requires ConnsOk(s) && Enabled(s, a) && ByThread(a)
    ensures ConnsOk(Next(s, a))
  {
  }

  lemma ConnsServer(s: State, a: Action)
    requires ConnsOk(s) && Custody(s) && Registered(s) && Enabled(s, a) && !ByThread(a)
    ensures ConnsOk(Next(s, a))
  {
  }

  lemma CustodyStep(s: State, a: Action)
    requires ConnsOk(s) && Custody(s) && SweepsOk(s) && Enabled(s, a)
    ensures Custody(Next(s, a))
  {
    if ByThread(a) {
      CustodyThread(s, a);
    } else {
      CustodyServer(s, a);
    }
  }

  lemma CustodyThread(s: State, a: Action)
    requires Custody(s) && Enabled(s, a) && ByThread(a)
    ensures Custody(Next(s, a))
  {
  }

  lemma CustodyServer(s: State, a: Action)
    requires ConnsOk(s) && Custody(s) && SweepsOk(s) && Enabled(s, a) && !ByThread(a)
    ensures Custody(Next(s, a))
  {
    if a.Remove? {
      WithoutMembers(s.clients, a.k);
    }
  }

  predicate ByThread(a: Action) {
    a.Pasv? || a.UseListener? || a.Quit? || a.LoopExit?
  }

  lemma RegisteredThread(s: State, a: Action)
    requires Custody(s) && Registered(s) && Enabled(s, a) && ByThread(a)
    ensures Registered(Next(s, a))
  {
  }

  lemma RegisteredRemove(s: State, k: Sock)
    requires Custody(s) && Registered(s) && Enabled(s, Remove(k))
    ensures Registered(Next(s, Remove(k)))
  {
    WithoutMembers(s.clients, k);
  }

  lemma RegisteredServer(s: State, a: Action)
    requires ConnsOk(s) && Registered(s) && SweepsOk(s) && Enabled(s, a) && !ByThread(a) && !a.Remove?
    ensures Registered(Next(s, a))
  {
  }

  lemma RegisteredStep(s: State, a: Action)
    requires ConnsOk(s) && Custody(s) && Registered(s) && SweepsOk(s) && Enabled(s, a)
    ensures Registered(Next(s, a))
  {
    if a.Remove? {
      RegisteredRemove(s, a.k);
    } else if ByThread(a) {
      RegisteredThread(s, a);
    } else {
      RegisteredServer(s, a);
    }
  }

  lemma SweepsStep(s: State, a: Action)
    requires Custody(s) && SweepsOk(s) && Enabled(s, a)
    ensures SweepsOk(Next(s, a))
  {
    if ByThread(a) {
      SweepsThread(s, a);
    } else {
      SweepsServer(s, a);
    }
  }

  lemma SweepsThread(s: State, a: Action)
    requires SweepsOk(s) && Enabled(s, a) && ByThread(a)
    ensures SweepsOk(Next(s, a))
  {
  }

  lemma SweepsServer(s: State, a: Action)
    requires Custody(s) && SweepsOk(s) && Enabled(s, a) && !ByThread(a)
    ensures SweepsOk(Next(s, a))
  {
  }

  lemma ThreadsStep(s: State, a: Action)
    requires Threads(s) && SweepsOk(s) && Enabled(s, a)
    ensures Threads(Next(s, a))
  {
    var s' := Next(s, a);
    if a.JoinFinished? {
      forall k | k in s'.conns
        ensures s'.conns[k].thread.Finished? || k in s'.group
      {
        ThreadGroup.JoinsOnlyRaised(s.group, a.raised, k);
        if k in s.group && k !in s'.group {
          var i :| 0 <= i < |s.group| && s.group[i] == k;
        }
      }
    } else if a.JoinAll? {
      forall k | k in s'.conns ensures s'.conns[k].thread.Finished? {
        if k in s.group {
          var i :| 0 <= i < |s.group| && s.group[i] == k;
        }
      }
    }
  }

  /** No client is swept twice: those in the registry that a sweep has still to reach have not been swept. */
  ghost predicate SweptOnce(s: State) {
    && (s.acceptor.Pushing? ==> s.acceptor.sock in s.conns && !s.conns[s.acceptor.sock].swept)
    && (Unlocked(s) ==> forall k :: k in s.clients && k in s.conns ==> !s.conns[k].swept)
    && (s.phase.Sweeping? ==> Unreached(s, s.phase.next))
    && (s.acceptor.Clearing? ==> Unreached(s, s.acceptor.next))
  }

  ghost predicate Unreached(s: State, next: nat) {
    forall i :: next <= i < |s.clients| && s.clients[i] in s.conns ==> !s.conns[s.clients[i]].swept
  }

  lemma SweptOnceSweep(s: State, a: Action)
    requires Custody(s) && SweepsOk(s) && SweptOnce(s) && Enabled(s, a) && (a.SweepOne? || a.ClearOne?)
    ensures SweptOnce(Next(s, a))
  {
  }

  lemma SweptOnceRemove(s: State, k: Sock)
    requires Custody(s) && SweptOnce(s) && Enabled(s, Remove(k))
    ensures SweptOnce(Next(s, Remove(k)))
  {
    WithoutMembers(s.clients, k);
  }

  lemma SweptOnceStep(s: State, a: Action)
    requires Custody(s) && SweepsOk(s) && SweptOnce(s) && Enabled(s, a)
    ensures SweptOnce(Next(s, a))
  {
    if a.SweepOne? || a.ClearOne? {
      SweptOnceSweep(s, a);
    } else if a.Remove? {
      SweptOnceRemove(s, a.k);
    } else {
      SweptOnceOther(s, a);
    }
  }

  lemma SweptOnceOther(s: State, a: Action)
    requires Custody(s) && SweepsOk(s) && SweptOnce(s) && Enabled(s, a) && !a.SweepOne? && !a.ClearOne? && !a.Remove?
    ensures SweptOnce(Next(s, a))
  {
  }

  // ---------- whole runs ----------

  ghost predicate Inv(s: State) {
    ConnsOk(s) && Custody(s) && Registered(s) && SweepsOk(s) && SweptOnce(s) && Threads(s)
  }

  lemma {:induction false} EveryRun(acts: seq<Action>, s: State)
    requires Reaches(acts, s)
    ensures Inv(s)
  {
    if acts != [] {
      var before, a := Exec(acts[..|acts| - 1]).value, acts[|acts| - 1];
      EveryRun(acts[..|acts| - 1], before);
      ConnsStep(before, a);
      CustodyStep(before, a);
      RegisteredStep(before, a);
      SweepsStep(before, a);
      SweptOnceStep(before, a);
      ThreadsStep(before, a);
    }
  }

  /**
   In every interleaving, an accepted client is in the acceptor's hands, in the registry,
   or closed; and its control socket is never closed twice.
   */
  lemma HeldRegisteredOrClosed(acts: seq<Action>, s: State, k: Sock)
    requires Reaches(acts, s) && k in s.conns
    ensures s.acceptor == Pushing(k) || k in s.clients || !s.conns[k].valid
    ensures s.conns[k].closes <= 1 && (s.conns[k].closes == 1 <==> !s.conns[k].valid)
  {
    EveryRun(acts, s);
  }

  /**
   Once the acceptor has exited, the registry is empty and every control socket that was
   ever accepted has been closed exactly once.
   */
  lemma AcceptorExitClosesAll(acts: seq<Action>, s: State)
    requires Reaches(acts, s) && s.acceptor.Exited?
    ensures s.clients == [] && forall k :: k in s.conns ==> s.conns[k].closes == 1
  {
    EveryRun(acts, s);
  }

  /** When `stop` has returned, moreover, every client thread has finished. */
  lemma StopJoinsAll(acts: seq<Action>, s: State)
    requires Reaches(acts, s) && s.phase.Idle?
    ensures s.clients == [] && forall k :: k in s.conns ==> s.conns[k].closes == 1 && s.conns[k].thread.Finished?
  {
    EveryRun(acts, s);
  }

  // ---------- the registry ----------

  /** A client whose thread has removed it is not in the registry. */
  ghost predicate OnlyUnfinished(s: State) {
    forall k :: k in s.clients && k in s.conns ==> !s.conns[k].thread.Finished?
  }

  lemma UnfinishedStep(s: State, a: Action)
    requires OnlyUnfinished(s) && Custody(s) && Registered(s) && Enabled(s, a)
    ensures OnlyUnfinished(Next(s, a))
  {
    if a.Remove? {
      WithoutMembers(s.clients, a.k);
    } else if ByThread(a) {
      UnfinishedThread(s, a);
    } else {
      UnfinishedServer(s, a);
    }
  }

  lemma UnfinishedThread(s: State, a: Action)
    requires OnlyUnfinished(s) && Enabled(s, a) && ByThread(a)
    ensures OnlyUnfinished(Next(s, a))
  {
  }

  lemma UnfinishedServer(s: State, a: Action)
    requires OnlyUnfinished(s) && Custody(s) && Registered(s) && Enabled(s, a) && !ByThread(a) && !a.Remove?
    ensures OnlyUnfinished(Next(s, a))
  {
  }

  lemma {:induction false} UnfinishedRuns(acts: seq<Action>, s: State)
    requires Reaches(acts, s)
    ensures OnlyUnfinished(s)
  {
    if acts != [] {
      var n := |acts| - 1;
      var before := Exec(acts[..n]).value;
      UnfinishedRuns(acts[..n], before);
      EveryRun(acts[..n], before);
      UnfinishedStep(before, acts[n]);
    }
  }

  /**
   While no sweep holds the mutex, the registry holds, once each, exactly the clients
   that the acceptor has handed on, no sweep has closed and whose threads have not yet
   removed them.
   */
  lemma RegistryExactly(acts: seq<Action>, s: State, k: Sock)
    requires Reaches(acts, s) && Unlocked(s)
    ensures k in s.clients <==>
            k in s.conns && s.acceptor != Pushing(k) && !s.conns[k].swept && !s.conns[k].thread.Finished?
    ensures Distinct(s.clients)
  {
    EveryRun(acts, s);
    UnfinishedRuns(acts, s);
  }

  // ---------- late listeners ----------

  predicate SweepsNow(s: State, a: Action, k: Sock) {
    || (a.SweepOne? && s.phase.Sweeping? && s.phase.next < |s.clients| && s.clients[s.phase.next] == k)
    || (a.ClearOne? && s.acceptor.Clearing? && s.acceptor.next < |s.clients| && s.clients[s.acceptor.next] == k)
  }

  /** Step i of the run is the one in which a sweep reaches k. */
  predicate SweepsAt(acts: seq<Action>, i: nat, k: Sock)
    requires i < |acts|
  {
    Exec(acts[..i]).Some? && SweepsNow(Exec(acts[..i]).value, acts[i], k)
  }

  ghost predicate SweptBefore(acts: seq<Action>, p: nat, k: Sock)
    requires p <= |acts|
  {
    exists i :: 0 <= i < p && SweepsAt(acts, i, k)
  }

  predicate UsesUp(a: Action, k: Sock) {
    a == Pasv(k) || a == UseListener(k) || a == Quit(k)
  }

  /** A PASV of k is served after a sweep has reached k, and no transfer, PASV or QUIT of k comes later. */
  ghost predicate LatePasv(acts: seq<Action>, k: Sock) {
    exists p :: 0 <= p < |acts| && LateAt(acts, p, k)
  }

  predicate NoUse(acts: seq<Action>, p: nat, k: Sock) {
    forall q :: p < q < |acts| ==> !UsesUp(acts[q], k)
  }

  lemma SweptFront(acts: seq<Action>, p: nat, k: Sock)
    requires acts != [] && p < |acts|
    ensures SweptBefore(acts, p, k) <==> SweptBefore(acts[..|acts| - 1], p, k)
  {
    var before := acts[..|acts| - 1];
    forall i | 0 <= i < p ensures SweepsAt(acts, i, k) <==> SweepsAt(before, i, k) {
      assert acts[..i] == before[..i];
    }
  }

  lemma SweptLast(acts: seq<Action>, k: Sock)
    requires acts != []
    ensures var n := |acts| - 1;
            SweptBefore(acts, n + 1, k) <==> SweptBefore(acts[..n], n, k) || SweepsAt(acts, n, k)
  {
    SweptFront(acts, |acts| - 1, k);
  }

  ghost predicate LateAt(acts: seq<Action>, p: nat, k: Sock)
    requires p < |acts|
  {
    acts[p] == Pasv(k) && SweptBefore(acts, p, k) && NoUse(acts, p, k)
  }

  lemma NoUseFront(acts: seq<Action>, p: nat, k: Sock)
    requires p < |acts| - 1
    ensures NoUse(acts, p, k) <==> NoUse(acts[..|acts| - 1], p, k) && !UsesUp(acts[|acts| - 1], k)
  {
    var before := acts[..|acts| - 1];
    assert forall q :: p < q < |before| ==> before[q] == acts[q];
  }

  lemma LateFront(acts: seq<Action>, p: nat, k: Sock)
    requires p < |acts| - 1
    ensures LateAt(acts, p, k) <==> LateAt(acts[..|acts| - 1], p, k) && !UsesUp(acts[|acts| - 1], k)
  {
    SweptFront(acts, p, k);
    NoUseFront(acts, p, k);
  }

  lemma LateLast(acts: seq<Action>, k: Sock)
    requires acts != []
    ensures var n := |acts| - 1;
            LatePasv(acts, k) <==>
            (acts[n] == Pasv(k) && SweptBefore(acts[..n], n, k)) || (LatePasv(acts[..n], k) && !UsesUp(acts[n], k))
  {
    hide SweptBefore, NoUse, UsesUp, LateAt;
    var n := |acts| - 1;
    forall p | 0 <= p < n ensures LateAt(acts, p, k) <==> LateAt(acts[..n], p, k) && !UsesUp(acts[n], k) {
      LateFront(acts, p, k);
    }
    LateNow(acts, k);
  }

  lemma LateNow(acts: seq<Action>, k: Sock)
    requires acts != []
    ensures var n := |acts| - 1;
            LateAt(acts, n, k) <==> acts[n] == Pasv(k) && SweptBefore(acts[..n], n, k)
  {
    SweptFront(acts, |acts| - 1, k);
  }

  predicate WasSwept(s: State, k: Sock) {
    k in s.conns && s.conns[k].swept
  }

  predicate IsLate(s: State, k: Sock) {
    k in s.conns && s.conns[k].late
  }

  lemma SweptAfter(s: State, a: Action, k: Sock)
    requires Inv(s) && Enabled(s, a)
    ensures WasSwept(Next(s, a), k) <==> WasSwept(s, k) || SweepsNow(s, a, k)
  {
  }

  lemma LateAfter(s: State, a: Action, k: Sock)
    requires ConnsOk(s) && Custody(s) && SweptOnce(s) && Enabled(s, a)
    ensures IsLate(Next(s, a), k) <==> (a == Pasv(k) && WasSwept(s, k)) || (IsLate(s, k) && !UsesUp(a, k))
  {
    if ByThread(a) {
      LateThread(s, a, k);
    } else {
      LateOther(s, a, k);
    }
  }

  lemma LateThread(s: State, a: Action, k: Sock)
    requires ConnsOk(s) && Enabled(s, a) && ByThread(a)
    ensures IsLate(Next(s, a), k) <==> (a == Pasv(k) && WasSwept(s, k)) || (IsLate(s, k) && !UsesUp(a, k))
  {
  }

  /** A sweep, and the removal at the end, only close clients that no sweep has reached before. */
  lemma LateOther(s: State, a: Action, k: Sock)
    requires ConnsOk(s) && Custody(s) && SweptOnce(s) && Enabled(s, a) && !ByThread(a)
    ensures IsLate(Next(s, a), k) <==> IsLate(s, k)
  {
  }

  /** The two remembered flags say what has happened in the run. */
  lemma {:induction false} FlagsRemember(acts: seq<Action>, s: State, k: Sock)
    requires Reaches(acts, s)
    ensures WasSwept(s, k) <==> SweptBefore(acts, |acts|, k)
    ensures IsLate(s, k) <==> LatePasv(acts, k)
  {
    if acts != [] {
      var n := |acts| - 1;
      var before := Exec(acts[..n]).value;
      FlagsRemember(acts[..n], before, k);
      EveryRun(acts[..n], before);
      SweptLast(acts, k);
      LateLast(acts, k);
      SweptAfter(before, acts[n], k);
      LateAfter(before, acts[n], k);
    }
  }

  /**
   A client whose thread is done has had every listener closed, unless exactly this has
   happened: a PASV was served after a sweep had reached the client, and no transfer,
   PASV or QUIT of the client came after that.
   */
  lemma ListenersBalanceUnlessLate(acts: seq<Action>, s: State, k: Sock)
    requires Reaches(acts, s) && k in s.conns && s.conns[k].thread.Finished?
    ensures s.conns[k].opens == s.conns[k].shuts <==> !LatePasv(acts, k)
  {
    EveryRun(acts, s);
    FlagsRemember(acts, s, k);
  }

  lemma Extend(acts: seq<Action>, s: State, a: Action)
    requires Reaches(acts, s) && Enabled(s, a)
    ensures Reaches(acts + [a], Next(s, a))
  {
    assert (acts + [a])[..|acts|] == acts;
  }

  lemma OneClientServed() returns (acts: seq<Action>, s: State)
    ensures Reaches(acts, s) && s.phase.Serving? && s.clients == [1]
    ensures s.acceptor == Adding(1) && s.conns == map[1 := NEW_CONN.(thread := Running)]
  {
    acts, s := [], INIT;
    Extend(acts, s, Start);
    acts, s := acts + [Start], Next(s, Start);
    Extend(acts, s, Accept(1));
    acts, s := acts + [Accept(1)], Next(s, Accept(1));
    Extend(acts, s, Push);
    acts, s := acts + [Push], Next(s, Push);
    Extend(acts, s, Spawn);
    acts, s := acts + [Spawn], Next(s, Spawn);
  }

  /** The case does occur: a PASV is being served while `stop` sweeps the registry. */
  lemma LateListenerStaysOpen() returns (acts: seq<Action>, s: State)
    ensures Reaches(acts, s) && 1 in s.conns && s.conns[1].thread.Finished?
    ensures s.conns[1].opens == 1 && s.conns[1].shuts == 0
  {
    acts, s := OneClientServed();
    Extend(acts, s, StopBegin);
    acts, s := acts + [StopBegin], Next(s, StopBegin);
    Extend(acts, s, SweepBegin);
    acts, s := acts + [SweepBegin], Next(s, SweepBegin);
    Extend(acts, s, SweepOne);
    acts, s := acts + [SweepOne], Next(s, SweepOne);
    Extend(acts, s, SweepEnd);
    acts, s := acts + [SweepEnd], Next(s, SweepEnd);
    Extend(acts, s, Pasv(1));
    acts, s := acts + [Pasv(1)], Next(s, Pasv(1));
    Extend(acts, s, LoopExit(1));
    acts, s := acts + [LoopExit(1)], Next(s, LoopExit(1));
    Extend(acts, s, Remove(1));
    acts, s := acts + [Remove(1)], Next(s, Remove(1));
  }
}
