/**
 From no state that a run reaches is the FTP server's `stop` kept from returning: the
 two sweeps, the acceptor and the client threads never wait for each other in a circle.
 */
module FtpStop {
  import opened FtpShutdown
  import ThreadGroup

  lemma One(acts: seq<Action>, s: State, a: Action) returns (longer: seq<Action>, s': State)
    requires Reaches(acts, s) && Enabled(s, a)
    ensures longer == acts + [a] && acts <= longer && Reaches(longer, s') && s' == Next(s, a)
  {
    Extend(acts, s, a);
    longer, s' := acts + [a], Next(s, a);
  }

  /** The threads in the group have been started. */
  ghost predicate GroupStarted(s: State) {
    && (forall i :: 0 <= i < |s.group| ==> Started(s, s.group[i]))
    && (s.acceptor.Adding? ==> Started(s, s.acceptor.sock))
  }

  predicate Started(s: State, k: Sock) {
    k in s.conns && !s.conns[k].thread.NotStarted?
  }

  lemma StaysStarted(s: State, a: Action, k: Sock)
    requires Enabled(s, a) && Started(s, k)
    ensures Started(Next(s, a), k)
  {
  }

  lemma GroupAfter(s: State, a: Action)
    requires Enabled(s, a) && !a.JoinFinished?
    ensures Next(s, a).group == if a.Add? then s.group + [s.acceptor.sock] else if a.JoinAll? then [] else s.group
    ensures Next(s, a).acceptor.Adding? ==>
              (a.Spawn? && Started(Next(s, a), Next(s, a).acceptor.sock)) || Next(s, a).acceptor == s.acceptor
  {
  }

  lemma GroupStep(s: State, a: Action)
    requires GroupStarted(s) && Enabled(s, a)
    ensures GroupStarted(Next(s, a))
  {
    var s' := Next(s, a);
    if a.JoinFinished? {
      forall i | 0 <= i < |s'.group| ensures Started(s', s'.group[i]) {
        ThreadGroup.JoinsOnlyRaised(s.group, a.raised, s'.group[i]);
      }
    } else {
      GroupAfter(s, a);
      forall k | Started(s, k) ensures Started(s', k) {
        StaysStarted(s, a, k);
      }
    }
  }

  lemma {:induction false} GroupRuns(acts: seq<Action>, s: State)
    requires Reaches(acts, s)
    ensures GroupStarted(s)
  {
    if acts != [] {
      var n := |acts| - 1;
      GroupRuns(acts[..n], Exec(acts[..n]).value);
      GroupStep(Exec(acts[..n]).value, acts[n]);
    }
  }

  /** A sweep by the acceptor comes to its end. */
  lemma {:induction false} ClearFinishes(acts: seq<Action>, s: State) returns (longer: seq<Action>, s': State)
    requires Reaches(acts, s) && s.acceptor.Clearing?
    ensures Reaches(longer, s') && acts <= longer && s'.phase == s.phase && s'.acceptor.Exited?
    decreases |s.clients| - s.acceptor.next
  {
    hide Reaches;
    EveryRun(acts, s);
    if s.acceptor.next < |s.clients| {
      longer, s' := One(acts, s, ClearOne);
      longer, s' := ClearFinishes(longer, s');
    } else {
      longer, s' := One(acts, s, ClearEnd);
    }
  }

  /** So does the one by `stop`. */
  lemma {:induction false} SweepFinishes(acts: seq<Action>, s: State) returns (longer: seq<Action>, s': State)
    requires Reaches(acts, s) && s.phase.Sweeping?
    ensures Reaches(longer, s') && acts <= longer && s'.phase.JoiningAcceptor?
    decreases |s.clients| - s.phase.next
  {
    hide Reaches;
    EveryRun(acts, s);
    if s.phase.next < |s.clients| {
      longer, s' := One(acts, s, SweepOne);
      longer, s' := SweepFinishes(longer, s');
    } else {
      longer, s' := One(acts, s, SweepEnd);
    }
  }

  function AcceptorRank(acceptor: Acceptor): nat {
    match acceptor
    case Pushing(_) => 7
    case Spawning(_) => 6
    case Adding(_) => 5
    case Reaping => 4
    case Accepting => 3
    case Leaving => 2
    case Clearing(_) => 1
    case Exited => 0
  }

  lemma AcceptorStep(s: State) returns (a: Action)
    requires Inv(s) && s.phase.JoiningAcceptor? && !s.acceptor.Exited? && !s.acceptor.Clearing?
    ensures Enabled(s, a) && Next(s, a).phase == s.phase
    ensures AcceptorRank(Next(s, a).acceptor) < AcceptorRank(s.acceptor)
  {
    a := match s.acceptor
      case Pushing(_) => Push
      case Spawning(_) => Spawn
      case Adding(_) => Add
      case Reaping => JoinFinished(seq(|s.group|, _ => false))
      case Accepting => Leave
      case _ => ClearBegin;
  }

  lemma {:induction false} AcceptorExits(acts: seq<Action>, s: State) returns (longer: seq<Action>, s': State)
    requires Reaches(acts, s) && s.phase.JoiningAcceptor?
    ensures Reaches(longer, s') && acts <= longer && s'.phase.JoiningAcceptor? && s'.acceptor.Exited?
    decreases AcceptorRank(s.acceptor)
  {
    hide Reaches, Enabled, Next;
    if s.acceptor.Exited? {
      longer, s' := acts, s;
    } else if s.acceptor.Clearing? {
      longer, s' := ClearFinishes(acts, s);
    } else {
      EveryRun(acts, s);
      var a := AcceptorStep(s);
      longer, s' := One(acts, s, a);
      longer, s' := AcceptorExits(longer, s');
    }
  }

  /** A client thread comes to its end, and leaves the others alone. */
  lemma ThreadFinishes(acts: seq<Action>, s: State, k: Sock) returns (longer: seq<Action>, s': State)
    requires Reaches(acts, s) && Unlocked(s) && Started(s, k)
    ensures Reaches(longer, s') && acts <= longer && k in s'.conns && s'.conns[k].thread.Finished?
    ensures s'.phase == s.phase && s'.acceptor == s.acceptor && s'.group == s.group && s'.conns.Keys == s.conns.Keys
    ensures forall j :: j in s.conns && j != k ==> s'.conns[j] == s.conns[j]
  {
    hide Reaches;
    longer, s' := acts, s;
    if s.conns[k].thread.Running? {
      longer, s' := One(acts, s, LoopExit(k));
    }
    if s'.conns[k].thread.Removing? {
      longer, s' := One(longer, s', Remove(k));
    }
  }

  lemma {:induction false} ThreadsFinish(acts: seq<Action>, s: State, list: seq<Sock>)
      returns (longer: seq<Action>, s': State)
    requires Reaches(acts, s) && Unlocked(s) && forall i :: 0 <= i < |list| ==> Started(s, list[i])
    ensures Reaches(longer, s') && acts <= longer && s'.phase == s.phase && s'.group == s.group
    ensures s'.conns.Keys == s.conns.Keys
    ensures forall i :: 0 <= i < |list| ==> list[i] in s'.conns && s'.conns[list[i]].thread.Finished?
    ensures forall k :: k in s.conns && s.conns[k].thread.Finished? ==> s'.conns[k].thread.Finished?
    decreases |list|
  {
    hide Reaches;
    if list == [] {
      longer, s' := acts, s;
    } else {
      longer, s' := ThreadFinishes(acts, s, list[0]);
      longer, s' := ThreadsFinish(longer, s', list[1..]);
      forall i | 0 <= i < |list| ensures list[i] in s'.conns && s'.conns[list[i]].thread.Finished? {
        assert i > 0 ==> list[i] == list[1..][i - 1];
      }
    }
  }

  lemma SweepStarts(acts: seq<Action>, s: State) returns (longer: seq<Action>, s': State)
    requires Reaches(acts, s) && s.phase.Stopping?
    ensures Reaches(longer, s') && acts <= longer && s'.phase.Sweeping?
  {
    hide Reaches;
    longer, s' := acts, s;
    if s.acceptor.Clearing? {
      longer, s' := ClearFinishes(acts, s);
    }
    longer, s' := One(longer, s', SweepBegin);
  }

  lemma JoinsAll(acts: seq<Action>, s: State) returns (longer: seq<Action>, s': State)
    requires Reaches(acts, s) && s.phase.JoiningThreads?
    ensures Reaches(longer, s') && acts <= longer && s'.phase.Idle?
  {
    hide Reaches;
    EveryRun(acts, s);
    GroupRuns(acts, s);
    longer, s' := ThreadsFinish(acts, s, s.group);
    longer, s' := One(longer, s', JoinAll);
  }

  /**
   No run ever reaches a state from which `stop` could not return: some continuation ends
   with the server stopped, every client closed and every thread joined.
   */
  lemma StopCanReturn(acts: seq<Action>, s: State) returns (longer: seq<Action>, s': State)
    requires Reaches(acts, s)
    ensures acts <= longer && Reaches(longer, s') && s'.phase.Idle?
    ensures s'.clients == [] && forall k :: k in s'.conns ==> s'.conns[k].closes == 1 && s'.conns[k].thread.Finished?
  {
    hide Reaches;
    longer, s' := acts, s;
    if s'.phase.Serving? {
      longer, s' := One(longer, s', StopBegin);
    }
    if s'.phase.Stopping? {
      longer, s' := SweepStarts(longer, s');
    }
    if s'.phase.Sweeping? {
      longer, s' := SweepFinishes(longer, s');
    }
    if s'.phase.JoiningAcceptor? {
      longer, s' := AcceptorExits(longer, s');
      longer, s' := One(longer, s', JoinAcceptor);
    }
    if s'.phase.JoiningThreads? {
      longer, s' := JoinsAll(longer, s');
    }
    StopJoinsAll(longer, s');
  }

  /** A running client thread may at any time serve PASV, a transfer or QUIT, or come to the end of its loop. */
  lemma ThreadsAreFree(s: State, k: Sock)
    requires k in s.conns && s.conns[k].thread.Running?
    ensures Enabled(s, Pasv(k)) && Enabled(s, UseListener(k)) && Enabled(s, Quit(k)) && Enabled(s, LoopExit(k))
    ensures var c := Next(s, Pasv(k)).conns[k]; c.listener && c.opens == s.conns[k].opens + 1
    ensures !Next(s, UseListener(k)).conns[k].listener
    ensures !Next(s, Quit(k)).conns[k].listener && !Next(s, Quit(k)).conns[k].valid
  {
  }
}
