/**
 Which id a client gets: the one in its CONNECT, or, if that is empty, the one generated
 for it (section 3.1.3.1 of MQTT 3.1.1). A session is never kept under the empty id.
 */
module BrokerIds {
  import opened Sequences
  import opened RemainingLength
  import opened Packets
  import opened Framing
  import opened Broker
  import opened BrokerRuns
  import opened BrokerInvariants
  import opened BrokerTheorems
  import opened BrokerCollisions
  import opened WireBytes

  /** The step admits handler k. */
  predicate Admitting(a: Action, k: Sock) {
    a.Client? && a.k == k && a.c.Admit?
  }

  /** Step i of the run does. */
  predicate AdmitsAt(acts: seq<Action>, i: nat, k: Sock) {
    i < |acts| && Admitting(acts[i], k)
  }

  lemma IdKept(s: State, a: Action, k: Sock)
    requires Enabled(s, a) && !Admitting(a, k) && k in Next(s, a).handlers
    requires !Next(s, a).handlers[k].pc.Handshaking? && Handshake(Next(s, a).handlers[k].stream).Some?
    ensures k in s.handlers && !s.handlers[k].pc.Handshaking?
    ensures Next(s, a).handlers[k].stream == s.handlers[k].stream && Next(s, a).handlers[k].id == s.handlers[k].id
  {
    hide Handshake;
    match a {
      case Server(step) => IdServer(s, step, k);
      case Client(j, c) =>
        HandlerEffect(s, j, c);
        if j == k {
          PastHandshake(s, k, c);
        }
    }
  }

  lemma IdServer(s: State, step: ServerStep, k: Sock)
    requires ServerEnabled(s, step) && k in ServerNext(s, step).handlers
    requires !ServerNext(s, step).handlers[k].pc.Handshaking?
    ensures k in s.handlers && s.handlers[k] == ServerNext(s, step).handlers[k]
  {
  }

  lemma PastHandshake(s: State, k: Sock, c: HandlerStep)
    requires HandlerEnabled(s, k, c) && !c.Admit? && Handshake(s.handlers[k].stream).Some?
    ensures !s.handlers[k].pc.Handshaking?
  {
    hide Handshake, NextPacket;
  }

  lemma IdGiven(s: State, k: Sock, anonymous: Id)
    requires HandlerEnabled(s, k, Admit(anonymous))
    ensures var h := HandlerNext(s, k, Admit(anonymous)).handlers[k];
            && h.stream == s.handlers[k].stream && Handshake(h.stream).Some? && anonymous != []
            && var asked := Handshake(h.stream).value.0.clientId;
               h.id == if asked != [] then asked else anonymous
  {
  }

  /**
   In every run: the id of an admitted handler is the client id of its CONNECT if that is
   not empty, and otherwise the non-empty id chosen at the step that admitted it.
   */
  lemma {:induction false} IdOfHandler(acts: seq<Action>, s: State, k: Sock) returns (i: nat)
    requires Reaches(acts, s) && k in s.handlers && !s.handlers[k].pc.Handshaking?
    requires Handshake(s.handlers[k].stream).Some?
    ensures AdmitsAt(acts, i, k) && acts[i].c.anonymous != []
    ensures var asked := Handshake(s.handlers[k].stream).value.0.clientId;
            s.handlers[k].id == if asked != [] then asked else acts[i].c.anonymous
  {
    hide Handshake, HandlerNext, ServerNext;
    var n := |acts| - 1;
    var before, a := Exec(acts[..n]).value, acts[n];
    if Admitting(a, k) {
      i := n;
      IdGiven(before, k, a.c.anonymous);
    } else {
      IdKept(before, a, k);
      i := IdOfHandler(acts[..n], before, k);
    }
  }

  lemma {:induction false} AdmittedIsKnown(acts: seq<Action>, s: State, i: nat, k: Sock)
    requires Reaches(acts, s) && AdmitsAt(acts, i, k)
    ensures k in s.handlers && !s.handlers[k].pc.Handshaking?
  {
    var n := |acts| - 1;
    var before := Exec(acts[..n]).value;
    if i < n {
      AdmittedIsKnown(acts[..n], before, i, k);
    }
    StaysAdmitted(before, acts[n], k);
  }

  lemma StaysAdmitted(s: State, a: Action, k: Sock)
    requires Enabled(s, a) && (Admitting(a, k) || (k in s.handlers && !s.handlers[k].pc.Handshaking?))
    ensures k in Next(s, a).handlers && !Next(s, a).handlers[k].pc.Handshaking?
  {
    match a {
      case Server(step) => AdmittedServer(s, step, k);
      case Client(j, c) =>
        HandlerEffect(s, j, c);
        NeverAgain(s, j, c);
    }
  }

  lemma AdmittedServer(s: State, step: ServerStep, k: Sock)
    requires ServerEnabled(s, step) && k in s.handlers
    ensures k in ServerNext(s, step).handlers && ServerNext(s, step).handlers[k] == s.handlers[k]
  {
  }

  lemma NeverAgain(s: State, k: Sock, c: HandlerStep)
    requires HandlerEnabled(s, k, c)
    ensures !HandlerNext(s, k, c).handlers[k].pc.Handshaking?
  {
    hide Handshake, NextPacket, DecodePublish, DecodeSubscribe;
  }

  lemma {:induction false} PrefixReaches(acts: seq<Action>, s: State, i: nat)
    requires Reaches(acts, s) && i < |acts|
    ensures Exec(acts[..i]).Some? && Enabled(Exec(acts[..i]).value, acts[i])
  {
    var n := |acts| - 1;
    if i < n {
      PrefixReaches(acts[..n], Exec(acts[..n]).value, i);
      assert acts[..n][..i] == acts[..i];
    }
  }

  /** A handler is admitted once. */
  lemma AdmittedOnce(acts: seq<Action>, s: State, i: nat, j: nat, k: Sock)
    requires Reaches(acts, s) && AdmitsAt(acts, i, k) && AdmitsAt(acts, j, k)
    ensures i == j
  {
    var first, second := if i < j then i else j, if i < j then j else i;
    if first < second {
      PrefixReaches(acts, s, second);
      AdmittedIsKnown(acts[..second], Exec(acts[..second]).value, first, k);
    }
  }

  /** No session is ever kept under the empty id, and none by a connection without a CONNECT. */
  lemma NoEmptyId(acts: seq<Action>, s: State, id: Id)
    requires Reaches(acts, s) && id in s.sessions
    ensures id != []
    ensures var k := s.sessions[id].sock; k in s.handlers && Handshake(s.handlers[k].stream).Some?
  {
    hide Handshake;
    EveryRun(acts, s);
    var k := s.sessions[id].sock;
    assert ReadOk(s.handlers[k]) && s.handlers[k].id == id;
    var i := IdOfHandler(acts, s, k);
  }

  // ---------- clients without an id ----------

  /** A CONNECT with an empty client id: its last two bytes are the length of the id. */
  const NAMELESS: bytes := [16, 12] + [0, 4, 77, 81, 84, 84, 4, 2, 0, 0, 0, 0]

  lemma SmallFrame(body: bytes)
    requires |body| == 12
    ensures [16] + Encode(12) + (body + []) + [] == [16, 12] + body
  {
    assert Encode(12) == [12];
    assert body + [] == body;
  }

  lemma NamelessRead()
    ensures Handshake(NAMELESS) == Some((Connect.Connect([], 0, 2), []))
  {
    hide Handshake, Encode;
    SmallFrame([0, 4, 77, 81, 84, 84, 4, 2, 0, 0, 0, 0]);
    ConnectAdmits(2, 0, 0, 0, 0, [], []);
  }

  /**
   A run with two clients that both send an empty client id: with different choices both
   are admitted, and both have their session.
   */
  lemma NamelessClientsKeepApart() returns (acts: seq<Action>, s: State)
    ensures Reaches(acts, s)
    ensures s.sessions == map[[97] := Session(1, []), [98] := Session(2, [])]
    ensures s.handlers.Keys == {1, 2} && s.handlers[1].stream == s.handlers[2].stream == NAMELESS
    ensures s.handlers[1].id == [97] && s.handlers[2].id == [98]
    ensures Handshake(NAMELESS).Some? && Handshake(NAMELESS).value.0.clientId == []
  {
    hide Reaches, Handshake;
    NamelessRead();
    acts, s := ReachTwo(NAMELESS, NAMELESS);
    acts, s := Do(acts, s, Client(1, Admit([97])));
    acts, s := Do(acts, s, Client(2, Admit([98])));
  }
}
