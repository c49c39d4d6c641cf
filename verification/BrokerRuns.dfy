/**
 The MQTT server as many threads: the caller of `start`, `stop` and `clear_messages`,
 the acceptor, and one handler per connection. A step is one locked region, one send,
 one packet read, or one test of `running_`; any enabled step may come next.

 A connection is named by its socket. The bytes its peer will ever send are fixed when
 it is accepted; when they are read is up to the schedule. A connection that fails
 early is one whose bytes stop early.
 */
module BrokerRuns {
  import opened Sequences
  import opened RemainingLength
  import opened Packets
  import opened Framing
  import opened Broker
  import ThreadGroup

  /** Where a handler is in `client_handler` and the functions it calls. */
  datatype Pc =
    | Handshaking
    | Connacking                                    // registered, CONNACK not yet sent
    | AtLoop                                        // about to test `running_`
    | Reading
    | Recording(m: Message)                         // PUBLISH decoded
    | Routing(m: Message)                           // recorded in the history
    | Sending(m: Message, targets: seq<Sock>)       // snapshot taken, these are left to send to
    | Subscribing(sub: Subscribe)
    | Subacking(reply: Outgoing)
    | Ponging
    | Rejecting                                     // SUBSCRIBE outside the grammar
    | RejectClosing
    | Leaving                                       // about to run the final `remove_session`
    | Finishing                                     // session removed, socket not yet closed
    | Done

  datatype Handler = Handler(
    stream: bytes,          // everything the peer sends
    inbound: bytes,         // what has not been read yet
    id: Id,
    read: seq<Packet>,      // the packets read since CONNECT
    pc: Pc,
    rejected: bool)

  datatype Sent =
    | Reply(out: Outgoing)
    | Forward(from: Sock, n: nat, out: Outgoing)    // the n-th PUBLISH of handler `from`

  datatype Recorded = Recorded(from: Sock, n: nat, m: Message)

  datatype Snap = Snap(m: Message, sessions: Sessions, order: seq<Id>, targets: seq<Sock>)

  /** How far `stop` has got; `Idle` is before `start` and after `stop` has returned. */
  datatype Phase = Idle | Serving | Closing | Joined | Swept

  datatype Acceptor = Exited | Accepting | Adding(sock: Sock) | Reaping

  datatype State = State(
    phase: Phase,
    acceptor: Acceptor,
    group: seq<Sock>,                               // the thread group, a thread named by its socket
    handlers: map<Sock, Handler>,
    sessions: Sessions,
    open: set<Sock>,
    history: seq<Message>,
    outbox: map<Sock, seq<Sent>>,
    // The rest only remembers what happened; no step depends on it.
    log: seq<Recorded>,                             // every message ever recorded
    cleared: nat,                                   // how many had been at the last clear
    snaps: map<(Sock, nat), Snap>,                  // the snapshot each PUBLISH was routed with
    delivered: set<(Sock, nat, Sock)>,
    lost: set<(Sock, nat, Sock)>)                   // sends that failed

  datatype ServerStep =
    | Start
    | StopBegin
    | JoinAcceptor
    | SweepSessions
    | JoinAll
    | Clear
    | Accept(sock: Sock, stream: bytes)
    | AddThread
    | JoinFinished(raised: seq<bool>)
    | AcceptorExit

  datatype HandlerStep =
    | Admit(anonymous: Id)
    | Refuse
    | SendConnack(ok: bool)
    | Enter
    | Read
    | Hangup
    | Record
    | Route(order: seq<Id>)
    | SendNext(ok: bool)
    | SendDone
    | AddFilters
    | SendSuback(ok: bool)
    | SendPong(ok: bool)
    | Reject
    | RejectClose
    | Leave
    | Finish

  datatype Action = Server(step: ServerStep) | Client(k: Sock, c: HandlerStep)

  const INIT := State(Idle, Exited, [], map[], map[], {}, [], map[], [], 0, map[], {}, {})

  // ---------- what a handler has read ----------

  function PublishOf(p: Packet): seq<Message> {
    if p.kind == PUBLISH && DecodePublish(p.body).Some? then [DecodePublish(p.body).value] else []
  }

  /** The messages of the well-formed PUBLISH packets, in order. */
  function Published(read: seq<Packet>): seq<Message> {
    if read == [] then []
    else Published(read[..|read| - 1]) + PublishOf(read[|read| - 1])
  }

  function FiltersOf(p: Packet): seq<bytes> {
    if p.kind == SUBSCRIBE && DecodeSubscribe(p.body).Some? then Filters(DecodeSubscribe(p.body).value.entries) else []
  }

  /** The filters of the well-formed SUBSCRIBE packets, in order. */
  function Requested(read: seq<Packet>): seq<bytes> {
    if read == [] then []
    else Requested(read[..|read| - 1]) + FiltersOf(read[|read| - 1])
  }

  lemma ReadSnoc(read: seq<Packet>, p: Packet)
    ensures Published(read + [p]) == Published(read) + PublishOf(p)
    ensures Requested(read + [p]) == Requested(read) + FiltersOf(p)
  {
    assert (read + [p])[..|read|] == read;
  }

  /** Decoded but not yet in the history. */
  function RecordedCount(h: Handler): int {
    |Published(h.read)| - if h.pc.Recording? then 1 else 0
  }

  function RoutedCount(h: Handler): int {
    |Published(h.read)| - if h.pc.Recording? || h.pc.Routing? then 1 else 0
  }

  /** Registered, and still to run the `remove_session` at its end. */
  predicate Live(pc: Pc) {
    !pc.Handshaking? && !pc.Finishing? && !pc.Done?
  }

  function AfterRead(p: Packet): Pc {
    if p.kind == PUBLISH then
      if DecodePublish(p.body).Some? then Recording(DecodePublish(p.body).value) else AtLoop
    else if p.kind == SUBSCRIBE then
      if DecodeSubscribe(p.body).Some? then Subscribing(DecodeSubscribe(p.body).value) else Rejecting
    else if p.kind == PINGREQ then Ponging
    else Leaving
  }

  /** The packets that end the loop on its own are those that send the handler off. */
  lemma ServicedGoesOn(p: Packet)
    ensures Serviced(p) <==> !AfterRead(p).Rejecting? && !AfterRead(p).Leaving?
  {
  }

  // ---------- steps ----------

  function ChosenId(h: Handler, anonymous: Id): Id
    requires Handshake(h.stream).Some?
  {
    var c := Handshake(h.stream).value.0;
    if c.clientId == [] then anonymous else c.clientId
  }

  function Box(outbox: map<Sock, seq<Sent>>, t: Sock): seq<Sent> {
    if t in outbox then outbox[t] else []
  }

  function Post(outbox: map<Sock, seq<Sent>>, t: Sock, sent: Sent): map<Sock, seq<Sent>> {
    outbox[t := Box(outbox, t) + [sent]]
  }

  function At(s: State, k: Sock, pc: Pc): map<Sock, Handler>
    requires k in s.handlers
  {
    s.handlers[k := s.handlers[k].(pc := pc)]
  }

  function Answer(s: State, k: Sock, ok: bool, out: Outgoing, pc: Pc): State
    requires k in s.handlers
  {
    s.(handlers := At(s, k, pc), outbox := if ok then Post(s.outbox, k, Reply(out)) else s.outbox)
  }

  /** The number of the PUBLISH that handler `h` is working on. */
  function Current(h: Handler): nat {
    if Published(h.read) == [] then 0 else |Published(h.read)| - 1
  }

  predicate ServerEnabled(s: State, step: ServerStep) {
    match step
    case Start => s.phase.Idle?
    case StopBegin => s.phase.Serving?
    case JoinAcceptor => s.phase.Closing? && s.acceptor.Exited?
    case SweepSessions => s.phase.Joined?
    case JoinAll =>
      && s.phase.Swept?
      && forall i :: 0 <= i < |s.group| ==> s.group[i] in s.handlers && s.handlers[s.group[i]].pc.Done?
    case Clear => true
    case Accept(k, stream) => s.acceptor.Accepting? && k !in s.handlers
    case AddThread => s.acceptor.Adding?
    case JoinFinished(raised) =>
      && s.acceptor.Reaping? && |raised| == |s.group|
      && forall i :: 0 <= i < |raised| && raised[i] ==> s.group[i] in s.handlers && s.handlers[s.group[i]].pc.Done?
    case AcceptorExit => s.acceptor.Accepting?
  }

  function ServerNext(s: State, step: ServerStep): State
    requires ServerEnabled(s, step)
  {
    match step
    case Start => s.(phase := Serving, acceptor := Accepting)
    case StopBegin => s.(phase := Closing)
    case JoinAcceptor => s.(phase := Joined)
    case SweepSessions => s.(phase := Swept, open := s.open - AllSockets(s.sessions), sessions := map[])
    case JoinAll => s.(phase := Idle, group := [])
    case Clear => s.(history := [], cleared := |s.log|)
    case Accept(k, stream) =>
      s.(acceptor := Adding(k), open := s.open + {k},
         handlers := s.handlers[k := Handler(stream, stream, [], [], Handshaking, false)])
    case AddThread => s.(group := s.group + [s.acceptor.sock], acceptor := Reaping)
    case JoinFinished(raised) => s.(group := ThreadGroup.Unfinished(s.group, raised), acceptor := Accepting)
    case AcceptorExit => s.(acceptor := Exited)
  }

  predicate HandlerEnabled(s: State, k: Sock, c: HandlerStep) {
    && k in s.handlers
    && var h := s.handlers[k];
       match c
       case Admit(anonymous) => h.pc.Handshaking? && Handshake(h.stream).Some? && anonymous != []
       case Refuse => h.pc.Handshaking? && Handshake(h.stream).None?
       case SendConnack(ok) => h.pc.Connacking? && (ok ==> k in s.open)
       case Enter => h.pc.AtLoop?
       case Read => h.pc.Reading? && NextPacket(h.inbound).Some? && k in s.open
       case Hangup => h.pc.Reading? && (NextPacket(h.inbound).None? || k !in s.open)
       case Record => h.pc.Recording?
       case Route(order) => h.pc.Routing? && Selects(s.sessions, h.pc.m.topic, order)
       case SendNext(ok) => h.pc.Sending? && h.pc.targets != [] && (ok ==> h.pc.targets[0] in s.open)
       case SendDone => h.pc.Sending? && h.pc.targets == []
       case AddFilters => h.pc.Subscribing?
       case SendSuback(ok) => h.pc.Subacking? && (ok ==> k in s.open)
       case SendPong(ok) => h.pc.Ponging? && (ok ==> k in s.open)
       case Reject => h.pc.Rejecting?
       case RejectClose => h.pc.RejectClosing?
       case Leave => h.pc.Leaving?
       case Finish => h.pc.Finishing?
  }

  const CONNACK_OUT := Outgoing(CONNACK * 16, [0, 0])
  const PINGRESP_OUT := Outgoing(PINGRESP * 16, [])

  function SubackOut(packetId: nat, codes: seq<byte>): Outgoing {
    Outgoing(SUBACK * 16, SubackBody(packetId, codes))
  }

  function PublishOut(m: Message): Outgoing {
    Outgoing(PUBLISH * 16, PublishBody(m))
  }

  /** The frames that handlers post are the bytes that the encoders produce. */
  lemma FramesAreEncoded(m: Message, packetId: nat, codes: seq<byte>)
    ensures Frame(CONNACK_OUT) == EncodeConnack() && Frame(PINGRESP_OUT) == EncodePingresp()
    ensures Frame(SubackOut(packetId, codes)) == EncodeSuback(packetId, codes)
    ensures Frame(PublishOut(m)) == EncodePublish(m)
  {
    PingrespIsFrame();
  }

  function HandlerNext(s: State, k: Sock, c: HandlerStep): (s': State)
    requires HandlerEnabled(s, k, c)
    ensures k in s'.handlers
  {
    var h := s.handlers[k];
    match c
    case Admit(anonymous) =>
      var id := ChosenId(h, anonymous);
      s.(sessions := s.sessions[id := Session(k, [])],
         handlers := s.handlers[k := h.(inbound := Handshake(h.stream).value.1, id := id, pc := Connacking)])
    case Refuse => s.(handlers := At(s, k, Done), open := s.open - {k})
    case SendConnack(ok) => Answer(s, k, ok, CONNACK_OUT, if ok then AtLoop else Leaving)
    case Enter => s.(handlers := At(s, k, if s.phase.Serving? then Reading else Leaving))
    case Read =>
      var (p, rest) := NextPacket(h.inbound).value;
      s.(handlers := s.handlers[k := h.(inbound := rest, read := h.read + [p], pc := AfterRead(p))])
    case Hangup => s.(handlers := At(s, k, Leaving))
    case Record =>
      s.(handlers := At(s, k, Routing(h.pc.m)), history := s.history + [h.pc.m],
         log := s.log + [Recorded(k, Current(h), h.pc.m)])
    case Route(order) =>
      var targets := Sockets(s.sessions, order);
      s.(handlers := At(s, k, Sending(h.pc.m, targets)),
         snaps := s.snaps[(k, Current(h)) := Snap(h.pc.m, s.sessions, order, targets)])
    case SendNext(ok) =>
      var t, n := h.pc.targets[0], Current(h);
      var s' := s.(handlers := At(s, k, Sending(h.pc.m, h.pc.targets[1..])));
      if ok then
        s'.(outbox := Post(s.outbox, t, Forward(k, n, PublishOut(h.pc.m))), delivered := s.delivered + {(k, n, t)})
      else s'.(lost := s.lost + {(k, n, t)})
    case SendDone => s.(handlers := At(s, k, AtLoop))
    case AddFilters =>
      var codes := ReturnCodes(s.sessions, h.id, |h.pc.sub.entries|);
      s.(handlers := At(s, k, Subacking(SubackOut(h.pc.sub.packetId, codes))),
         sessions := Subscribed(s.sessions, h.id, Filters(h.pc.sub.entries)))
    case SendSuback(ok) => Answer(s, k, ok, h.pc.reply, AtLoop)
    case SendPong(ok) => Answer(s, k, ok, PINGRESP_OUT, AtLoop)
    case Reject =>
      s.(handlers := s.handlers[k := h.(pc := RejectClosing, rejected := true)],
         open := s.open - Severed(s.sessions, h.id), sessions := Removed(s.sessions, h.id))
    case RejectClose => s.(handlers := At(s, k, AtLoop), open := s.open - {k})
    case Leave =>
      s.(handlers := At(s, k, Finishing),
         open := s.open - Severed(s.sessions, h.id), sessions := Removed(s.sessions, h.id))
    case Finish => s.(handlers := At(s, k, Done), open := s.open - {k})
  }

  predicate Enabled(s: State, a: Action) {
    match a
    case Server(step) => ServerEnabled(s, step)
    case Client(k, c) => HandlerEnabled(s, k, c)
  }

  function Next(s: State, a: Action): State
    requires Enabled(s, a)
  {
    match a
    case Server(step) => ServerNext(s, step)
    case Client(k, c) => HandlerNext(s, k, c)
  }

  /** The state after a run, if every step of it was enabled when its turn came. */
  function Exec(acts: seq<Action>): Option<State> {
    if acts == [] then Some(INIT)
    else
      match Exec(acts[..|acts| - 1])
      case None => None
      case Some(s) => if Enabled(s, acts[|acts| - 1]) then Some(Next(s, acts[|acts| - 1])) else None
  }

  predicate Reaches(acts: seq<Action>, s: State) {
    Exec(acts) == Some(s)
  }
}
