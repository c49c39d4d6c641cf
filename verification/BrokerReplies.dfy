/**
 What the broker answers, in every run: first a CONNACK, then, in the order of reading, a
 SUBACK for each well-formed SUBSCRIBE and a PINGRESP for each PINGREQ (sections 3.2, 3.9
 and 3.13 of MQTT 3.1.1), less the answers whose sends failed. All in plain bytes.
 */
module BrokerReplies {
  import opened Sequences
  import opened RemainingLength
  import opened Packets
  import opened Framing
  import opened Broker
  import opened BrokerRuns
  import opened BrokerInvariants
  import opened BrokerTheorems
  import opened BrokerOwnership
  import opened WireBytes

  // ---------- what a run tells ----------

  /** The bytes of the replies in a box, in the order in which they were sent. */
  function ReplyFrames(box: seq<Sent>): seq<bytes> {
    if box == [] then []
    else
      var last := box[|box| - 1];
      ReplyFrames(box[..|box| - 1]) + if last.Reply? then [Frame(last.out)] else []
  }

  /** Whether the step is an answer of handler k being sent, and whether that succeeds. */
  function SendResult(a: Action, k: Sock): seq<bool> {
    if a.Client? && a.k == k then
      match a.c
      case SendConnack(ok) => [ok]
      case SendSuback(ok) => [ok]
      case SendPong(ok) => [ok]
      case _ => []
    else []
  }

  function SendResults(acts: seq<Action>, k: Sock): seq<bool> {
    if acts == [] then []
    else SendResults(acts[..|acts| - 1], k) + SendResult(acts[|acts| - 1], k)
  }

  /** Whether the step enters filters for handler k, and whether a session has its id then. */
  function EntryResult(s: Option<State>, a: Action, k: Sock): seq<bool> {
    if a == Client(k, AddFilters) then
      [s.Some? && k in s.value.handlers && s.value.handlers[k].id in s.value.sessions]
    else []
  }

  function EntryResults(acts: seq<Action>, k: Sock): seq<bool> {
    if acts == [] then []
    else EntryResults(acts[..|acts| - 1], k) + EntryResult(Exec(acts[..|acts| - 1]), acts[|acts| - 1], k)
  }

  // ---------- what is due ----------

  predicate WellFormedSubscribe(p: Packet) {
    p.kind == 8 && DecodeSubscribe(p.body).Some?
  }

  function Subscribes(read: seq<Packet>): nat {
    if read == [] then 0
    else Subscribes(read[..|read| - 1]) + if WellFormedSubscribe(read[|read| - 1]) then 1 else 0
  }

  function Zeros(n: nat): seq<byte> {
    seq(n, _ => 0)
  }

  /** The answer to a SUBSCRIBE: its packet id, and a zero for each filter if they were entered. */
  function SubackTo(p: Packet, entered: bool): bytes
    requires WellFormedSubscribe(p)
  {
    var n := if entered then |DecodeSubscribe(p.body).value.entries| else 0;
    [144] + Encode(2 + n) + p.body[..2] + Zeros(n)
  }

  function AnswerTo(p: Packet, entered: bool): seq<bytes> {
    if p.kind == 12 then [[208, 0]]
    else if WellFormedSubscribe(p) then [SubackTo(p, entered)]
    else []
  }

  /** The answers to what has been read; `entered` says of each SUBSCRIBE whether its filters were entered. */
  function AnswersTo(read: seq<Packet>, entered: seq<bool>): seq<bytes> {
    if read == [] then []
    else
      var before, last := read[..|read| - 1], read[|read| - 1];
      AnswersTo(before, entered) +
      AnswerTo(last, Subscribes(before) < |entered| && entered[Subscribes(before)])
  }

  /** All that is due to an admitted client. */
  function Due(read: seq<Packet>, entered: seq<bool>): seq<bytes> {
    [[32, 2, 0, 0]] + AnswersTo(read, entered)
  }

  /** The answers whose sends succeeded. */
  function Picked(due: seq<bytes>, oks: seq<bool>): seq<bytes>
    requires |due| == |oks|
  {
    if due == [] then []
    else
      var n := |due| - 1;
      Picked(due[..n], oks[..n]) + if oks[n] then [due[n]] else []
  }

  predicate IsAdmitted(s: State, k: Sock) {
    k in s.handlers && !s.handlers[k].pc.Handshaking? && Handshake(s.handlers[k].stream).Some?
  }

  /** An answer is due that has not been tried. */
  predicate Owing(pc: Pc) {
    pc.Connacking? || pc.Subscribing? || pc.Subacking? || pc.Ponging?
  }

  predicate Gone(pc: Pc) {
    pc.Leaving? || pc.Finishing? || pc.Done?
  }

  /** The state of the answers: of what is due, all but the one in progress have been tried. */
  predicate Answering(h: Handler, oks: seq<bool>, entered: seq<bool>, frames: seq<bytes>) {
    var due := Due(h.read, entered);
    && |due| == |oks| + (if Owing(h.pc) then 1 else 0)
    && frames == Picked(due[..|oks|], oks)
    && |entered| + (if h.pc.Subscribing? then 1 else 0) == Subscribes(h.read)
    && (h.pc.Connacking? ==> h.read == []) && (h.pc.Connacking? <==> oks == [])
    && (h.pc.Subacking? ==> Frame(h.pc.reply) == due[|oks|])
    && (h.pc.Ponging? ==> due[|oks|] == [208, 0])
    && (oks != [] && !oks[0] ==> h.read == [] && Gone(h.pc))
  }

  ghost predicate Accounted(s: State, k: Sock, oks: seq<bool>, entered: seq<bool>) {
    var frames := ReplyFrames(Box(s.outbox, k));
    if IsAdmitted(s, k) then Answering(s.handlers[k], oks, entered, frames)
    else oks == [] && entered == [] && frames == []
  }

  // ---------- the steps of the handler ----------

  lemma ReplyFramesSnoc(box: seq<Sent>, sent: Sent)
    ensures ReplyFrames(box + [sent]) == ReplyFrames(box) + if sent.Reply? then [Frame(sent.out)] else []
  {
    assert (box + [sent])[..|box|] == box;
  }

  lemma AnswersSnoc(read: seq<Packet>, p: Packet, entered: seq<bool>)
    ensures Subscribes(read + [p]) == Subscribes(read) + if WellFormedSubscribe(p) then 1 else 0
    ensures AnswersTo(read + [p], entered) ==
            AnswersTo(read, entered) + AnswerTo(p, Subscribes(read) < |entered| && entered[Subscribes(read)])
  {
    assert (read + [p])[..|read|] == read;
  }

  /** What is known about earlier entries does not change. */
  lemma {:induction false} EntriesStand(read: seq<Packet>, entered: seq<bool>, more: bool)
    requires Subscribes(read) <= |entered|
    ensures AnswersTo(read, entered + [more]) == AnswersTo(read, entered)
  {
    if read != [] {
      EntriesStand(read[..|read| - 1], entered, more);
    }
  }

  lemma PickedSnoc(due: seq<bytes>, oks: seq<bool>, ok: bool)
    requires |due| == |oks| + 1
    ensures Picked(due, oks + [ok]) == Picked(due[..|oks|], oks) + if ok then [due[|oks|]] else []
  {
    assert (oks + [ok])[..|oks|] == oks;
  }

  lemma AnswerTried(due: seq<bytes>, oks: seq<bool>, ok: bool, frames: seq<bytes>)
    requires |due| == |oks| + 1 && frames == Picked(due[..|oks|], oks)
    ensures frames + (if ok then [due[|oks|]] else []) == Picked(due[..|oks + [ok]|], oks + [ok])
  {
    PickedSnoc(due, oks, ok);
    assert due[..|oks + [ok]|] == due;
  }

  /** An answer is sent, or its send fails. */
  lemma AnswerSent(h: Handler, h': Handler, oks: seq<bool>, entered: seq<bool>, frames: seq<bytes>, ok: bool)
    requires Answering(h, oks, entered, frames) && Owing(h.pc) && !h.pc.Subscribing?
    requires h'.read == h.read && !Owing(h'.pc) && (h.pc.Connacking? && !ok ==> Gone(h'.pc))
    ensures Answering(h', oks + [ok], entered, frames + if ok then [Due(h.read, entered)[|oks|]] else [])
  {
    hide Picked, Due, AnswersTo;
    AnswerTried(Due(h.read, entered), oks, ok, frames);
  }

  lemma AnswerRead(h: Handler, h': Handler, p: Packet, oks: seq<bool>, entered: seq<bool>, frames: seq<bytes>)
    requires Answering(h, oks, entered, frames) && h.pc.Reading?
    requires h'.read == h.read + [p] && h'.pc == AfterRead(p)
    ensures Answering(h', oks, entered, frames)
  {
    KindsServed(p);
    AnswersSnoc(h.read, p, entered);
    hide AfterRead, AnswersTo, Picked, SubackTo, Encode, DecodeSubscribe, DecodePublish;
    var due, due' := Due(h.read, entered), Due(h'.read, entered);
    assert due' == due + AnswerTo(p, false);
    assert due'[..|oks|] == due[..|oks|];
  }

  /** The session of the handler's id is in the map, or it is not: the SUBACK says so. */
  lemma SubackFrame(p: Packet, sub: Subscribe, codes: seq<byte>, entered: bool)
    requires WellFormedSubscribe(p) && DecodeSubscribe(p.body) == Some(sub)
    requires codes == if entered then Zeros(|sub.entries|) else []
    ensures Frame(SubackOut(sub.packetId, codes)) == SubackTo(p, entered)
  {
    SubscribeForms(p.body);
    assert |p.body| >= 2 && Word(sub.packetId) == [p.body[0], p.body[1]] by {
      WordRoundTrip(0, p.body[0], p.body[1]);
    }
    assert p.body[..2] == [p.body[0], p.body[1]];
    hide Word;
    WrittenSuback(sub.packetId, p.body[0], p.body[1], codes);
    FramesAreEncoded(Message([], []), sub.packetId, codes);
    assert Zeros(0) == [];
  }

  lemma AnswerEntered(h: Handler, h': Handler, oks: seq<bool>, entered: seq<bool>, frames: seq<bytes>, more: bool,
                      codes: seq<byte>)
    requires Answering(h, oks, entered, frames) && h.pc.Subscribing? && PcOk(h)
    requires codes == if more then Zeros(|h.pc.sub.entries|) else []
    requires h'.read == h.read && h'.pc == Subacking(SubackOut(h.pc.sub.packetId, codes))
    ensures Answering(h', oks, entered + [more], frames)
  {
    var n := |h.read| - 1;
    var before, p := h.read[..n], h.read[n];
    assert h.read == before + [p];
    AnswersSnoc(before, p, entered);
    AnswersSnoc(before, p, entered + [more]);
    EntriesStand(before, entered, more);
    SubackFrame(p, h.pc.sub, codes, more);
    hide AnswersTo, Picked, SubackOut, SubackTo, Frame;
    var due, due' := Due(h.read, entered), Due(h'.read, entered + [more]);
    assert due'[..|oks|] == due[..|oks|];
  }

  lemma AnswerQuiet(h: Handler, h': Handler, oks: seq<bool>, entered: seq<bool>, frames: seq<bytes>)
    requires Answering(h, oks, entered, frames) && h'.read == h.read
    requires !Owing(h.pc) && !Owing(h'.pc) && (Gone(h.pc) ==> Gone(h'.pc))
    ensures Answering(h', oks, entered, frames)
  {
  }

  /** The steps that neither answer nor read nor enter anything. */
  predicate Silent(c: HandlerStep) {
    !c.Admit? && !c.Refuse? && !c.Read? && !c.AddFilters? && !c.SendConnack? && !c.SendSuback? && !c.SendPong?
  }

  lemma SilentStep(s: State, k: Sock, c: HandlerStep)
    requires HandlerEnabled(s, k, c) && Silent(c)
    ensures var h, h' := s.handlers[k], HandlerNext(s, k, c).handlers[k];
            !Owing(h.pc) && !Owing(h'.pc) && (Gone(h.pc) ==> Gone(h'.pc)) && !h.pc.Handshaking? && !h'.pc.Handshaking?
  {
    hide NextPacket, DecodePublish, DecodeSubscribe, Handshake;
  }

  /** A step that posts no answer to k leaves its answers as they are, whatever it forwards. */
  lemma BoxKept(s: State, j: Sock, c: HandlerStep, k: Sock)
    requires HandlerEnabled(s, j, c) && (j != k || (!c.SendConnack? && !c.SendSuback? && !c.SendPong?))
    ensures ReplyFrames(Box(HandlerNext(s, j, c).outbox, k)) == ReplyFrames(Box(s.outbox, k))
  {
    hide ReplyFrames, NextPacket, DecodePublish, DecodeSubscribe, Handshake;
    if c.SendNext? && c.ok && s.handlers[j].pc.targets[0] == k {
      ReplyFramesSnoc(Box(s.outbox, k), Forward(j, Current(s.handlers[j]), PublishOut(s.handlers[j].pc.m)));
    }
  }

  lemma BoxAnswered(s: State, k: Sock, out: Outgoing, ok: bool, outbox: map<Sock, seq<Sent>>)
    requires outbox == if ok then Post(s.outbox, k, Reply(out)) else s.outbox
    ensures ReplyFrames(Box(outbox, k)) == ReplyFrames(Box(s.outbox, k)) + if ok then [Frame(out)] else []
  {
    hide ReplyFrames;
    ReplyFramesSnoc(Box(s.outbox, k), Reply(out));
    assert ReplyFrames(Box(s.outbox, k)) + [] == ReplyFrames(Box(s.outbox, k));
  }

  /** The answer that a Send step is about. */
  function Pending(h: Handler): Outgoing {
    if h.pc.Connacking? then CONNACK_OUT else if h.pc.Subacking? then h.pc.reply else PINGRESP_OUT
  }

  lemma SendStep(s: State, k: Sock, c: HandlerStep)
    requires HandlerEnabled(s, k, c) && (c.SendConnack? || c.SendSuback? || c.SendPong?)
    ensures var h, s' := s.handlers[k], HandlerNext(s, k, c);
            var h' := s'.handlers[k];
            && s'.outbox == (if c.ok then Post(s.outbox, k, Reply(Pending(h))) else s.outbox)
            && (h.pc.Connacking? || h.pc.Subacking? || h.pc.Ponging?)
            && h'.read == h.read && h'.stream == h.stream && !Owing(h'.pc) && !h'.pc.Handshaking?
            && (h.pc.Connacking? && !c.ok ==> Gone(h'.pc))
            && SendResult(Client(k, c), k) == [c.ok] && EntryResult(Some(s), Client(k, c), k) == []
  {
    hide Frame;
  }

  lemma PendingIsDue(h: Handler, oks: seq<bool>, entered: seq<bool>, frames: seq<bytes>)
    requires Answering(h, oks, entered, frames) && (h.pc.Connacking? || h.pc.Subacking? || h.pc.Ponging?)
    ensures Frame(Pending(h)) == Due(h.read, entered)[|oks|]
  {
    hide Frame, Due;
    WrittenAnswers();
    FramesAreEncoded(Message([], []), 0, []);
    ConnackFirst(h.read, entered);
  }

  lemma ConnackFirst(read: seq<Packet>, entered: seq<bool>)
    ensures |Due(read, entered)| > 0 && Due(read, entered)[0] == [32, 2, 0, 0]
  {
  }

  lemma AccountedSend(s: State, k: Sock, c: HandlerStep, oks: seq<bool>, entered: seq<bool>)
    requires Accounted(s, k, oks, entered) && IsAdmitted(s, k)
    requires HandlerEnabled(s, k, c) && (c.SendConnack? || c.SendSuback? || c.SendPong?)
    ensures Accounted(HandlerNext(s, k, c), k, oks + [c.ok], entered)
  {
    var h, s' := s.handlers[k], HandlerNext(s, k, c);
    var frames := ReplyFrames(Box(s.outbox, k));
    SendStep(s, k, c);
    PendingIsDue(h, oks, entered, frames);
    BoxAnswered(s, k, Pending(h), c.ok, s'.outbox);
    hide HandlerNext, HandlerEnabled, ReplyFrames, Answering, Handshake;
    SendGoesOn(h, s'.handlers[k], oks, entered, frames, c.ok);
  }

  lemma SendGoesOn(h: Handler, h': Handler, oks: seq<bool>, entered: seq<bool>, frames: seq<bytes>, ok: bool)
    requires Answering(h, oks, entered, frames) && (h.pc.Connacking? || h.pc.Subacking? || h.pc.Ponging?)
    requires Frame(Pending(h)) == Due(h.read, entered)[|oks|]
    requires h'.read == h.read && !Owing(h'.pc) && (h.pc.Connacking? && !ok ==> Gone(h'.pc))
    ensures Answering(h', oks + [ok], entered, frames + if ok then [Frame(Pending(h))] else [])
  {
    AnswerSent(h, h', oks, entered, frames, ok);
  }

  lemma AccountedAdmit(s: State, k: Sock, c: HandlerStep, oks: seq<bool>, entered: seq<bool>)
    requires Accounted(s, k, oks, entered) && Reads(s) && HandlerEnabled(s, k, c) && (c.Admit? || c.Refuse?)
    ensures Accounted(HandlerNext(s, k, c), k, oks, entered)
  {
    hide ReplyFrames, Handshake;
    BoxKept(s, k, c, k);
    assert s.handlers[k].read == [];
  }

  lemma AccountedQuiet(s: State, k: Sock, c: HandlerStep, oks: seq<bool>, entered: seq<bool>)
    requires Accounted(s, k, oks, entered) && HandlerEnabled(s, k, c) && Silent(c)
    ensures Accounted(HandlerNext(s, k, c), k, oks, entered)
  {
    BoxKept(s, k, c, k);
    HandlerEffect(s, k, c);
    SilentStep(s, k, c);
    hide HandlerNext, HandlerEnabled, ReplyFrames, Answering, Handshake, Owing;
    if IsAdmitted(s, k) {
      AnswerQuiet(s.handlers[k], HandlerNext(s, k, c).handlers[k], oks, entered, ReplyFrames(Box(s.outbox, k)));
    }
  }

  lemma AccountedRead(s: State, k: Sock, oks: seq<bool>, entered: seq<bool>)
    requires Accounted(s, k, oks, entered) && HandlerEnabled(s, k, Read)
    ensures Accounted(HandlerNext(s, k, Read), k, oks, entered)
  {
    BoxKept(s, k, Read, k);
    HandlerEffect(s, k, Read);
    var p := OnePacketRead(s, k);
    NeverHandshaking(p);
    hide HandlerNext, ReplyFrames, Answering, Handshake, AfterRead;
    if IsAdmitted(s, k) {
      AnswerRead(s.handlers[k], HandlerNext(s, k, Read).handlers[k], p, oks, entered, ReplyFrames(Box(s.outbox, k)));
    }
  }

  lemma NeverHandshaking(p: Packet)
    ensures !AfterRead(p).Handshaking?
  {
  }

  lemma EntryStep(s: State, k: Sock)
    requires HandlerEnabled(s, k, AddFilters)
    ensures var h, h' := s.handlers[k], HandlerNext(s, k, AddFilters).handlers[k];
            var more := h.id in s.sessions;
            && h.pc.Subscribing? && h'.stream == h.stream && h'.read == h.read
            && h'.pc == Subacking(SubackOut(h.pc.sub.packetId, if more then Zeros(|h.pc.sub.entries|) else []))
            && EntryResult(Some(s), Client(k, AddFilters), k) == [more]
  {
  }

  lemma AccountedEntry(s: State, k: Sock, oks: seq<bool>, entered: seq<bool>)
    requires Accounted(s, k, oks, entered) && IsAdmitted(s, k) && Reads(s) && HandlerEnabled(s, k, AddFilters)
    ensures Accounted(HandlerNext(s, k, AddFilters), k, oks, entered + [s.handlers[k].id in s.sessions])
  {
    var h, h' := s.handlers[k], HandlerNext(s, k, AddFilters).handlers[k];
    BoxKept(s, k, AddFilters, k);
    EntryStep(s, k);
    assert PcOk(h);
    hide HandlerNext, ReplyFrames, Answering, Handshake, SubackOut;
    var more := h.id in s.sessions;
    AnswerEntered(h, h', oks, entered, ReplyFrames(Box(s.outbox, k)), more,
                  if more then Zeros(|h.pc.sub.entries|) else []);
  }

  lemma AdmittedNow(s: State, k: Sock, c: HandlerStep)
    requires Reads(s) && HandlerEnabled(s, k, c) && !c.Admit? && !c.Refuse? && !Silent(c)
    ensures IsAdmitted(s, k)
  {
    assert ReadOk(s.handlers[k]);
  }

  lemma NoResults(s: State, k: Sock, c: HandlerStep)
    requires Silent(c) || c.Admit? || c.Refuse? || c.Read?
    ensures SendResult(Client(k, c), k) == [] && EntryResult(Some(s), Client(k, c), k) == []
  {
  }

  lemma AccountedSelf(s: State, k: Sock, c: HandlerStep, oks: seq<bool>, entered: seq<bool>)
    requires Accounted(s, k, oks, entered) && Reads(s) && HandlerEnabled(s, k, c)
    ensures Accounted(HandlerNext(s, k, c), k, oks + SendResult(Client(k, c), k),
                      entered + EntryResult(Some(s), Client(k, c), k))
  {
    hide HandlerNext, Accounted, Reads;
    assert oks + [] == oks && entered + [] == entered;
    if c.Admit? || c.Refuse? {
      NoResults(s, k, c);
      AccountedAdmit(s, k, c, oks, entered);
    } else if Silent(c) {
      NoResults(s, k, c);
      AccountedQuiet(s, k, c, oks, entered);
    } else if c.Read? {
      NoResults(s, k, c);
      AccountedRead(s, k, oks, entered);
    } else {
      AdmittedNow(s, k, c);
      if c.AddFilters? {
        AccountedEntry(s, k, oks, entered);
      } else {
        AccountedSend(s, k, c, oks, entered);
      }
    }
  }

  lemma AccountedOther(s: State, j: Sock, c: HandlerStep, k: Sock, oks: seq<bool>, entered: seq<bool>)
    requires Accounted(s, k, oks, entered) && HandlerEnabled(s, j, c) && j != k
    ensures Accounted(HandlerNext(s, j, c), k, oks, entered)
  {
    hide HandlerNext, HandlerEnabled, ReplyFrames, Answering, Handshake;
    HandlerEffect(s, j, c);
    BoxKept(s, j, c, k);
  }

  lemma AccountedServer(s: State, step: ServerStep, k: Sock, oks: seq<bool>, entered: seq<bool>)
    requires Accounted(s, k, oks, entered) && ServerEnabled(s, step)
    ensures Accounted(ServerNext(s, step), k, oks, entered)
  {
    hide ReplyFrames, Answering, Handshake;
  }

  lemma AccountedStep(s: State, a: Action, k: Sock, oks: seq<bool>, entered: seq<bool>)
    requires Accounted(s, k, oks, entered) && Reads(s) && Enabled(s, a)
    ensures Accounted(Next(s, a), k, oks + SendResult(a, k), entered + EntryResult(Some(s), a, k))
  {
    hide Accounted, Reads, HandlerNext, ServerNext;
    assert oks + [] == oks && entered + [] == entered;
    match a {
      case Server(step) => AccountedServer(s, step, k, oks, entered);
      case Client(j, c) =>
        if j == k {
          AccountedSelf(s, k, c, oks, entered);
        } else {
          AccountedOther(s, j, c, k, oks, entered);
        }
    }
  }

  lemma {:induction false} AccountedRuns(acts: seq<Action>, s: State, k: Sock)
    requires Reaches(acts, s)
    ensures Accounted(s, k, SendResults(acts, k), EntryResults(acts, k))
  {
    if acts != [] {
      var n := |acts| - 1;
      var before := Exec(acts[..n]).value;
      AccountedRuns(acts[..n], before, k);
      EveryRun(acts[..n], before);
      assert Reads(before);
      hide Accounted, Basics;
      AccountedStep(before, acts[n], k, SendResults(acts[..n], k), EntryResults(acts[..n], k));
    }
  }

  /**
   In every run, for every client that has been admitted: the replies in its box are, in
   order, the answers due to it whose sends succeeded. All of them have been tried but
   the one in progress, if one is. When the CONNACK could not be sent nothing was read.
   */
  lemma RepliesExactly(acts: seq<Action>, s: State, k: Sock)
    requires Reaches(acts, s) && IsAdmitted(s, k)
    ensures var h, oks, entered := s.handlers[k], SendResults(acts, k), EntryResults(acts, k);
            var due := Due(h.read, entered);
            var inProgress := h.pc.Connacking? || h.pc.Subscribing? || h.pc.Subacking? || h.pc.Ponging?;
            && |due| == |oks| + (if inProgress then 1 else 0)
            && ReplyFrames(Box(s.outbox, k)) == Picked(due[..|oks|], oks)
            && |entered| + (if h.pc.Subscribing? then 1 else 0) == Subscribes(h.read)
            && (oks != [] && !oks[0] ==> h.read == [])
  {
    AccountedRuns(acts, s, k);
    hide ReplyFrames, Due, SendResults, EntryResults, Handshake, Picked;
  }

  /** A connection that has not been admitted has been sent no reply. */
  lemma NobodyElseAnswered(acts: seq<Action>, s: State, k: Sock)
    requires Reaches(acts, s) && !IsAdmitted(s, k)
    ensures ReplyFrames(Box(s.outbox, k)) == []
  {
    AccountedRuns(acts, s, k);
  }

  lemma {:induction false} AllPicked(due: seq<bytes>, oks: seq<bool>)
    requires |due| == |oks| && false !in oks
    ensures Picked(due, oks) == due
  {
    if due != [] {
      var n := |due| - 1;
      AllPicked(due[..n], oks[..n]);
      assert due == due[..n] + [due[n]] && oks[n] in oks;
    }
  }

  /** When no send of an answer has failed and none is in progress, the replies are exactly those due. */
  lemma AllAnswered(acts: seq<Action>, s: State, k: Sock)
    requires Reaches(acts, s) && IsAdmitted(s, k) && false !in SendResults(acts, k) && !Owing(s.handlers[k].pc)
    ensures ReplyFrames(Box(s.outbox, k)) == [[32, 2, 0, 0]] + AnswersTo(s.handlers[k].read, EntryResults(acts, k))
  {
    RepliesExactly(acts, s, k);
    var due := Due(s.handlers[k].read, EntryResults(acts, k));
    assert due[..|due|] == due;
    AllPicked(due, SendResults(acts, k));
  }

  // ---------- filters are entered ----------

  lemma PhaseKept(s: State, a: Action)
    requires Enabled(s, a) && !s.phase.Swept? && a != Server(SweepSessions)
    ensures !Next(s, a).phase.Swept?
  {
    match a {
      case Server(step) =>
      case Client(k, c) =>
        HandlerFrame(s, k, c);
        hide HandlerNext;
    }
  }

  lemma {:induction false} NotSwept(acts: seq<Action>, s: State)
    requires Reaches(acts, s) && Server(SweepSessions) !in acts
    ensures !s.phase.Swept?
  {
    if acts != [] {
      var n := |acts| - 1;
      var before := Exec(acts[..n]).value;
      NotSwept(acts[..n], before);
      assert acts[n] in acts;
      hide Next, Enabled;
      PhaseKept(before, acts[n]);
    }
  }

  lemma HasItsSession(acts: seq<Action>, s: State, k: Sock)
    requires DistinctRun(acts, s) && !s.phase.Swept? && HandlerEnabled(s, k, AddFilters)
    ensures s.handlers[k].id in s.sessions
  {
    DistinctRunsOwn(acts, s);
    RejectedRuns(acts, s);
    assert Holding(s.handlers[k]) && Owned(s, k);
  }

  /**
   In a run without duplicate ids and before the sweep of `stop`, every SUBSCRIBE has its
   filters entered, so that its SUBACK has one zero for each.
   */
  lemma {:induction false} AllEntered(acts: seq<Action>, s: State, k: Sock)
    requires DistinctRun(acts, s) && Server(SweepSessions) !in acts
    ensures false !in EntryResults(acts, k)
  {
    if acts != [] {
      var n := |acts| - 1;
      var before := Exec(acts[..n]).value;
      AllEntered(acts[..n], before, k);
      NotSwept(acts[..n], before);
      if acts[n] == Client(k, AddFilters) {
        HasItsSession(acts[..n], before, k);
      }
    }
  }
}
