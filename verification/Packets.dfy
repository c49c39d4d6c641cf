/**
 The packet bodies of MQTT 3.1.1 that the broker reads and writes (sections 3.1, 3.3,
 3.8 and 3.9). C++ strings are byte strings here; a 16-bit length is two bytes, high first.
 */
module Packets {
  import opened Sequences
  import opened RemainingLength

  type bytes = seq<byte>

  const CONNECT := 1
  const CONNACK := 2
  const PUBLISH := 3
  const SUBSCRIBE := 8
  const SUBACK := 9
  const PINGREQ := 12
  const PINGRESP := 13

  datatype Message = Message(topic: bytes, payload: bytes)

  datatype Entry = Entry(filter: bytes, qos: byte)

  datatype Subscribe = Subscribe(packetId: nat, entries: seq<Entry>)

  datatype Connect = Connect(clientId: bytes, keepalive: nat, flags: byte)

  /** `static_cast<uint16_t>(n)` as two bytes: the length is cut to 16 bits. */
  function Word(n: nat): bytes {
    var cut := n % 65536;
    [cut / 256, cut % 256]
  }

  /** `(static_cast<uint16_t>(hi) << 8) | lo` */
  function MakeWord(hi: byte, lo: byte): (n: nat)
    ensures n < 65536
  {
    hi * 256 + lo
  }

  function WordAt(data: bytes): nat
    requires |data| >= 2
  {
    MakeWord(data[0], data[1])
  }

  lemma WordRoundTrip(n: nat, hi: byte, lo: byte)
    ensures |Word(n)| == 2 && WordAt(Word(n)) == n % 65536
    ensures Word(WordAt([hi, lo])) == [hi, lo]
  {
    Halves(hi, lo);
  }

  lemma Halves(hi: byte, lo: byte)
    ensures var n := hi * 256 + lo; n % 65536 == n && n / 256 == hi && n % 256 == lo
  {
  }

  // ---------- frames ----------

  function FramePacket(typeAndFlags: byte, payload: bytes): bytes {
    [typeAndFlags] + Encode(|payload|) + payload
  }

  // ---------- PUBLISH ----------

  function DecodePublish(data: bytes): Option<Message> {
    if |data| < 2 then None
    else
      var n := WordAt(data);
      if n == 0 || 2 + n > |data| then None
      else Some(Message(data[2..2 + n], data[2 + n..]))
  }

  function PublishBody(m: Message): bytes {
    Word(|m.topic|) + m.topic + m.payload
  }

  function EncodePublish(m: Message): bytes {
    FramePacket(PUBLISH * 16, PublishBody(m))
  }

  /** Forwarding is lossless: what was accepted is sent on with the identical body. */
  lemma ForwardedBodyIdentical(data: bytes)
    requires DecodePublish(data).Some?
    ensures 0 < |DecodePublish(data).value.topic| < 65536
    ensures PublishBody(DecodePublish(data).value) == data
  {
    var n := WordAt(data);
    WordRoundTrip(n, data[0], data[1]);
    assert data == data[..2] + data[2..2 + n] + data[2 + n..];
  }

  /** Encoding is undone by decoding exactly for the topics whose length fits in 16 bits and is not 0. */
  lemma PublishRoundTrip(m: Message)
    ensures DecodePublish(PublishBody(m)) == Some(m) <==> 0 < |m.topic| < 65536
  {
    var body := PublishBody(m);
    WordRoundTrip(|m.topic|, 0, 0);
    assert body[..2] == Word(|m.topic|);
    assert WordAt(body) == |m.topic| % 65536;
    if 0 < |m.topic| < 65536 {
      assert body[2..2 + |m.topic|] == m.topic;
    }
  }

  // ---------- SUBSCRIBE ----------

  function EntryBytes(e: Entry): bytes {
    Word(|e.filter|) + e.filter + [e.qos]
  }

  function EntriesBytes(entries: seq<Entry>): bytes {
    if entries == [] then [] else EntryBytes(entries[0]) + EntriesBytes(entries[1..])
  }

  function SubscribeBody(s: Subscribe): bytes {
    Word(s.packetId) + EntriesBytes(s.entries)
  }

  /** What the 16-bit fields of a SUBSCRIBE can hold. */
  predicate Representable(s: Subscribe) {
    s.packetId < 65536 && forall i :: 0 <= i < |s.entries| ==> |s.entries[i].filter| < 65536
  }

  /** The entry at the front of `data` with the number of bytes it takes up. */
  function FirstEntry(data: bytes): (r: Option<(Entry, nat)>)
    ensures r.Some? ==> 3 <= r.value.1 <= |data|
  {
    if |data| < 2 then None
    else
      var n := WordAt(data);
      if 2 + n + 1 > |data| then None else Some((Entry(data[2..2 + n], data[2 + n]), 2 + n + 1))
  }

  function DecodeEntries(data: bytes): Option<seq<Entry>> {
    if data == [] then Some([])
    else
      var first := FirstEntry(data);
      if first.None? then None else PrependEntry(first.value.0, DecodeEntries(data[first.value.1..]))
  }

  function PrependEntry(e: Entry, rest: Option<seq<Entry>>): Option<seq<Entry>> {
    if rest.None? then None else Some([e] + rest.value)
  }

  function DecodeSubscribe(data: bytes): Option<Subscribe> {
    if |data| < 2 then None
    else
      match DecodeEntries(data[2..])
      case None => None
      case Some(entries) => Some(Subscribe(WordAt(data), entries))
  }

  function Assemble(packetId: nat, entries: seq<Entry>, rest: Option<seq<Entry>>): Option<Subscribe> {
    match rest
    case None => None
    case Some(more) => Some(Subscribe(packetId, if entries == [] then more else entries + more))
  }

  lemma AssembleNext(packetId: nat, entries: seq<Entry>, e: Entry, rest: Option<seq<Entry>>)
    ensures Assemble(packetId, entries + [e], rest) == Assemble(packetId, entries, PrependEntry(e, rest))
  {
    if rest.Some? {
      assert [] + [e] == [e];
      ConcatAssociative(entries, [e], rest.value);
    }
  }

  /** What the parse comes to when `entries` are read and the rest starts at `offset`. */
  function Continue(packetId: nat, entries: seq<Entry>, data: bytes, offset: nat): Option<Subscribe>
    requires offset <= |data|
  {
    Assemble(packetId, entries, DecodeEntries(data[offset..]))
  }

  /** The front entry at `offset` is `e`, and it ends where `next` begins. */
  predicate HoldsEntry(data: bytes, offset: nat, next: nat, e: Entry) {
    offset < next <= |data| && FirstEntry(data[offset..]) == Some((e, next - offset))
  }

  lemma EntriesFrom(data: bytes, offset: nat, next: nat, e: Entry)
    requires offset < next <= |data| && HoldsEntry(data, offset, next, e)
    ensures DecodeEntries(data[offset..]) == PrependEntry(e, DecodeEntries(data[next..]))
  {
    var here, k := data[offset..], next - offset;
    assert here != [] && FirstEntry(here) == Some((e, k));
    assert here[k..] == data[next..];
  }

  lemma ContinueWith(packetId: nat, entries: seq<Entry>, data: bytes, offset: nat, e: Entry, next: nat)
    requires offset < next <= |data| && HoldsEntry(data, offset, next, e)
    ensures Continue(packetId, entries, data, offset) == Continue(packetId, entries + [e], data, next)
  {
    EntriesFrom(data, offset, next, e);
    AssembleNext(packetId, entries, e, DecodeEntries(data[next..]));
  }

  lemma ParseStarts(data: bytes)
    ensures DecodeSubscribe(data) ==
            if |data| < 2 then None else Continue(MakeWord(data[0], data[1]), [], data, 2)
  {
  }

  /** A round that stops: fewer than 2 bytes are left, or fewer than the length in them asks for. */
  lemma RoundFails(packetId: nat, entries: seq<Entry>, data: bytes, offset: nat)
    requires offset < |data|
    requires offset + 2 <= |data| ==> offset + 2 + MakeWord(data[offset], data[offset + 1]) + 1 > |data|
    ensures Continue(packetId, entries, data, offset) == None
  {
    assert FirstEntry(data[offset..]) == None;
  }

  /** A round that reads `e` from the bytes before `end`. */
  lemma RoundReads(packetId: nat, entries: seq<Entry>, data: bytes, offset: nat, end: nat, e: Entry)
    requires offset + 2 <= end < |data| && end == offset + 2 + MakeWord(data[offset], data[offset + 1])
    requires e == Entry(data[offset + 2..end], data[end])
    ensures Continue(packetId, entries, data, offset) == Continue(packetId, entries + [e], data, end + 1)
  {
    EntryAt(data, offset, end, e);
    ContinueWith(packetId, entries, data, offset, e, end + 1);
  }

  lemma EntryAt(data: bytes, offset: nat, end: nat, e: Entry)
    requires offset + 2 <= end < |data| && end == offset + 2 + MakeWord(data[offset], data[offset + 1])
    requires e == Entry(data[offset + 2..end], data[end])
    ensures HoldsEntry(data, offset, end + 1, e)
  {
    var here := data[offset..];
    assert WordAt(here) == end - offset - 2;
    assert here[2..end - offset] == data[offset + 2..end];
  }

  lemma ParseEnds(packetId: nat, entries: seq<Entry>, data: bytes)
    ensures Continue(packetId, entries, data, |data|) == Some(Subscribe(packetId, entries))
  {
    assert entries + [] == entries;
  }

  /** The offset-driven loop; every read of `data` is checked to be in bounds. */
  method DecodeSubscribeLoop(data: bytes) returns (r: Option<Subscribe>)
    ensures r == DecodeSubscribe(data)
  {
    hide Continue, DecodeSubscribe;
    ParseStarts(data);
    if |data| < 2 {
      return None;
    }
    var packetId := MakeWord(data[0], data[1]);
    var entries: seq<Entry> := [];
    var offset := 2;
    ghost var whole := DecodeSubscribe(data);
    while offset < |data|
      invariant 2 <= offset <= |data|
      invariant whole == Continue(packetId, entries, data, offset)
    {
      ghost var start := offset;
      if offset + 2 > |data| {
        RoundFails(packetId, entries, data, start);
        return None;
      }
      var n := MakeWord(data[offset], data[offset + 1]);
      offset := offset + 2;
      if offset + n + 1 > |data| {
        RoundFails(packetId, entries, data, start);
        return None;
      }
      var filter := data[offset..offset + n];
      offset := offset + n;
      var qos := data[offset];
      RoundReads(packetId, entries, data, start, offset, Entry(filter, qos));
      offset := offset + 1;
      entries := entries + [Entry(filter, qos)];
    }
    ParseEnds(packetId, entries, data);
    r := Some(Subscribe(packetId, entries));
  }

  lemma FirstEntryOf(hi: byte, lo: byte, e: Entry, rest: bytes)
    requires |e.filter| == MakeWord(hi, lo)
    ensures var front := [hi, lo] + e.filter + [e.qos];
            FirstEntry(front + rest) == Some((e, |front|)) && (front + rest)[|front|..] == rest
  {
    var data := [hi, lo] + e.filter + [e.qos] + rest;
    assert data[2..2 + |e.filter|] == e.filter;
  }

  lemma EntryFirst(e: Entry, rest: bytes)
    requires |e.filter| < 65536
    ensures var data := EntryBytes(e) + rest;
            FirstEntry(data) == Some((e, |EntryBytes(e)|)) && data[|EntryBytes(e)|..] == rest
  {
    hide Word;
    var w := Word(|e.filter|);
    WordRoundTrip(|e.filter|, 0, 0);
    assert w == [w[0], w[1]];
    FirstEntryOf(w[0], w[1], e, rest);
  }

  lemma {:induction false} EntriesRoundTrip(entries: seq<Entry>)
    requires forall i :: 0 <= i < |entries| ==> |entries[i].filter| < 65536
    ensures DecodeEntries(EntriesBytes(entries)) == Some(entries)
  {
    if entries != [] {
      EntriesRoundTrip(entries[1..]);
      EntryFirst(entries[0], EntriesBytes(entries[1..]));
      assert entries == [entries[0]] + entries[1..];
    }
  }

  lemma EntryReserialise(data: bytes)
    requires FirstEntry(data).Some?
    ensures var (e, k) := FirstEntry(data).value;
            |e.filter| < 65536 && EntryBytes(e) + data[k..] == data
  {
    var n := WordAt(data);
    WordRoundTrip(n, data[0], data[1]);
    assert Word(n) == data[..2];
    assert data[..2] + data[2..2 + n] + [data[2 + n]] + data[2 + n + 1..] == data;
  }

  lemma {:induction false} EntriesReserialise(data: bytes)
    requires DecodeEntries(data).Some?
    ensures var entries := DecodeEntries(data).value;
            && EntriesBytes(entries) == data
            && 3 * |entries| <= |data|
            && forall i :: 0 <= i < |entries| ==> |entries[i].filter| < 65536
  {
    if data != [] {
      var rest := data[FirstEntry(data).value.1..];
      EntriesReserialise(rest);
      EntryReserialise(data);
      assert DecodeEntries(data).value[1..] == DecodeEntries(rest).value;
    }
  }

  lemma SubscribeForms(data: bytes)
    requires DecodeSubscribe(data).Some?
    ensures Representable(DecodeSubscribe(data).value) && SubscribeBody(DecodeSubscribe(data).value) == data
  {
    EntriesReserialise(data[2..]);
    WordRoundTrip(0, data[0], data[1]);
    assert data == [data[0], data[1]] + data[2..];
  }

  lemma SubscribeParts(s: Subscribe)
    requires Representable(s)
    ensures DecodeSubscribe(SubscribeBody(s)) == Some(s)
  {
    hide Word;
    var w := Word(s.packetId);
    EntriesRoundTrip(s.entries);
    WordRoundTrip(s.packetId, 0, 0);
    assert w == [w[0], w[1]];
    SubscribeAt(w[0], w[1], EntriesBytes(s.entries));
  }

  lemma SubscribeAt(hi: byte, lo: byte, rest: bytes)
    ensures DecodeSubscribe([hi, lo] + rest) == Assemble(MakeWord(hi, lo), [], DecodeEntries(rest))
  {
    assert ([hi, lo] + rest)[2..] == rest;
  }

  /**
   The parser is the exact inverse of the grammar: it accepts a body, with a given
   result, if and only if that result is representable and serialises to the body.
   */
  lemma SubscribeExact(data: bytes, s: Subscribe)
    ensures DecodeSubscribe(data) == Some(s) <==> Representable(s) && data == SubscribeBody(s)
  {
    if DecodeSubscribe(data) == Some(s) {
      SubscribeForms(data);
    }
    if Representable(s) && data == SubscribeBody(s) {
      SubscribeParts(s);
    }
  }

  function Filters(entries: seq<Entry>): (fs: seq<bytes>)
    ensures |fs| == |entries|
  {
    seq(|entries|, i requires 0 <= i < |entries| => entries[i].filter)
  }

  // ---------- CONNECT ----------

  const PROTOCOL: bytes := [0, 4, 77, 81, 84, 84, 4]  // "MQTT" with its length, level 4

  function DecodeConnect(data: bytes): Option<Connect> {
    if |data| < 10 then None
    else if WordAt(data) != 4 || data[2] != 77 || data[3] != 81 || data[4] != 84 || data[5] != 84 then None
    else if data[6] != 4 then None
    else if 12 > |data| then None
    else
      var n := WordAt(data[10..]);
      if 12 + n > |data| then None
      else Some(Connect(data[12..12 + n], WordAt(data[8..]), data[7]))
  }

  function ConnectBody(c: Connect): bytes {
    PROTOCOL + [c.flags] + Word(c.keepalive) + Word(|c.clientId|) + c.clientId
  }

  lemma ConnectForms(data: bytes)
    requires DecodeConnect(data).Some?
    ensures var c := DecodeConnect(data).value;
            c.keepalive < 65536 && |c.clientId| < 65536 && ConnectBody(c) <= data
  {
    var c, n := DecodeConnect(data).value, WordAt(data[10..]);
    WordRoundTrip(n, data[10], data[11]);
    WordRoundTrip(c.keepalive, data[8], data[9]);
    assert data[10..12] == [data[10], data[11]] && data[8..10] == [data[8], data[9]];
    assert data[..7] == PROTOCOL;
    assert data[..12 + n] == data[..7] + [data[7]] + data[8..10] + data[10..12] + data[12..12 + n];
  }

  lemma ConnectAt(flags: byte, k0: byte, k1: byte, n0: byte, n1: byte, id: bytes, rest: bytes)
    requires |id| == MakeWord(n0, n1)
    ensures var data := PROTOCOL + [flags] + [k0, k1] + [n0, n1] + id + rest;
            DecodeConnect(data) == Some(Connect(id, MakeWord(k0, k1), flags))
  {
    var data := PROTOCOL + [flags] + [k0, k1] + [n0, n1] + id + rest;
    assert data[12..12 + |id|] == id;
  }

  lemma ConnectParts(c: Connect, rest: bytes)
    requires c.keepalive < 65536 && |c.clientId| < 65536
    ensures DecodeConnect(ConnectBody(c) + rest) == Some(c)
  {
    hide Word;
    var k, n := Word(c.keepalive), Word(|c.clientId|);
    WordRoundTrip(|c.clientId|, 0, 0);
    WordRoundTrip(c.keepalive, 0, 0);
    assert k == [k[0], k[1]] && n == [n[0], n[1]];
    ConnectAt(c.flags, k[0], k[1], n[0], n[1], c.clientId, rest);
  }

  /** A CONNECT body is accepted if and only if it starts with the form of the result; the rest is ignored. */
  lemma ConnectExact(data: bytes, c: Connect)
    ensures DecodeConnect(data) == Some(c) <==>
            && c.keepalive < 65536 && |c.clientId| < 65536
            && ConnectBody(c) <= data
  {
    if DecodeConnect(data) == Some(c) {
      ConnectForms(data);
    }
    if c.keepalive < 65536 && |c.clientId| < 65536 && ConnectBody(c) <= data {
      var rest := data[|ConnectBody(c)|..];
      assert data == ConnectBody(c) + rest;
      ConnectParts(c, rest);
    }
  }

  // ---------- replies ----------

  function EncodeConnack(): bytes {
    FramePacket(CONNACK * 16, [0, 0])
  }

  function SubackBody(packetId: nat, codes: seq<byte>): bytes {
    Word(packetId) + codes
  }

  function EncodeSuback(packetId: nat, codes: seq<byte>): bytes {
    FramePacket(SUBACK * 16, SubackBody(packetId, codes))
  }

  function EncodePingresp(): bytes {
    [208, 0]
  }

  /** The literal bytes of the ping reply are a frame of type 13 with an empty body. */
  lemma PingrespIsFrame()
    ensures EncodePingresp() == FramePacket(PINGRESP * 16, [])
  {
    assert Encode(0) == [0];
  }
}
