/**
 The packets in plain bytes (chapters 2 and 3 of MQTT 3.1.1): what the broker writes,
 and what it takes from the bytes it reads.
 */
module WireBytes {
  import opened Sequences
  import opened RemainingLength
  import opened Packets
  import opened Framing
  import opened BrokerRuns

  // ---------- numbers ----------

  lemma EncodeMore(n: nat, digit: nat, high: nat)
    requires digit < 128 && n == digit + 128 * high && high > 0
    ensures Encode(n) == [digit + 128] + Encode(high)
  {
    assert n / 128 == high && n % 128 == digit;
  }

  /** The digits of a length, least significant first, with 128 added to all but the last. */
  lemma LengthDigits(a: nat, b: nat, c: nat, d: nat)
    requires a < 128 && b < 128 && c < 128 && d < 128
    ensures Encode(a) == [a]
    ensures b > 0 ==> Encode(a + 128 * b) == [a + 128, b]
    ensures c > 0 ==> Encode(a + 128 * b + 16384 * c) == [a + 128, b + 128, c]
    ensures d > 0 ==> Encode(a + 128 * b + 16384 * c + 2097152 * d) == [a + 128, b + 128, c + 128, d]
  {
    if b > 0 {
      EncodeMore(a + 128 * b, a, b);
    }
    if c > 0 {
      EncodeMore(b + 128 * c, b, c);
      EncodeMore(a + 128 * b + 16384 * c, a, b + 128 * c);
    }
    if d > 0 {
      EncodeMore(c + 128 * d, c, d);
      EncodeMore(b + 128 * c + 16384 * d, b, c + 128 * d);
      EncodeMore(a + 128 * b + 16384 * c + 2097152 * d, a, b + 128 * c + 16384 * d);
    }
  }

  /** A 16-bit number is two bytes, the high one first. */
  lemma WordBytes(hi: byte, lo: byte)
    ensures MakeWord(hi, lo) == 256 * hi as int + lo as int && Word(256 * hi as int + lo as int) == [hi, lo]
  {
    Halves(hi, lo);
  }

  lemma Multiple(n: nat, more: nat)
    requires n < 65536
    ensures (n + 65536 * more) % 65536 == n
  {
  }

  /** A number with more than 16 bits is cut to them. */
  lemma WordCut(n: nat, more: nat)
    requires n < 65536
    ensures Word(n + 65536 * more) == Word(n)
  {
    Multiple(n, more);
  }

  // ---------- what the broker writes ----------

  lemma WrittenAnswers()
    ensures EncodeConnack() == [32, 2, 0, 0] && EncodePingresp() == [208, 0]
  {
    assert Encode(2) == [2];
  }

  lemma WrittenSuback(packetId: nat, hi: byte, lo: byte, codes: seq<byte>)
    requires Word(packetId) == [hi, lo]
    ensures EncodeSuback(packetId, codes) == [144] + Encode(2 + |codes|) + [hi, lo] + codes
  {
    hide Encode;
    ConcatAssociative([144] + Encode(2 + |codes|), [hi, lo], codes);
  }

  lemma WrittenPublish(hi: byte, lo: byte, topic: bytes, payload: bytes)
    requires |topic| == 256 * hi as int + lo as int
    ensures EncodePublish(Message(topic, payload)) ==
            [48] + Encode(2 + |topic| + |payload|) + [hi, lo] + topic + payload
  {
    hide Word, Encode;
    WordBytes(hi, lo);
    PublishBytes(Message(topic, payload), [hi, lo]);
  }

  lemma PublishBytes(m: Message, word: bytes)
    requires Word(|m.topic|) == word && |word| == 2
    ensures EncodePublish(m) == [48] + Encode(2 + |m.topic| + |m.payload|) + word + m.topic + m.payload
  {
    hide Word, Encode;
    var front := [48] + Encode(2 + |m.topic| + |m.payload|);
    ConcatAssociative(front, word + m.topic, m.payload);
    ConcatAssociative(front, word, m.topic);
  }

  // ---------- what it takes from what it reads ----------

  /** A PUBLISH body: a length that is not 0, that many bytes of topic, and the payload. */
  lemma PublishRead(hi: byte, lo: byte, rest: bytes)
    ensures var n := 256 * hi as int + lo as int;
            DecodePublish([hi, lo] + rest) ==
            if n == 0 || n > |rest| then None else Some(Message(rest[..n], rest[n..]))
  {
    var data, n := [hi, lo] + rest, 256 * hi as int + lo as int;
    if 0 < n <= |rest| {
      assert data[2..2 + n] == rest[..n] && data[2 + n..] == rest[n..];
    }
  }

  /** A SUBSCRIBE body: the packet id, then entries of a length, that many bytes of filter and one more byte. */
  lemma SubscribeRead(hi: byte, lo: byte, rest: bytes)
    ensures var entries := DecodeEntries(rest);
            DecodeSubscribe([hi, lo] + rest) ==
            if entries.None? then None else Some(Subscribe(256 * hi as int + lo as int, entries.value))
  {
    SubscribeAt(hi, lo, rest);
  }

  lemma EntryRead(hi: byte, lo: byte, filter: bytes, qos: byte, rest: bytes)
    requires |filter| == 256 * hi as int + lo as int
    ensures DecodeEntries([]) == Some([])
    ensures var entries := DecodeEntries(rest);
            DecodeEntries([hi, lo] + filter + [qos] + rest) ==
            if entries.None? then None else Some([Entry(filter, qos)] + entries.value)
  {
    hide WordAt;
    WordBytes(hi, lo);
    FirstEntryOf(hi, lo, Entry(filter, qos), rest);
  }

  /** An entry that is cut short makes the body malformed. */
  lemma EntryCut(data: bytes)
    requires data != [] && (|data| >= 2 ==> |data| < 2 + (256 * data[0] as int + data[1] as int) + 1)
    ensures DecodeEntries(data) == None
  {
  }

  lemma TooShort(data: bytes)
    requires |data| < 2
    ensures DecodePublish(data) == None && DecodeSubscribe(data) == None
  {
  }

  /** A CONNECT body: the protocol name with its length, level 4, flags, keep-alive, and the client id. */
  lemma ConnectRead(data: bytes)
    ensures DecodeConnect(data).Some? <==>
            && |data| >= 12 && data[..7] == [0, 4, 77, 81, 84, 84, 4]
            && 12 + 256 * data[10] as int + data[11] as int <= |data|
    ensures DecodeConnect(data).Some? ==>
              var end := 12 + 256 * data[10] as int + data[11] as int;
              var keepalive := 256 * data[8] as int + data[9] as int;
              DecodeConnect(data).value == Connect.Connect(data[12..end], keepalive, data[7])
  {
    if |data| >= 12 {
      ProtocolBytes(data);
    }
  }

  lemma ProtocolBytes(data: bytes)
    requires |data| >= 12
    ensures data[..7] == [0, 4, 77, 81, 84, 84, 4] <==>
            && 256 * data[0] as int + data[1] as int == 4 && data[2] == 77 && data[3] == 81
            && data[4] == 84 && data[5] == 84 && data[6] == 4
  {
    var front := data[..7];
    if front == [0, 4, 77, 81, 84, 84, 4] {
      assert front[0] == 0 && front[1] == 4 && front[2] == 77 && front[3] == 81;
      assert front[4] == 84 && front[5] == 84 && front[6] == 4;
    }
  }

  // ---------- what the type of a packet decides ----------

  /** The loop by packet type: 3 is PUBLISH, 8 SUBSCRIBE, 12 PINGREQ, and any other type ends the connection. */
  lemma KindsServed(p: Packet)
    ensures p.kind == 3 && DecodePublish(p.body).Some? ==> AfterRead(p) == Recording(DecodePublish(p.body).value)
    ensures p.kind == 3 && DecodePublish(p.body).None? ==> AfterRead(p) == AtLoop
    ensures p.kind == 8 && DecodeSubscribe(p.body).Some? ==> AfterRead(p) == Subscribing(DecodeSubscribe(p.body).value)
    ensures p.kind == 8 && DecodeSubscribe(p.body).None? ==> AfterRead(p) == Rejecting
    ensures p.kind == 12 ==> AfterRead(p) == Ponging
    ensures p.kind != 3 && p.kind != 8 && p.kind != 12 ==> AfterRead(p) == Leaving
    ensures Serviced(p) <==> p.kind == 3 || p.kind == 12 || (p.kind == 8 && DecodeSubscribe(p.body).Some?)
  {
  }

  /** The loop goes on after the packet. */
  predicate GoesOn(p: Packet) {
    p.kind == 3 || p.kind == 12 || (p.kind == 8 && DecodeSubscribe(p.body).Some?)
  }

  /** What is dispatched of a list of packets: those up to the first after which the loop does not go on. */
  lemma {:induction false} DispatchedUpTo(packets: seq<Packet>)
    ensures var n := |UpToEnd(packets)|;
            && n <= |packets| && UpToEnd(packets) == packets[..n]
            && (forall i :: 0 <= i < n - 1 ==> GoesOn(packets[i]))
            && (n < |packets| ==> n > 0 && !GoesOn(packets[n - 1]))
  {
    if packets != [] {
      var rest := packets[1..];
      DispatchedUpTo(rest);
      KindsServed(packets[0]);
      assert packets == [packets[0]] + rest;
      var n := |UpToEnd(packets)|;
      forall i | 0 <= i < n - 1 ensures GoesOn(packets[i]) {
        assert i > 0 ==> packets[i] == rest[i - 1];
      }
    }
  }

  /** The message in a packet of type 3, and the filters in one of type 8, each in its place. */
  lemma PacketsHold(p: Packet)
    ensures PublishOf(p) == if p.kind == 3 && DecodePublish(p.body).Some? then [DecodePublish(p.body).value] else []
    ensures p.kind != 8 || DecodeSubscribe(p.body).None? ==> FiltersOf(p) == []
    ensures p.kind == 8 && DecodeSubscribe(p.body).Some? ==>
              var entries := DecodeSubscribe(p.body).value.entries;
              |FiltersOf(p)| == |entries| && forall j :: 0 <= j < |entries| ==> FiltersOf(p)[j] == entries[j].filter
  {
  }

  /** A first packet: its type is in the upper half of its first byte, its body as long as the length says. */
  lemma FirstPacket(header: byte, body: bytes, rest: bytes)
    requires |body| < 268435456
    ensures NextPacket([header] + Encode(|body|) + body + rest) == Some((Packet(header / 16, body), rest))
  {
    FrameRoundTrip(header, body, rest);
  }

  /** A client is let in with a first packet of type 1, whose body is a CONNECT, and with no other. */
  lemma FirstIsConnect(stream: bytes)
    ensures Handshake(stream).Some? <==>
            && NextPacket(stream).Some? && stream[0] / 16 == 1
            && DecodeConnect(NextPacket(stream).value.0.body).Some?
    ensures Handshake(stream).Some? ==>
              var (p, rest) := NextPacket(stream).value;
              Handshake(stream).value == (DecodeConnect(p.body).value, rest)
  {
  }

  /** In plain bytes: this CONNECT is read with this client id, whatever follows it. */
  lemma ConnectAdmits(flags: byte, k: byte, l: byte, hi: byte, lo: byte, id: bytes, rest: bytes)
    requires |id| == 256 * hi as int + lo as int
    ensures var body := [0, 4, 77, 81, 84, 84, 4, flags, k, l, hi, lo] + id;
            Handshake([16] + Encode(12 + |id|) + body + rest) ==
            Some((Connect.Connect(id, 256 * k as int + l as int, flags), rest))
  {
    hide Handshake, Encode, DecodeConnect, NextPacket;
    var body := [0, 4, 77, 81, 84, 84, 4, flags, k, l, hi, lo] + id;
    assert |body| == 12 + |id| && body[..7] == [0, 4, 77, 81, 84, 84, 4] && body[12..12 + |id|] == id;
    FirstPacket(16, body, rest);
    ConnectRead(body);
    FirstIsConnect([16] + Encode(|body|) + body + rest);
  }
}
