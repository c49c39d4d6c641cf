/**
 From a byte stream to control packets: the read loops of `client_handler`, and what
 they recover from a stream of frames whatever the network does to it.
 */
module Framing {
  import opened Sequences
  import opened RemainingLength
  import opened Connections
  import opened Packets

  /** The four type bits of the first header byte, and the body; the flag bits are dropped. */
  datatype Packet = Packet(kind: nat, body: bytes)

  function NextPacket(stream: bytes): (r: Option<(Packet, bytes)>)
    ensures r.Some? ==> |r.value.1| < |stream|
  {
    if stream == [] then None
    else
      match Decode(stream[1..])
      case None => None
      case Some(v) =>
        var (n, k) := v;
        if 1 + k + n > |stream| then None
        else Some((Packet(stream[0] / 16, stream[1 + k..1 + k + n]), stream[1 + k + n..]))
  }

  /** All complete packets at the front of a stream. */
  function AllPackets(stream: bytes): seq<Packet>
    decreases |stream|
  {
    match NextPacket(stream)
    case None => []
    case Some(v) => [v.0] + AllPackets(v.1)
  }

  // ---------- frames are recovered ----------

  /** A frame is read back, whatever follows, exactly when its payload length fits the four bytes. */
  lemma FrameRoundTrip(typeAndFlags: byte, payload: bytes, rest: bytes)
    ensures NextPacket(FramePacket(typeAndFlags, payload) + rest) ==
            if |payload| <= MAX_LENGTH then Some((Packet(typeAndFlags / 16, payload), rest)) else None
  {
    var stream := FramePacket(typeAndFlags, payload) + rest;
    LengthRoundTrip(|payload|, payload + rest);
    assert stream[1..] == Encode(|payload|) + (payload + rest);
    var k := |Encode(|payload|)|;
    assert stream[1 + k..1 + k + |payload|] == payload;
    assert stream[1 + k + |payload|..] == rest;
  }

  lemma DecodeExtended(bs: bytes, more: bytes)
    requires Decode(bs).Some?
    ensures Decode(bs + more) == Decode(bs)
  {
    var k := Decode(bs).value.1;
    DecodeCanonical(bs);
    assert bs + more == bs[..k] + (bs[k..] + more);
  }

  /** A stream that stops inside a frame yields no packet. */
  lemma CutFrameYieldsNothing(typeAndFlags: byte, payload: bytes, cut: nat)
    requires cut < |FramePacket(typeAndFlags, payload)|
    ensures NextPacket(FramePacket(typeAndFlags, payload)[..cut]) == None
  {
    var stream := FramePacket(typeAndFlags, payload)[..cut];
    var missing := FramePacket(typeAndFlags, payload)[cut..];
    if NextPacket(stream).Some? {
      assert Encode(|payload|) + payload == stream[1..] + missing;
      DecodeExtended(stream[1..], missing);
      LengthRoundTrip(|payload|, payload);
    }
  }

  datatype Outgoing = Outgoing(header: byte, payload: bytes)

  function Frame(o: Outgoing): bytes {
    FramePacket(o.header, o.payload)
  }

  /** What a reader sees of a frame. */
  function Seen(o: Outgoing): Packet {
    Packet(o.header / 16, o.payload)
  }

  function Wire(out: seq<Outgoing>): bytes {
    if out == [] then [] else Frame(out[0]) + Wire(out[1..])
  }

  function AllSeen(out: seq<Outgoing>): (packets: seq<Packet>)
    ensures |packets| == |out|
    ensures forall i :: 0 <= i < |out| ==> packets[i] == Seen(out[i])
  {
    if out == [] then [] else [Seen(out[0])] + AllSeen(out[1..])
  }

  predicate Admissible(out: seq<Outgoing>) {
    forall i :: 0 <= i < |out| ==> |out[i].payload| <= MAX_LENGTH
  }

  lemma FirstFrame(o: Outgoing, rest: bytes)
    requires |o.payload| <= MAX_LENGTH
    ensures AllPackets(Frame(o) + rest) == [Seen(o)] + AllPackets(rest)
  {
    FrameRoundTrip(o.header, o.payload, rest);
  }

  /** The frames of a stream are recovered, all and in order, up to where it stops. */
  lemma {:induction false} FramesRecovered(out: seq<Outgoing>, tail: bytes)
    requires Admissible(out)
    ensures AllPackets(Wire(out) + tail) == AllSeen(out) + AllPackets(tail)
  {
    if out == [] {
      assert Wire(out) + tail == tail;
      assert AllSeen(out) + AllPackets(tail) == AllPackets(tail);
    } else {
      FramesRecovered(out[1..], tail);
      FirstFrame(out[0], Wire(out[1..]) + tail);
      ConcatAssociative(Frame(out[0]), Wire(out[1..]), tail);
      ConcatAssociative([Seen(out[0])], AllSeen(out[1..]), AllPackets(tail));
    }
  }

  lemma WholeStream(out: seq<Outgoing>)
    requires Admissible(out)
    ensures AllPackets(Wire(out)) == AllSeen(out)
  {
    FramesRecovered(out, []);
    assert Wire(out) + [] == Wire(out);
  }

  /** Cutting a stream of frames anywhere costs exactly the frames that are no longer whole. */
  lemma CutStream(out: seq<Outgoing>, last: Outgoing, cut: nat)
    requires Admissible(out) && cut < |Frame(last)|
    ensures AllPackets(Wire(out) + Frame(last)[..cut]) == AllSeen(out)
  {
    FramesRecovered(out, Frame(last)[..cut]);
    CutFrameYieldsNothing(last.header, last.payload, cut);
  }

  lemma NextPacketBounds(stream: bytes)
    requires NextPacket(stream).Some?
    ensures var p := NextPacket(stream).value.0;
            p.kind < 16 && |p.body| <= MAX_LENGTH
  {
    DecodeCanonical(stream[1..]);
  }

  // ---------- the read loops ----------

  /** `recv_exact` into a single byte. */
  method RecvByte(conn: Connection) returns (ok: bool, b: byte)
    requires conn.Valid()
    modifies conn`segments
    ensures conn.Valid()
    ensures ok <==> old(conn.Inbound()) != []
    ensures ok ==> b == old(conn.Inbound())[0] && conn.Inbound() == old(conn.Inbound())[1..]
    ensures !ok ==> conn.Inbound() == []
  {
    var cell := new byte[1];
    ok := RecvExact(conn, cell, 1);
    b := if ok then cell[..1][0] else 0;
  }

  /** Reads a length byte by byte; it consumes the bytes the buffer decoder would. */
  method ReadRemainingLength(conn: Connection) returns (ok: bool, length: nat)
    requires conn.Valid()
    modifies conn`segments
    ensures conn.Valid()
    ensures ok <==> Decode(old(conn.Inbound())).Some?
    ensures ok ==> var (n, k) := Decode(old(conn.Inbound())).value;
                   length == n && conn.Inbound() == old(conn.Inbound())[k..]
    ensures !ok ==> conn.Inbound() == old(conn.Inbound())[Min(4, |old(conn.Inbound())|)..]
  {
    ghost var stream := conn.Inbound();
    length := 0;
    var multiplier: int32 := 1;
    var i := 0;
    hide Prepend, Decode, DecodeWithin, Power128, Digit;
    FirstDigit(stream);
    assert stream[0..] == stream;
    while i < 4
      invariant 0 <= i <= 4 && i <= |stream| && conn.Valid()
      invariant conn.Inbound() == stream[i..]
      invariant multiplier == Power128(i)
      invariant Decode(stream) == Prepend(length, i, DecodeWithin(stream[i..], 4 - i))
    {
      ghost var rest := stream[i..];
      var b;
      ok, b := RecvByte(conn);
      if !ok {
        NoMoreDigits(length, i, rest, 4 - i);
        return;
      }
      NextDigit(length, i, rest, 4 - i);
      assert rest[1..] == stream[i + 1..];
      length := length + Digit(b, multiplier);
      multiplier := multiplier * 128;
      i := i + 1;
      if b < 128 {
        return true, length;
      }
    }
    NoMoreDigits(length, i, stream[i..], 4 - i);
    ok := false;
  }

  /** Once header and length have been read, the packet is there if its body is. */
  lemma PacketParts(stream: bytes, length: nat, rest: bytes)
    requires stream != [] && Decode(stream[1..]).Some?
    requires var (n, k) := Decode(stream[1..]).value; length == n && rest == stream[1..][k..]
    ensures NextPacket(stream) ==
            if length <= |rest| then Some((Packet(stream[0] / 16, rest[..length]), rest[length..])) else None
  {
    var k := Decode(stream[1..]).value.1;
    assert rest == stream[1 + k..];
    if length <= |rest| {
      assert rest[..length] == stream[1 + k..1 + k + length] && rest[length..] == stream[1 + k + length..];
    }
  }

  /**
   One round of the packet loop: the header byte, the length, and the body into the
   reused buffer, which is replaced by a larger one when the body does not fit. The
   body handed on is the first `length` places of the buffer.
   */
  method ReadPacket(conn: Connection, buffer: array<byte>)
    returns (ok: bool, kind: nat, length: nat, used: array<byte>)
    requires conn.Valid() && buffer.Length >= 1
    modifies conn`segments, buffer
    ensures conn.Valid() && used.Length >= 1 && (used == buffer || fresh(used))
    ensures ok <==> NextPacket(old(conn.Inbound())).Some?
    ensures ok ==> var (p, rest) := NextPacket(old(conn.Inbound())).value;
                   && kind == p.kind && length <= used.Length && used[..length] == p.body
                   && conn.Inbound() == rest
  {
    ghost var stream := conn.Inbound();
    used, kind, length := buffer, 0, 0;
    ok := RecvExact(conn, buffer, 1);
    if !ok {
      return;
    }
    var header := buffer[..1][0];
    assert header == stream[0];
    kind := header / 16;
    ok, length := ReadRemainingLength(conn);
    if !ok {
      return;
    }
    PacketParts(stream, length, conn.Inbound());
    if length > 0 {
      if length > buffer.Length {
        used := new byte[length](i requires 0 <= i < length reads buffer => if i < buffer.Length then buffer[i] else 0);
      }
      ok := RecvExact(conn, used, length);
    }
  }

  /** The connection is still open after the packet: a SUBSCRIBE outside the grammar closes it. */
  predicate Serviced(p: Packet) {
    p.kind == PUBLISH || (p.kind == SUBSCRIBE && DecodeSubscribe(p.body).Some?) || p.kind == PINGREQ
  }

  /** What the loop hands to its switch: everything up to the first packet that ends the connection. */
  function UpToEnd(packets: seq<Packet>): seq<Packet> {
    if packets == [] then []
    else [packets[0]] + if Serviced(packets[0]) then UpToEnd(packets[1..]) else []
  }

  lemma DispatchNext(stream: bytes, before: seq<Packet>)
    requires NextPacket(stream).Some?
    ensures var (p, rest) := NextPacket(stream).value;
            before + UpToEnd(AllPackets(stream)) ==
            if Serviced(p) then before + [p] + UpToEnd(AllPackets(rest)) else before + [p]
  {
    var (p, rest) := NextPacket(stream).value;
    var tail := UpToEnd(AllPackets(rest));
    assert AllPackets(stream)[1..] == AllPackets(rest);
    assert UpToEnd(AllPackets(stream)) == [p] + if Serviced(p) then tail else [];
    assert [p] + [] == [p];
    ConcatAssociative(before, [p], tail);
  }

  /**
   The packet loop of `client_handler` while the server is running. A handler that has
   closed its own socket finds the next `recv` failing. What the loop dispatches
   is a function of the bytes alone: not of how the network cut them into segments, nor
   of what an earlier packet left in the buffer.
   */
  method PacketLoop(conn: Connection) returns (dispatched: seq<Packet>)
    requires conn.Valid()
    modifies conn`segments
    ensures dispatched == UpToEnd(AllPackets(old(conn.Inbound())))
    ensures forall out :: Admissible(out) && Flatten(old(conn.segments)) == Wire(out) ==>
            dispatched == UpToEnd(AllSeen(out))
  {
    dispatched := [];
    var buffer := new byte[4096];
    var running := true;
    while running
      invariant conn.Valid() && buffer.Length >= 1 && fresh(buffer)
      invariant running ==> UpToEnd(AllPackets(old(conn.Inbound()))) == dispatched + UpToEnd(AllPackets(conn.Inbound()))
      invariant !running ==> UpToEnd(AllPackets(old(conn.Inbound()))) == dispatched
      decreases running, |conn.Inbound()|
    {
      ghost var stream, before := conn.Inbound(), dispatched;
      var ok, kind, length;
      ok, kind, length, buffer := ReadPacket(conn, buffer);
      running := false;
      if ok {
        var p := Packet(kind, buffer[..length]);
        dispatched := dispatched + [p];
        // after a malformed SUBSCRIBE it is the next recv that fails
        running := Serviced(p);
        DispatchNext(stream, before);
      } else {
        assert dispatched + [] == dispatched;
      }
    }
    forall out | Admissible(out) && Flatten(old(conn.segments)) == Wire(out)
      ensures dispatched == UpToEnd(AllSeen(out))
    {
      WholeStream(out);
    }
  }

  /** The first packet of a connection: only a well-formed CONNECT starts a session. */
  function Handshake(stream: bytes): Option<(Connect, bytes)> {
    match NextPacket(stream)
    case None => None
    case Some(v) =>
      if v.0.kind != CONNECT then None
      else
        match DecodeConnect(v.0.body)
        case None => None
        case Some(c) => Some((c, v.1))
  }

  function Admitted(stream: bytes): Option<Connect> {
    match Handshake(stream)
    case None => None
    case Some(v) => Some(v.0)
  }

  /** The handshake reads of `client_handler`: anything but a well-formed CONNECT ends the connection. */
  method ReadConnect(conn: Connection) returns (r: Option<Connect>)
    requires conn.Valid()
    modifies conn`segments
    ensures conn.Valid()
    ensures r == Admitted(old(conn.Inbound()))
    ensures r.Some? ==> conn.Inbound() == Handshake(old(conn.Inbound())).value.1
  {
    var ok, kind, payload := ReadFirst(conn);
    if !ok || kind != CONNECT {
      return None;
    }
    r := DecodeConnect(payload);
  }

  /** Header, length, and, only if the type is CONNECT, a body of that length. */
  method ReadFirst(conn: Connection) returns (ok: bool, kind: nat, payload: bytes)
    requires conn.Valid()
    modifies conn`segments
    ensures conn.Valid()
    ensures ok && kind == CONNECT ==> NextPacket(old(conn.Inbound())) == Some((Packet(kind, payload), conn.Inbound()))
    ensures NextPacket(old(conn.Inbound())).Some? ==> ok && kind == NextPacket(old(conn.Inbound())).value.0.kind
  {
    ghost var stream := conn.Inbound();
    kind, payload := 0, [];
    var header;
    ok, header := RecvByte(conn);
    if !ok {
      return;
    }
    kind := header / 16;
    var length;
    ok, length := ReadRemainingLength(conn);
    if !ok || kind != CONNECT {
      return;
    }
    ghost var rest := conn.Inbound();
    PacketParts(stream, length, rest);
    var buffer := new byte[length];
    ok := RecvExact(conn, buffer, length);
    if ok {
      payload := buffer[..length];
    }
  }
}
