/**
 One end of a TCP connection as the server's loops see it: `recv` hands over the bytes
 in whatever segments the network formed, `send` takes as many bytes as it likes.
 Both fail with a non-positive count, and the server treats every failure alike.
 */
module Connections {
  import opened Sequences
  import opened RemainingLength

  function Min(a: nat, b: nat): nat {
    if a < b then a else b
  }

  /** How many of `length` bytes a `send_all` gets through, given what each call accepts. */
  function Accepted(window: seq<nat>, length: nat): (n: nat)
    ensures n <= length
  {
    if length == 0 || window == [] || window[0] == 0 then 0
    else Min(window[0], length) + Accepted(window[1..], length - Min(window[0], length))
  }

  function Total(window: seq<nat>): nat {
    if window == [] then 0 else window[0] + Total(window[1..])
  }

  /** As many bytes go out as the calls accept between them before one of them fails. */
  lemma {:induction false} AcceptedIsTotal(window: seq<nat>, failed: seq<nat>, length: nat)
    requires forall i :: 0 <= i < |window| ==> window[i] > 0
    requires failed != [] ==> failed[0] == 0
    ensures Accepted(window + failed, length) == if Total(window) < length then Total(window) else length
  {
    if window == [] {
      assert window + failed == failed;
    } else {
      var all := window + failed;
      assert all[0] == window[0] && all[1..] == window[1..] + failed;
      AcceptedIsTotal(window[1..], failed, length - Min(window[0], length));
    }
  }

  class Connection {
    var segments: seq<seq<byte>>  // inbound bytes, as the coming recv calls find them
    var window: seq<nat>          // what the coming send calls accept at most; then failure
    var sent: seq<byte>           // what the peer has been sent

    constructor (segments: seq<seq<byte>>, window: seq<nat>)
      requires forall i :: 0 <= i < |segments| ==> segments[i] != []
      ensures Valid() && Inbound() == Flatten(segments)
      ensures this.window == window && sent == []
    {
      this.segments, this.window, sent := segments, window, [];
    }

    ghost predicate Valid()
      reads this
    {
      forall i :: 0 <= i < |segments| ==> segments[i] != []
    }

    ghost function Inbound(): seq<byte>
      reads this
    {
      Flatten(segments)
    }

    /** At most `length` bytes of the next segment; none once the stream is over. */
    method Recv(length: nat) returns (chunk: seq<byte>)
      requires Valid() && length > 0
      modifies this`segments
      ensures Valid()
      ensures |chunk| <= length && chunk + Inbound() == old(Inbound())
      ensures chunk == [] ==> Inbound() == []
    {
      if segments == [] {
        return [];
      }
      var n := Min(length, |segments[0]|);
      chunk := segments[0][..n];
      assert segments[0] == chunk + segments[0][n..];
      assert chunk + segments[0][n..] + Flatten(segments[1..]) == Flatten(segments);
      if n == |segments[0]| {
        segments := segments[1..];
      } else {
        segments := [segments[0][n..]] + segments[1..];
        assert segments[1..] == old(segments)[1..];
      }
    }

    method Send(data: seq<byte>) returns (count: nat)
      requires data != []
      modifies this`window, this`sent
      ensures old(window) == [] ==> count == 0 && window == []
      ensures old(window) != [] ==> count == Min(old(window)[0], |data|) && window == old(window)[1..]
      ensures sent == old(sent) + data[..count]
    {
      if window == [] {
        assert sent == sent + data[..0];
        return 0;
      }
      count := Min(window[0], |data|);
      window := window[1..];
      sent := sent + data[..count];
    }
  }

  /**
   Fills the first `length` places of the buffer, however the bytes arrive, and
   touches nothing behind them; it fails exactly when the stream is too short.
   */
  method RecvExact(conn: Connection, buffer: array<byte>, length: nat) returns (ok: bool)
    requires conn.Valid() && length <= buffer.Length
    modifies conn`segments, buffer
    ensures conn.Valid()
    ensures ok == (length <= |old(conn.Inbound())|)
    ensures ok ==> buffer[..length] == old(conn.Inbound())[..length]
    ensures ok ==> conn.Inbound() == old(conn.Inbound())[length..]
    ensures !ok ==> conn.Inbound() == []
    ensures buffer[length..] == old(buffer[length..])
  {
    var filled := 0;
    while filled < length
      invariant 0 <= filled <= length && conn.Valid()
      invariant buffer[..filled] + conn.Inbound() == old(conn.Inbound())
      invariant buffer[length..] == old(buffer[length..])
    {
      var chunk := conn.Recv(length - filled);
      if chunk == [] {
        assert |old(conn.Inbound())| == filled;
        return false;
      }
      ghost var before := buffer[..filled];
      label Copy:
      forall i | 0 <= i < |chunk| {
        buffer[filled + i] := chunk[i];
      }
      assert buffer[..filled + |chunk|] == before + chunk;
      assert buffer[length..] == old@Copy(buffer[length..]);
      filled := filled + |chunk|;
    }
    ok := true;
    ghost var whole := buffer[..length] + conn.Inbound();
    assert whole[..length] == buffer[..length] && whole[length..] == conn.Inbound();
  }

  /** Sends the bytes in order, and reports success exactly when all of them went out. */
  method SendAll(conn: Connection, data: seq<byte>) returns (ok: bool)
    modifies conn`window, conn`sent
    ensures conn.sent == old(conn.sent) + data[..Accepted(old(conn.window), |data|)]
    ensures ok <==> Accepted(old(conn.window), |data|) == |data|
  {
    var done := 0;
    while done < |data|
      invariant 0 <= done <= |data|
      invariant conn.sent == old(conn.sent) + data[..done]
      invariant Accepted(old(conn.window), |data|) == done + Accepted(conn.window, |data| - done)
      decreases |data| - done
    {
      var count := conn.Send(data[done..]);
      if count == 0 {
        return false;
      }
      assert data[..done] + data[done..][..count] == data[..done + count];
      done := done + count;
    }
    ok := true;
  }
}
