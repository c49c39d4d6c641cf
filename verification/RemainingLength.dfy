/**
 The MQTT "remaining length" (section 2.2.3 of MQTT 3.1.1): base-128 digits, least
 significant first, the top bit of a byte saying that more follow, at most four bytes.
 */
module RemainingLength {
  import opened Sequences

  type byte = b: int | 0 <= b < 256

  /** The source keeps its multiplier in a C++ `int`. */
  type int32 = i: int | -0x8000_0000 <= i < 0x8000_0000

  const MAX_LENGTH := 268435455

  function Encode(n: nat): (bs: seq<byte>)
    ensures |bs| >= 1
  {
    if n < 128 then [n] else [n % 128 + 128] + Encode(n / 128)
  }

  /** The value and the number of bytes it takes, reading at most `budget` bytes. */
  function DecodeWithin(bs: seq<byte>, budget: nat): (r: Option<(nat, nat)>)
    ensures r.Some? ==> 1 <= r.value.1 <= |bs| && r.value.1 <= budget
  {
    if budget == 0 || bs == [] then None
    else if bs[0] < 128 then Some((bs[0], 1))
    else
      match DecodeWithin(bs[1..], budget - 1)
      case None => None
      case Some(r) => Some((bs[0] - 128 + 128 * r.0, r.1 + 1))
  }

  function Decode(bs: seq<byte>): Option<(nat, nat)> {
    DecodeWithin(bs, 4)
  }

  /** The `do ... while` loop of `encode_remaining_length`. */
  method EncodeLoop(length: nat) returns (out: seq<byte>)
    ensures out == Encode(length)
  {
    out := [];
    var rest := length;
    var more := true;
    while more
      invariant more ==> out + Encode(rest) == Encode(length)
      invariant !more ==> out == Encode(length)
      decreases more, rest
    {
      var digit: byte := rest % 128;
      ghost var before := rest;
      rest := rest / 128;
      if rest > 0 {
        digit := digit + 128;
        assert Encode(before) == [digit] + Encode(rest);
      }
      out := out + [digit];
      more := rest > 0;
    }
  }

  function Power128(k: nat): nat {
    if k == 0 then 1 else 128 * Power128(k - 1)
  }

  /** What has been added up so far, put in front of what the rest decodes to. */
  function Prepend(sum: nat, count: nat, r: Option<(nat, nat)>): Option<(nat, nat)> {
    match r
    case None => None
    case Some(v) => Some((sum + Power128(count) * v.0, count + v.1))
  }

  /** What one byte adds to the length: its low seven bits, at its place. */
  function Digit(b: byte, multiplier: nat): nat {
    b % 128 * multiplier
  }

  /** The buffer decoder; the typed multiplier shows that its `int` never overflows. */
  method DecodeLoop(data: seq<byte>) returns (r: Option<(nat, nat)>)
    ensures r == Decode(data)
  {
    var length := 0;
    var multiplier: int32 := 1;
    var i := 0;
    hide Prepend, Decode, DecodeWithin, Power128, Digit;
    FirstDigit(data);
    assert data[0..] == data;
    while i < 4 && i < |data|
      invariant 0 <= i <= 4 && i <= |data| && 0 <= length
      invariant multiplier == Power128(i)
      invariant Decode(data) == Prepend(length, i, DecodeWithin(data[i..], 4 - i))
    {
      var b := data[i];
      NextDigit(length, i, data[i..], 4 - i);
      assert data[i..][1..] == data[i + 1..];
      length := length + Digit(b, multiplier);
      multiplier := multiplier * 128;
      i := i + 1;
      if b < 128 {
        return Some((length, i));
      }
    }
    NoMoreDigits(length, i, data[i..], 4 - i);
    r := None;
  }

  /** One round of either decoding loop. */
  lemma NextDigit(sum: nat, count: nat, rest: seq<byte>, budget: nat)
    requires rest != [] && budget > 0 && count < 4
    ensures Power128(count) <= Power128(3) == 2097152 && Power128(count + 1) == Power128(count) * 128
    ensures var sum' := sum + Digit(rest[0], Power128(count));
            Prepend(sum, count, DecodeWithin(rest, budget)) ==
            if rest[0] < 128 then Some((sum', count + 1))
            else Prepend(sum', count + 1, DecodeWithin(rest[1..], budget - 1))
  {
    SmallPowers(count);
    var tail := DecodeWithin(rest[1..], budget - 1);
    if tail.Some? {
      Distribute(Power128(count), rest[0] % 128, tail.value.0);
    }
  }

  lemma FirstDigit(bs: seq<byte>)
    ensures Decode(bs) == Prepend(0, 0, DecodeWithin(bs, 4)) && Power128(0) == 1
  {
  }

  lemma NoMoreDigits(sum: nat, count: nat, rest: seq<byte>, budget: nat)
    requires rest == [] || budget == 0
    ensures Prepend(sum, count, DecodeWithin(rest, budget)) == None
  {
  }

  lemma SmallPowers(count: nat)
    requires count < 4
    ensures Power128(count) <= Power128(3) == 2097152
  {
    assert Power128(1) == 128 && Power128(2) == 16384 && Power128(3) == 2097152;
  }

  lemma Distribute(m: int, low: int, high: int)
    ensures m * (low + 128 * high) == low * m + 128 * m * high
  {
  }

  lemma {:induction false} EncodeDecodeWithin(n: nat, suffix: seq<byte>, budget: nat)
    requires budget > 0
    ensures DecodeWithin(Encode(n) + suffix, budget) ==
            if n < Power128(budget) then Some((n, |Encode(n)|)) else None
    ensures |Encode(n)| <= budget <==> n < Power128(budget)
  {
    if n >= 128 {
      assert (Encode(n) + suffix)[1..] == Encode(n / 128) + suffix;
      if budget > 1 {
        EncodeDecodeWithin(n / 128, suffix, budget - 1);
      } else {
        assert Power128(1) == 128 * Power128(0);
      }
    } else {
      AtLeast128(budget);
    }
  }

  lemma {:induction false} AtLeast128(k: nat)
    requires k > 0
    ensures Power128(k) >= 128
  {
    if k > 1 {
      AtLeast128(k - 1);
    }
  }

  /**
   Any length up to 268435455 takes at most four bytes and is read back, whatever
   follows it; any larger one takes more than four and is refused.
   */
  lemma LengthRoundTrip(n: nat, suffix: seq<byte>)
    ensures n <= MAX_LENGTH ==> |Encode(n)| <= 4 && Decode(Encode(n) + suffix) == Some((n, |Encode(n)|))
    ensures n > MAX_LENGTH ==> |Encode(n)| > 4 && Decode(Encode(n) + suffix) == None
  {
    EncodeDecodeWithin(n, suffix, 4);
    assert Power128(1) == 128 && Power128(2) == 16384 && Power128(3) == 2097152 && Power128(4) == 268435456;
  }

  lemma {:induction false} DecodeBounds(bs: seq<byte>, budget: nat)
    requires DecodeWithin(bs, budget).Some?
    ensures DecodeWithin(bs, budget).value.0 < Power128(DecodeWithin(bs, budget).value.1)
    ensures var (n, k) := DecodeWithin(bs, budget).value;
            forall suffix :: DecodeWithin(bs[..k] + suffix, budget) == DecodeWithin(bs, budget)
  {
    var (n, k) := DecodeWithin(bs, budget).value;
    if bs[0] >= 128 {
      DecodeBounds(bs[1..], budget - 1);
      forall suffix ensures DecodeWithin(bs[..k] + suffix, budget) == DecodeWithin(bs, budget) {
        assert (bs[..k] + suffix)[1..] == bs[1..][..k - 1] + suffix;
      }
    } else {
      assert Power128(1) == 128 * Power128(0);
    }
  }

  lemma {:induction false} CanonicalWithin(bs: seq<byte>, budget: nat)
    requires DecodeWithin(bs, budget).Some?
    ensures var (n, k) := DecodeWithin(bs, budget).value;
            && (k > 1 && bs[k - 1] != 0 ==> n >= 128)
            && (Encode(n) == bs[..k] <==> k == 1 || bs[k - 1] != 0)
  {
    var (n, k) := DecodeWithin(bs, budget).value;
    if bs[0] >= 128 {
      CanonicalWithin(bs[1..], budget - 1);
      var high := DecodeWithin(bs[1..], budget - 1).value.0;
      assert bs[1..][..k - 1] == bs[..k][1..];
      assert bs[1..][k - 2] == bs[k - 1];
      if n >= 128 {
        assert n / 128 == high && n % 128 == bs[0] - 128;
        assert Encode(n)[1..] == Encode(high);
        if Encode(high) == bs[1..][..k - 1] {
          assert bs[..k] == [bs[0]] + bs[..k][1..];
        }
      } else {
        assert |Encode(n)| == 1;
      }
    } else {
      assert bs[..1] == [bs[0]];
    }
  }

  /**
   A successful decode is within range, does not depend on what follows, and gives
   back the very bytes it read exactly when they were not padded with a zero digit.
   */
  lemma DecodeCanonical(bs: seq<byte>)
    requires Decode(bs).Some?
    ensures var (n, k) := Decode(bs).value;
            && n <= MAX_LENGTH
            && (forall suffix :: Decode(bs[..k] + suffix) == Some((n, k)))
            && (Encode(n) == bs[..k] <==> k == 1 || bs[k - 1] != 0)
  {
    DecodeBounds(bs, 4);
    CanonicalWithin(bs, 4);
    assert Power128(1) == 128 && Power128(2) == 16384 && Power128(3) == 2097152 && Power128(4) == 268435456;
  }
}
