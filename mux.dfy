/** Binary addressing of the 16-channel analog multiplexer: a channel number is
    put on four address lines bit by bit, and the multiplexer reads the lines
    back as a binary number. */
module Mux {

  /** Number of address lines, and the number of channels they can select. */
  const WIDTH: nat := 4
  const CHANNELS: nat := 16

  function Pow2(i: nat): (r: nat)
    ensures r > 0
  {
    if i == 0 then 1 else 2 * Pow2(i - 1)
  }

  /** Arduino's bitRead(value, bit), i.e. (value >> bit) & 1. An arithmetic right
      shift is a division rounding towards minus infinity, which is what Dafny's
      `/` does for a positive divisor, so this is exact for negative values too. */
  predicate BitRead(value: int, bit: nat)
  {
    (value / Pow2(bit)) % 2 == 1
  }

  /** Levels written to the address lines MUX0..MUX3 to select `channel`. */
  function Address(channel: int): (lines: seq<bool>)
    ensures |lines| == WIDTH
  {
    [BitRead(channel, 0), BitRead(channel, 1), BitRead(channel, 2), BitRead(channel, 3)]
  }

  /** The channel the multiplexer connects for the given address lines,
      least significant line first: the sum of line i times 2^i. */
  function Decode(lines: seq<bool>): (n: nat)
    ensures n < Pow2(|lines|)
  {
    if lines == [] then 0
    else (if lines[0] then 1 else 0) + 2 * Decode(lines[1..])
  }

  /** The lowest n bits of `value`, least significant first, peeled off by halving. */
  function Bits(value: int, n: nat): (lines: seq<bool>)
    ensures |lines| == n
    decreases n
  {
    if n == 0 then [] else [value % 2 == 1] + Bits(value / 2, n - 1)
  }

  /** Euclidean division is determined by its quotient and remainder. */
  lemma DivUnique(c: int, d: int, q: int, r: int)
    requires d > 0 && 0 <= r < d && c == d * q + r
    ensures c / d == q && c % d == r
  {
    var k := c / d - q;
    assert d * k == r - c % d;
    if k > 0 {
      MulAtLeast(d, k);
    } else if k < 0 {
      MulAtLeast(d, -k);
    }
  }

  lemma {:induction false} MulAtLeast(d: int, k: int)
    requires d > 0 && k > 0
    ensures d * k >= d
  {
    if k > 1 {
      MulAtLeast(d, k - 1);
      assert d * k == d * (k - 1) + d;
    }
  }

  /** Bit i of a value is bit i - 1 of its half. */
  lemma BitReadHalf(value: int, i: nat)
    requires i > 0
    ensures BitRead(value, i) == BitRead(value / 2, i - 1)
  {
    DivHalf(value, Pow2(i - 1));
  }

  /** Dividing by 2p is halving, then dividing by p. */
  lemma DivHalf(c: int, p: nat)
    requires p > 0
    ensures c / (2 * p) == (c / 2) / p
    ensures c % (2 * p) == 2 * ((c / 2) % p) + c % 2
  {
    var h, q, r := c / 2, (c / 2) / p, (c / 2) % p;
    assert h == p * q + r;
    assert c == 2 * h + c % 2;
    assert c == (2 * p) * q + (2 * r + c % 2);
    DivUnique(c, 2 * p, q, 2 * r + c % 2);
  }

  lemma {:induction false} BitsAt(value: int, n: nat, i: nat)
    requires i < n
    ensures Bits(value, n)[i] == BitRead(value, i)
    decreases i
  {
    if i == 0 {
      assert Pow2(0) == 1;
      assert value / 1 == value;
    } else {
      assert Bits(value, n)[i] == Bits(value / 2, n - 1)[i - 1];
      BitsAt(value / 2, n - 1, i - 1);
      BitReadHalf(value, i);
    }
  }

  lemma AddressIsBits(channel: int)
    ensures Address(channel) == Bits(channel, WIDTH)
  {
    forall i | 0 <= i < WIDTH
      ensures Address(channel)[i] == Bits(channel, WIDTH)[i]
    {
      BitsAt(channel, WIDTH, i);
    }
  }

  /** Reading back the lowest n bits gives the value modulo 2^n. */
  lemma {:induction false} DecodeBits(value: int, n: nat)
    ensures Decode(Bits(value, n)) == value % Pow2(n)
    decreases n
  {
    if n > 0 {
      var lines := Bits(value, n);
      assert lines[1..] == Bits(value / 2, n - 1);
      DecodeBits(value / 2, n - 1);
      DivHalf(value, Pow2(n - 1));
    }
  }

  /** Peeling the bits off a decoded number gives back the lines. */
  lemma {:induction false} BitsDecode(lines: seq<bool>)
    ensures Bits(Decode(lines), |lines|) == lines
  {
    if lines != [] {
      var b := if lines[0] then 1 else 0;
      var rest := Decode(lines[1..]);
      assert Decode(lines) == b + 2 * rest;
      DivUnique(b + 2 * rest, 2, rest, b);
      BitsDecode(lines[1..]);
    }
  }

  /** Writing a channel onto the address lines selects that channel modulo 16:
      only the four low bits reach the multiplexer. */
  lemma DecodeAddress(channel: int)
    ensures Decode(Address(channel)) == channel % CHANNELS
  {
    AddressIsBits(channel);
    DecodeBits(channel, WIDTH);
  }

  /** Every setting of the four address lines is written for exactly the
      channel it selects. */
  lemma AddressDecode(lines: seq<bool>)
    requires |lines| == WIDTH
    ensures Address(Decode(lines)) == lines
  {
    AddressIsBits(Decode(lines));
    BitsDecode(lines);
  }

  /** Two channel numbers put the same levels on the address lines exactly
      when they agree modulo 16. */
  lemma SameAddress(c: int, d: int)
    ensures Address(c) == Address(d) <==> c % CHANNELS == d % CHANNELS
  {
    DecodeAddress(c);
    DecodeAddress(d);
    if c % CHANNELS == d % CHANNELS {
      AddressDecode(Address(c));
      AddressDecode(Address(d));
    }
  }

  /** A channel and its residue modulo 16 select the same address. */
  lemma AddressModulo(channel: int)
    ensures Address(channel) == Address(channel % CHANNELS)
  {
    SameAddress(channel, channel % CHANNELS);
  }
}
