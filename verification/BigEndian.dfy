/** Four-byte integers, most significant byte first (RFC 2083 section 2.1). */
module BigEndian {
  type Byte = bv8

  function Digit(b: Byte): (n: nat)
    ensures n < 256
  {
    b as nat
  }

  function ByteOf(n: nat): (b: Byte)
    requires n < 256
  {
    n as bv8
  }

  /** The byte for a digit, counted up to. */
  function CountedUp(n: nat): (b: Byte)
    requires n < 256
    ensures b as int == n
  {
    if n == 0 then 0
    else
      var p := CountedUp(n - 1);
      assert p as int < 255;
      p + 1
  }

  lemma OnlyByte(n: int, b: Byte)
    requires 0 <= n < 256 && b as int == n
    ensures b == n as bv8
  {}

  lemma DigitOfByteOf(n: int)
    requires 0 <= n < 256
    ensures (n as bv8) as int == n
  {
    OnlyByte(n, CountedUp(n));
  }

  lemma OneByteADigit(a: Byte, b: Byte)
    requires Digit(a) == Digit(b)
    ensures a == b
  {}

  function Limit(width: nat): (n: nat)
    ensures n > 0
  {
    if width == 0 then 1 else 256 * Limit(width - 1)
  }

  function OfDigits(b: seq<Byte>): (n: nat)
    ensures n < Limit(|b|)
    decreases |b|
  {
    if b == [] then 0 else 256 * OfDigits(b[..|b| - 1]) + Digit(b[|b| - 1])
  }

  function ToDigits(n: nat, width: nat): (r: seq<Byte>)
    requires n < Limit(width)
    ensures |r| == width
    ensures OfDigits(r) == n
    decreases width
  {
    if width == 0 then []
    else
      var high := ToDigits(n / 256, width - 1);
      var r := high + [ByteOf(n % 256)];
      DigitOfByteOf(n % 256);
      assert r[..|r| - 1] == high;
      r
  }

  lemma LastDigit(h: nat, d: nat, k: nat, e: nat)
    requires d < 256 && e < 256 && 256 * h + d == 256 * k + e
    ensures h == k && d == e
  {}

  lemma {:induction false} OneReading(a: seq<Byte>, b: seq<Byte>)
    requires |a| == |b| && OfDigits(a) == OfDigits(b)
    ensures a == b
    decreases |a|
  {
    if a != [] {
      var high, low := a[..|a| - 1], b[..|b| - 1];
      LastDigit(OfDigits(high), Digit(a[|a| - 1]), OfDigits(low), Digit(b[|b| - 1]));
      OneByteADigit(a[|a| - 1], b[|b| - 1]);
      OneReading(high, low);
      assert a == high + [a[|a| - 1]] && b == low + [b[|b| - 1]];
    }
  }

  lemma FourBytes()
    ensures Limit(4) == 0x1_0000_0000
  {}

  function ToBigEndian(n: nat): (r: seq<Byte>)
    requires n < 0x1_0000_0000
    ensures |r| == 4 && OfBigEndian(r) == n
  {
    FourBytes();
    ToDigits(n, 4)
  }

  function OfBigEndian(b: seq<Byte>): (n: nat)
    requires |b| == 4
    ensures n < 0x1_0000_0000
  {
    FourBytes();
    OfDigits(b)
  }
}
