/** Facts of 32-bit arithmetic, and one round of the CRC register. */
module Bits {
  type Byte = bv8

  const POLYNOMIAL: bv32 := 0xedb8_8320

  function Xor(a: bv32, b: bv32): bv32 { a ^ b }

  /** One round of building a table entry (RFC 2083 section 15). */
  function RfcRound(c: bv32): bv32 {
    if c & 1 == 1 then POLYNOMIAL ^ (c >> 1) else c >> 1
  }

  lemma MaskChooses(c: bv32)
    ensures 0xedb8_8320 & (0 - (c & 1)) == if c & 1 == 1 then 0xedb8_8320 else 0
  {}

  lemma ShiftSplits(a: bv32, b: bv32)
    ensures (a ^ b) >> 1 == (a >> 1) ^ (b >> 1)
  {}

  lemma Parity(a: bv32, b: bv32)
    ensures (a ^ b) & 1 == if a & 1 == b & 1 then 0 else 1
  {}

  lemma OneBit(a: bv32)
    ensures a & 1 == 0 || a & 1 == 1
  {}

  lemma XorBoth(a: bv32, b: bv32, p: bv32)
    ensures (p ^ a) ^ (p ^ b) == a ^ b
  {}

  lemma XorLeft(a: bv32, b: bv32, p: bv32)
    ensures (p ^ a) ^ b == p ^ (a ^ b)
  {}

  lemma XorRight(a: bv32, b: bv32, p: bv32)
    ensures a ^ (p ^ b) == p ^ (a ^ b)
  {}

  lemma SplitLow(crc: bv32, byte: Byte)
    ensures ((crc ^ (byte as bv32)) & 0xff) ^ ((crc ^ (byte as bv32)) & 0xffff_ff00) == crc ^ (byte as bv32)
    ensures ((crc ^ (byte as bv32)) & 0xffff_ff00) & 0xff == 0
    ensures ((crc ^ (byte as bv32)) & 0xffff_ff00) >> 8 == crc >> 8
  {}

  lemma NotIsXor(c: bv32)
    ensures !c == c ^ 0xffff_ffff
  {}

  /** A round is linear over exclusive or. */
  lemma RoundLinear(a: bv32, b: bv32)
    ensures RfcRound(a ^ b) == RfcRound(a) ^ RfcRound(b)
  {
    Parity(a, b);
    OneBit(a);
    OneBit(b);
    ShiftSplits(a, b);
    if a & 1 == 1 && b & 1 == 1 {
      XorBoth(a >> 1, b >> 1, POLYNOMIAL);
    } else if a & 1 == 1 {
      XorLeft(a >> 1, b >> 1, POLYNOMIAL);
    } else if b & 1 == 1 {
      XorRight(a >> 1, b >> 1, POLYNOMIAL);
    }
  }

  /** Bits above the low eight come through eight rounds only shifted. */
  lemma EightRoundsOfHigh(h: bv32)
    requires h & 0xff == 0
    ensures RfcRound(RfcRound(RfcRound(RfcRound(RfcRound(RfcRound(RfcRound(RfcRound(h)))))))) == h >> 8
  {}
}
