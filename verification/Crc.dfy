/** PNG's CRC-32: the bit-at-a-time register the program runs, and the
    table-driven one of RFC 2083 section 15. */
module Crc {
  import opened Bits
  import opened Iteration

  // ---------------------------------------------------- RFC 2083, section 15

  /** The table's entry for the byte `n`. */
  function RfcEntry(n: bv32): bv32 {
    Times(RfcRound, 8, n)
  }

  function RfcUpdate(c: bv32, byte: Byte): bv32 {
    RfcEntry((c ^ (byte as bv32)) & 0xff) ^ (c >> 8)
  }

  function RfcCrc(bytes: seq<Byte>): bv32 {
    Fold(RfcUpdate, 0xffff_ffff, bytes) ^ 0xffff_ffff
  }

  // ------------------------------------------ eight rounds are a table look-up

  lemma EntryLinear(a: bv32, b: bv32)
    ensures Times(RfcRound, 8, Xor(a, b)) == Xor(Times(RfcRound, 8, a), Times(RfcRound, 8, b))
  {
    forall a, b
      ensures RfcRound(Xor(a, b)) == Xor(RfcRound(a), RfcRound(b))
    {
      RoundLinear(a, b);
    }
    TimesDistributes(Xor, RfcRound, 8, a, b);
  }

  /** Bits above the low eight come through eight rounds only shifted. */
  lemma EntryOfHigh(h: bv32)
    requires h & 0xff == 0
    ensures Times(RfcRound, 8, h) == h >> 8
  {
    EightTimes(RfcRound, h);
    EightRoundsOfHigh(h);
  }

  lemma EightRoundsAreATableStep(crc: bv32, byte: Byte)
    ensures Times(RfcRound, 8, crc ^ (byte as bv32)) == RfcUpdate(crc, byte)
  {
    SplitLow(crc, byte);
    EntryLinear((crc ^ (byte as bv32)) & 0xff, (crc ^ (byte as bv32)) & 0xffff_ff00);
    EntryOfHigh((crc ^ (byte as bv32)) & 0xffff_ff00);
  }

  // ------------------------------------------------------- the program's form

  /** One bit out of the register, masked rather than branched on. */
  method ShiftOut(crc: bv32) returns (r: bv32)
    ensures r == RfcRound(crc)
  {
    var mask := 0 - (crc & 1);
    r := (crc >> 1) ^ (0xedb8_8320 & mask);
    MaskChooses(crc);
  }

  method FeedByte(before: bv32, byte: Byte) returns (crc: bv32)
    ensures crc == RfcUpdate(before, byte)
  {
    crc := before ^ (byte as bv32);
    ghost var fed := crc;
    ghost var round := RfcRound;
    for bit := 0 to 8
      invariant crc == Times(round, bit, fed)
    {
      crc := ShiftOut(crc);
    }
    EightRoundsAreATableStep(before, byte);
  }

  /** The CRC of `parts` in order, bit by bit. */
  method Crc32(parts: seq<seq<Byte>>) returns (r: bv32)
    ensures r == RfcCrc(Joined(parts))
  {
    var crc: bv32 := 0xffff_ffff;
    ghost var start, update := crc, RfcUpdate;
    for p := 0 to |parts|
      invariant crc == Fold(update, start, Joined(parts[..p]))
    {
      ghost var partStart := crc;
      for i := 0 to |parts[p]|
        invariant crc == Fold(update, partStart, parts[p][..i])
      {
        FoldNext(update, partStart, parts[p], i);
        crc := FeedByte(crc, parts[p][i]);
      }
      assert parts[p][..|parts[p]|] == parts[p];
      JoinedNext(parts, p);
      FoldJoins(update, start, Joined(parts[..p]), parts[p]);
    }
    assert parts[..|parts|] == parts;
    NotIsXor(crc);
    r := !crc;
  }
}
