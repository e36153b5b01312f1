/** The macro steps of both engines, one method each, proved against the bit-by-bit register. */
module Crc32cSteps {
  import opened Crc32c
  import opened Crc32cTables
  import opened Crc32cPowers
  import opened Crc32cRows
  import opened Crc32cTableProofs

  // ---- Little-endian words ----

  function ReadUint32LE(d: seq<bv8>): Word
    requires |d| == 4
  {
    Word((d[0] as bv32) | ((d[1] as bv32) << 8) | ((d[2] as bv32) << 16) | ((d[3] as bv32) << 24))
  }

  function Up8(w: Word): Word { Shl4(Shl4(w)) }

  predicate Fits24(w: Word) { w.v & 0xff00_0000 == 0 }

  lemma FitsOnce(w: Word)
    requires Fits24(w)
    ensures Rest(w) == w
  {
  }

  lemma FitsTwice(w: Word)
    requires Fits24(w)
    ensures Rest(Shl4(w)) == Shl4(w)
  {
  }

  lemma Up8Down(w: Word)
    requires Fits24(w)
    ensures Bits(Up8(w), 8) == w
  {
    hide Shl4, Rest, Bits;
    FitsOnce(w);
    FitsTwice(w);
    Shl4Down(w);
    Shl4Down(Shl4(w));
    BitsAdd(Up8(w), 4, 4);
  }

  /** A word waiting eight bits up arrives whole after one byte. */
  lemma Arrives(x: Word, w: Word)
    requires Fits24(w)
    ensures Bits(Xor(x, Up8(w)), 8) == Xor(Bits(x, 8), w)
  {
    hide Xor, Up8, Bits;
    BitsLinear(x, Up8(w), 8);
    Up8Down(w);
  }

  lemma WordOfBytes(b0: bv8, b1: bv8, b2: bv8, b3: bv8)
    ensures ReadUint32LE([b0, b1, b2, b3]) ==
            Xor(OfByte(b0), Up8(Xor(OfByte(b1), Up8(Xor(OfByte(b2), Up8(OfByte(b3)))))))
  {
  }

  lemma BytesFit(b1: bv8, b2: bv8, b3: bv8)
    ensures Fits24(OfByte(b3))
    ensures Fits24(Xor(OfByte(b2), Up8(OfByte(b3))))
    ensures Fits24(Xor(OfByte(b1), Up8(Xor(OfByte(b2), Up8(OfByte(b3))))))
  {
  }

  lemma FeedFour(l: Word, b0: bv8, b1: bv8, b2: bv8, b3: bv8)
    ensures Feed(l, [b0, b1, b2, b3]) == FeedByte(FeedByte(FeedByte(FeedByte(l, b0), b1), b2), b3)
  {
    hide FeedByte;
    var d := [b0, b1, b2, b3];
    assert d[..3] == [b0, b1, b2] && d[..3][..2] == [b0, b1] && d[..3][..2][..1] == [b0];
    assert Feed(l, [b0]) == FeedByte(l, b0);
    assert Feed(l, [b0, b1]) == FeedByte(Feed(l, [b0]), b1);
    assert Feed(l, [b0, b1, b2]) == FeedByte(Feed(l, [b0, b1]), b2);
  }

  /** One byte of a waiting word is consumed, the rest moves down. */
  lemma ByteOfWaiting(l: Word, b: bv8, w: Word, n: nat)
    requires Fits24(w)
    ensures Bits(Xor(l, Xor(OfByte(b), Up8(w))), 8 + n) == Bits(Xor(FeedByte(l, b), w), n)
  {
    hide Xor, OfByte, Up8, Bits;
    XorAssoc(l, OfByte(b), Up8(w));
    Arrives(Xor(l, OfByte(b)), w);
    BitsAdd(Xor(l, Xor(OfByte(b), Up8(w))), 8, n);
  }

  /** Four bytes at once are a word added to the register. */
  lemma FeedWord(l: Word, d: seq<bv8>)
    requires |d| == 4
    ensures Feed(l, d) == Bits(Xor(l, ReadUint32LE(d)), 32)
  {
    hide Xor, OfByte, Up8, Bits, Feed, FeedByte, ReadUint32LE;
    var b0, b1, b2, b3 := d[0], d[1], d[2], d[3];
    assert d == [b0, b1, b2, b3];
    FeedFour(l, b0, b1, b2, b3);
    WordOfBytes(b0, b1, b2, b3);
    BytesFit(b1, b2, b3);
    var w3 := OfByte(b3);
    var w2 := Xor(OfByte(b2), Up8(w3));
    var w1 := Xor(OfByte(b1), Up8(w2));
    var l1 := FeedByte(l, b0);
    var l2 := FeedByte(l1, b1);
    var l3 := FeedByte(l2, b2);
    ByteOfWaiting(l, b0, w1, 24);
    ByteOfWaiting(l1, b1, w2, 16);
    ByteOfWaiting(l2, b2, w3, 8);
    FeedByteIs(l3, b3);
  }

  lemma FeedByteIs(l: Word, b: bv8)
    ensures FeedByte(l, b) == Bits(Xor(l, OfByte(b)), 8)
  {
  }

  // ---- Steps of the portable engine ----

  lemma SplitLow(x: Word)
    ensures x == Xor(Low8(x), Up8(Shr8(x)))
  {
  }

  lemma LowFits(x: Word)
    ensures Low8(x).v < 256 && Fits24(Shr8(x))
  {
  }

  /** A table lookup on the low byte moves a register past one zero byte. */
  lemma LookupStep(x: Word)
    ensures Xor(ByteTable().At(Low8(x)), Shr8(x)) == Bits(x, 8)
  {
    hide Xor, Low8, Shr8, Up8, Bits, ByteTable;
    SplitLow(x);
    LowFits(x);
    Arrives(Low8(x), Shr8(x));
    ByteTableSkips(Low8(x));
  }

  lemma LowOfSum(l: Word, b: bv8)
    ensures Xor(Low8(l), OfByte(b)) == Low8(Xor(l, OfByte(b)))
  {
  }

  lemma HighOfSum(l: Word, b: bv8)
    ensures Shr8(Xor(l, OfByte(b))) == Shr8(l)
  {
  }

  /** STEP1. */
  method Step1(l: Word, b: bv8) returns (r: Word)
    ensures r == FeedByte(l, b)
  {
    hide Xor, Low8, Shr8, Bits, ByteTable, OfByte;
    LowOfSum(l, b);
    HighOfSum(l, b);
    LookupStep(Xor(l, OfByte(b)));
    r := Xor(ByteTable().At(Xor(Low8(l), OfByte(b))), Shr8(l));
  }

  /** STEP4 on the word `w` read for the lane. */
  method Step4(crc: Word, w: Word) returns (r: Word)
    ensures r == Xor(w, Bits(crc, 128))
  {
    hide Xor, Low8, Shr8, Bits, Stride0Table, Stride1Table, Stride2Table, Stride3Table;
    var t3, t2 := Stride3Table().At(Low8(crc)), Stride2Table().At(Low8(Shr8(crc)));
    var t1 := Stride1Table().At(Low8(Shr8(Shr8(crc))));
    var t0 := Stride0Table().At(Shr8(Shr8(Shr8(crc))));
    r := Xor(Xor(Xor(Xor(w, t3), t2), t1), t0);
    StrideTablesSkip(crc);
    XorAssoc(w, t3, t2);
    XorAssoc(w, Xor(t3, t2), t1);
    XorAssoc(w, Xor(Xor(t3, t2), t1), t0);
  }

  /** STEP4W: the register `l` is merged into the word, which then passes four bytes. */
  method Step4W(w: Word, l: Word) returns (r: Word)
    ensures r == Bits(Xor(w, l), 32)
  {
    hide Xor, Low8, Shr8, ByteTable;
    r := Xor(w, l);
    for i := 0 to 4
      invariant r == Bits(Xor(w, l), 8 * i)
    {
      LookupStep(r);
      BitsAdd(Xor(w, l), 8 * i, 8);
      XorComm(Shr8(r), ByteTable().At(Low8(r)));
      r := Xor(Shr8(r), ByteTable().At(Low8(r)));
    }
  }

  // ---- Steps of the SSE4.2 engine ----

  /** The `_mm_crc32_u8` instruction. */
  function Crc32U8(crc: Word, b: bv8): Word {
    Bits(Xor(crc, OfByte(b)), 8)
  }

  /** The `_mm_crc32_u64` instruction on the low and high half of its operand. */
  function Crc32U64(crc: Word, low: Word, high: Word): Word {
    Bits(Xor(Bits(Xor(crc, low), 32), high), 32)
  }

  lemma FeedDouble(l: Word, d: seq<bv8>)
    requires |d| == 8
    ensures Crc32U64(l, ReadUint32LE(d[..4]), ReadUint32LE(d[4..])) == Feed(l, d)
  {
    hide Xor, Bits, Feed, ReadUint32LE;
    assert d == d[..4] + d[4..];
    FeedConcat(l, d[..4], d[4..]);
    FeedWord(l, d[..4]);
    FeedWord(Feed(l, d[..4]), d[4..]);
  }

  /** SKIP_BLOCK. */
  method SkipBlock(crc: Word, t: SkipTable) returns (r: Word)
    ensures r == RowSum(Rows(LiftAll(t)), crc)
  {
    hide Xor, Nibble, Lift, Row.At, WordRow.At, RowSum, Rows;
    r := Xor(Xor(Xor(Xor(Xor(Xor(Xor(t.r0.At(Nibble(crc, 0)), t.r1.At(Nibble(crc, 1))),
                                 t.r2.At(Nibble(crc, 2))), t.r3.At(Nibble(crc, 3))),
                         t.r4.At(Nibble(crc, 4))), t.r5.At(Nibble(crc, 5))),
                 t.r6.At(Nibble(crc, 6))), t.r7.At(Nibble(crc, 7)));
    LiftAt(t.r0, Nibble(crc, 0));
    LiftAt(t.r1, Nibble(crc, 1));
    LiftAt(t.r2, Nibble(crc, 2));
    LiftAt(t.r3, Nibble(crc, 3));
    LiftAt(t.r4, Nibble(crc, 4));
    LiftAt(t.r5, Nibble(crc, 5));
    LiftAt(t.r6, Nibble(crc, 6));
    LiftAt(t.r7, Nibble(crc, 7));
    EightRows(LiftAll(t), crc);
  }
}
