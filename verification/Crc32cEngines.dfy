/** The portable and the SSE4.2 engine return the CRC-32C of their buffer, for every seed,
    every length and every starting address. */
module Crc32cEngines {
  import opened Crc32c
  import opened Crc32cTables
  import opened Crc32cRows
  import opened Crc32cTableProofs
  import opened Crc32cSteps

  /** The first 4-aligned address at or after this one. */
  function RoundUp4(address: nat): (r: nat)
    ensures address <= r < address + 4 && r % 4 == 0
  {
    (address + 3) / 4 * 4
  }

  /** The first 8-aligned address at or after this one. */
  function RoundUp8(address: nat): (r: nat)
    ensures address <= r < address + 8 && r % 8 == 0
  {
    (address + 7) / 8 * 8
  }

  /** Two stretches of a buffer fed one after the other. */
  lemma FeedSlice(l: Word, d: seq<bv8>, a: nat, b: nat, c: nat)
    requires a <= b <= c <= |d|
    ensures Feed(Feed(l, d[a..b]), d[b..c]) == Feed(l, d[a..c])
  {
    hide Feed;
    assert d[a..c] == d[a..b] + d[b..c];
    FeedConcat(l, d[a..b], d[b..c]);
  }

  lemma FeedNothing(l: Word, d: seq<bv8>, a: nat)
    requires a <= |d|
    ensures Feed(l, d[a..a]) == l
  {
  }

  lemma FeedOne(l: Word, d: seq<bv8>, a: nat)
    requires a < |d|
    ensures Feed(l, d[a..a + 1]) == FeedByte(l, d[a])
  {
    hide FeedByte;
    var one := d[a..a + 1];
    assert one[..0] == [] && one[0] == d[a];
    assert Feed(l, one[..0]) == l;
  }

  /** STEP1 in a loop, from `p` up to `x`. */
  method StepBytes(l: Word, d: seq<bv8>, p: nat, x: nat) returns (r: Word)
    requires p <= x <= |d|
    ensures r == Feed(l, d[p..x])
  {
    hide Feed, FeedByte;
    r := l;
    FeedNothing(l, d, p);
    for q := p to x
      invariant r == Feed(l, d[p..q])
    {
      FeedOne(r, d, q);
      FeedSlice(l, d, p, q, q + 1);
      r := Step1(r, d[q]);
    }
  }

  // ---- Four strides ----

  /** The register `l` takes the word `w`. */
  function TakeWord(l: Word, w: Word): Word {
    Bits(Xor(w, l), 32)
  }

  /** Four words taken in turn. */
  function TakeFour(l: Word, c0: Word, c1: Word, c2: Word, c3: Word): Word {
    TakeWord(TakeWord(TakeWord(TakeWord(l, c0), c1), c2), c3)
  }

  lemma TakeLinear(l: Word, m: Word, w: Word, v: Word)
    ensures TakeWord(Xor(l, m), Xor(w, v)) == Xor(TakeWord(l, w), TakeWord(m, v))
  {
    hide Xor, Bits;
    XorSwap(w, v, l, m);
    BitsLinear(Xor(w, l), Xor(v, m), 32);
  }

  lemma TakeCarry(l: Word, w: Word, n: nat)
    ensures TakeWord(Bits(l, n), Bits(w, n)) == Bits(TakeWord(l, w), n)
  {
    hide Xor, Bits;
    BitsLinear(w, l, n);
    BitsAdd(Xor(w, l), n, 32);
    BitsAdd(Xor(w, l), 32, n);
  }

  lemma TakeFourLinear(l: Word, c0: Word, c1: Word, c2: Word, c3: Word,
                       m: Word, w0: Word, w1: Word, w2: Word, w3: Word)
    ensures TakeFour(Xor(l, m), Xor(c0, w0), Xor(c1, w1), Xor(c2, w2), Xor(c3, w3)) ==
            Xor(TakeFour(l, c0, c1, c2, c3), TakeFour(m, w0, w1, w2, w3))
  {
    hide Xor, TakeWord;
    var l1, m1 := TakeWord(l, c0), TakeWord(m, w0);
    var l2, m2 := TakeWord(l1, c1), TakeWord(m1, w1);
    var l3, m3 := TakeWord(l2, c2), TakeWord(m2, w2);
    TakeLinear(l, m, c0, w0);
    TakeLinear(l1, m1, c1, w1);
    TakeLinear(l2, m2, c2, w2);
    TakeLinear(l3, m3, c3, w3);
  }

  lemma TakeFourCarry(l: Word, c0: Word, c1: Word, c2: Word, c3: Word, n: nat)
    ensures TakeFour(Bits(l, n), Bits(c0, n), Bits(c1, n), Bits(c2, n), Bits(c3, n)) ==
            Bits(TakeFour(l, c0, c1, c2, c3), n)
  {
    hide Bits, TakeWord;
    TakeCarry(l, c0, n);
    TakeCarry(TakeWord(l, c0), c1, n);
    TakeCarry(TakeWord(TakeWord(l, c0), c1), c2, n);
    TakeCarry(TakeWord(TakeWord(TakeWord(l, c0), c1), c2), c3, n);
  }

  lemma TakeZeros(l: Word)
    ensures TakeFour(l, Zero(), Zero(), Zero(), Zero()) == Bits(l, 128)
  {
    hide Xor, Bits;
    XorZero(l);
    XorZero(Bits(l, 32));
    XorZero(Bits(l, 64));
    XorZero(Bits(l, 96));
    BitsAdd(l, 32, 32);
    BitsAdd(l, 64, 32);
    BitsAdd(l, 96, 32);
  }

  lemma FeedIsTake(l: Word, d: seq<bv8>)
    requires |d| == 4
    ensures Feed(l, d) == TakeWord(l, ReadUint32LE(d))
  {
    hide Xor, Bits, Feed, ReadUint32LE;
    FeedWord(l, d);
    XorComm(l, ReadUint32LE(d));
  }

  lemma FeedSixteen(l: Word, d: seq<bv8>, p: nat)
    requires p + 16 <= |d|
    ensures Feed(l, d[p..p + 16]) ==
            TakeFour(l, ReadUint32LE(d[p..p + 4]), ReadUint32LE(d[p + 4..p + 8]),
                     ReadUint32LE(d[p + 8..p + 12]), ReadUint32LE(d[p + 12..p + 16]))
  {
    hide Feed, ReadUint32LE, TakeWord;
    FeedIsTake(l, d[p..p + 4]);
    FeedIsTake(Feed(l, d[p..p + 4]), d[p + 4..p + 8]);
    FeedSlice(l, d, p, p + 4, p + 8);
    FeedIsTake(Feed(l, d[p..p + 8]), d[p + 8..p + 12]);
    FeedSlice(l, d, p, p + 8, p + 12);
    FeedIsTake(Feed(l, d[p..p + 12]), d[p + 12..p + 16]);
    FeedSlice(l, d, p, p + 12, p + 16);
  }

  /** What four stride lanes stand for: the register they merge into. */
  function Merged(c0: Word, c1: Word, c2: Word, c3: Word): Word {
    TakeFour(Zero(), c0, c1, c2, c3)
  }

  /** Carrying every lane past 16 bytes and adding the new words feeds those 16 bytes. */
  lemma StrideFeeds(c0: Word, c1: Word, c2: Word, c3: Word, w0: Word, w1: Word, w2: Word, w3: Word)
    ensures Merged(Xor(w0, Bits(c0, 128)), Xor(w1, Bits(c1, 128)),
                   Xor(w2, Bits(c2, 128)), Xor(w3, Bits(c3, 128))) ==
            TakeFour(Merged(c0, c1, c2, c3), w0, w1, w2, w3)
  {
    hide Xor, Bits, TakeFour, Zero;
    var z, l := Zero(), Merged(c0, c1, c2, c3);
    TakeFourLinear(z, w0, w1, w2, w3, z, Bits(c0, 128), Bits(c1, 128), Bits(c2, 128), Bits(c3, 128));
    BitsZero(128);
    TakeFourCarry(z, c0, c1, c2, c3, 128);
    TakeFourLinear(z, w0, w1, w2, w3, l, z, z, z, z);
    TakeZeros(l);
    XorZero(z);
    XorZero(l);
    XorZero(w0);
    XorZero(w1);
    XorZero(w2);
    XorZero(w3);
  }

  /** Reusing lane 0 as the last lane feeds one word. */
  lemma RotationFeeds(c0: Word, c1: Word, c2: Word, c3: Word, w: Word)
    ensures Merged(c1, c2, c3, Xor(w, Bits(c0, 128))) == TakeWord(Merged(c0, c1, c2, c3), w)
  {
    hide Xor, Bits, Zero;
    var z := Zero();
    // Both sides are the lanes c1, c2, c3 and the word w, with lane 0 carried past them.
    TakeFourLinear(z, c1, c2, c3, w, z, z, z, z, Bits(c0, 128));
    TakeFourLinear(z, c1, c2, c3, w, Bits(c0, 32), z, z, z, z);
    LaneAlone(c0);
    XorZero(z);
    XorZero(c0);
    XorZero(c1);
    XorZero(c2);
    XorZero(c3);
    XorZero(w);
    XorZero(Bits(c0, 32));
    XorZero(Bits(c0, 128));
  }

  lemma LaneAlone(c: Word)
    ensures TakeFour(Zero(), Zero(), Zero(), Zero(), Bits(c, 128)) ==
            TakeFour(Bits(c, 32), Zero(), Zero(), Zero(), Zero())
  {
    hide Xor, Bits, Zero;
    var z := Zero();
    XorZero(z);
    BitsZero(32);
    TakeZeros(Bits(c, 32));
    XorZero(Bits(c, 128));
    BitsAdd(c, 32, 128);
    BitsAdd(c, 128, 32);
  }

  /** STEP16. */
  method Step16(c0: Word, c1: Word, c2: Word, c3: Word, d: seq<bv8>, p: nat)
    returns (r0: Word, r1: Word, r2: Word, r3: Word)
    requires p + 16 <= |d|
    ensures Merged(r0, r1, r2, r3) == Feed(Merged(c0, c1, c2, c3), d[p..p + 16])
  {
    hide Xor, Bits, TakeFour, Merged, Feed, ReadUint32LE;
    var w0, w1 := ReadUint32LE(d[p..p + 4]), ReadUint32LE(d[p + 4..p + 8]);
    var w2, w3 := ReadUint32LE(d[p + 8..p + 12]), ReadUint32LE(d[p + 12..p + 16]);
    r0 := Step4(c0, w0);
    r1 := Step4(c1, w1);
    r2 := Step4(c2, w2);
    r3 := Step4(c3, w3);
    StrideFeeds(c0, c1, c2, c3, w0, w1, w2, w3);
    FeedSixteen(Merged(c0, c1, c2, c3), d, p);
  }

  /** The first 16 bytes become the four lanes, the register joining lane 0. */
  lemma LanesStart(l: Word, w0: Word, w1: Word, w2: Word, w3: Word)
    ensures Merged(Xor(w0, l), w1, w2, w3) == TakeFour(l, w0, w1, w2, w3)
  {
    hide Xor, Bits, Zero;
    XorZero(Xor(w0, l));
  }

  /** The lanes over `d[from..]` until fewer than four bytes remain, merged. */
  method Strides(l: Word, d: seq<bv8>, from: nat) returns (r: Word, p: nat)
    requires from + 16 <= |d|
    ensures from <= p <= |d| && |d| - p < 4
    ensures r == Feed(l, d[from..p])
  {
    hide Xor, Bits, TakeWord, TakeFour, Feed, ReadUint32LE;
    p := from;
    var w0, w1 := ReadUint32LE(d[p..p + 4]), ReadUint32LE(d[p + 4..p + 8]);
    var w2, w3 := ReadUint32LE(d[p + 8..p + 12]), ReadUint32LE(d[p + 12..p + 16]);
    var crc0, crc1, crc2, crc3 := Xor(w0, l), w1, w2, w3;
    LanesStart(l, w0, w1, w2, w3);
    FeedSixteen(l, d, p);
    p := p + 16;
    while |d| - p > 256
      invariant from <= p <= |d|
      invariant Merged(crc0, crc1, crc2, crc3) == Feed(l, d[from..p])
    {
      crc0, crc1, crc2, crc3 := Step16(crc0, crc1, crc2, crc3, d, p);
      FeedSlice(l, d, from, p, p + 16);
      crc0, crc1, crc2, crc3 := Step16(crc0, crc1, crc2, crc3, d, p + 16);
      FeedSlice(l, d, from, p + 16, p + 32);
      crc0, crc1, crc2, crc3 := Step16(crc0, crc1, crc2, crc3, d, p + 32);
      FeedSlice(l, d, from, p + 32, p + 48);
      crc0, crc1, crc2, crc3 := Step16(crc0, crc1, crc2, crc3, d, p + 48);
      FeedSlice(l, d, from, p + 48, p + 64);
      p := p + 64;
    }
    while |d| - p >= 16
      invariant from <= p <= |d|
      invariant Merged(crc0, crc1, crc2, crc3) == Feed(l, d[from..p])
    {
      crc0, crc1, crc2, crc3 := Step16(crc0, crc1, crc2, crc3, d, p);
      FeedSlice(l, d, from, p, p + 16);
      p := p + 16;
    }
    while |d| - p >= 4
      invariant from <= p <= |d|
      invariant Merged(crc0, crc1, crc2, crc3) == Feed(l, d[from..p])
    {
      var w := ReadUint32LE(d[p..p + 4]);
      RotationFeeds(crc0, crc1, crc2, crc3, w);
      FeedIsTake(Merged(crc0, crc1, crc2, crc3), d[p..p + 4]);
      FeedSlice(l, d, from, p, p + 4);
      crc0 := Step4(crc0, w);
      crc0, crc1, crc2, crc3 := crc1, crc2, crc3, crc0;
      p := p + 4;
    }
    r := MergeLanes(crc0, crc1, crc2, crc3);
  }

  /** STEP4W over the four lanes, from an empty register. */
  method MergeLanes(c0: Word, c1: Word, c2: Word, c3: Word) returns (l: Word)
    ensures l == Merged(c0, c1, c2, c3)
  {
    hide Xor, Bits;
    l := Zero();
    l := Step4W(c0, l);
    l := Step4W(c1, l);
    l := Step4W(c2, l);
    l := Step4W(c3, l);
  }

  /** `ExtendPortable` on a buffer that starts at `address`. */
  method ExtendPortable(crc: Word, data: seq<bv8>, address: nat) returns (r: Word)
    ensures r == Extend(crc, data)
  {
    hide Xor, Feed;
    var l0 := Xor(crc, Ones());
    var l, p, e := l0, 0, |data|;
    var x := RoundUp4(address) - address;
    FeedNothing(l0, data, 0);
    if x <= e {
      l := StepBytes(l, data, p, x);
      p := x;
    }
    if e - p >= 16 {
      var merged, q := Strides(l, data, p);
      FeedSlice(l0, data, 0, p, q);
      l, p := merged, q;
    }
    FeedSlice(l0, data, 0, p, e);
    l := StepBytes(l, data, p, e);
    assert data[0..e] == data;
    r := Xor(l, Ones());
  }

  // ---- Three blocks at a time ----

  /** STEP1 of the SSE4.2 engine in a loop, from `p` up to `x`. */
  method InstructionBytes(l: Word, d: seq<bv8>, p: nat, x: nat) returns (r: Word)
    requires p <= x <= |d|
    ensures r == Feed(l, d[p..x])
  {
    hide Feed, Bits, Xor;
    r := l;
    FeedNothing(l, d, p);
    for q := p to x
      invariant r == Feed(l, d[p..q])
    {
      FeedOne(r, d, q);
      FeedSlice(l, d, p, q, q + 1);
      r := Crc32U8(r, d[q]);
    }
  }

  /** STEP8X3. */
  method Step8X3(a: Word, b: Word, c: Word, d: seq<bv8>, p: nat, bs: nat)
    returns (r0: Word, r1: Word, r2: Word)
    requires p + 2 * bs + 8 <= |d|
    ensures r0 == Feed(a, d[p..p + 8])
    ensures r1 == Feed(b, d[p + bs..p + bs + 8])
    ensures r2 == Feed(c, d[p + 2 * bs..p + 2 * bs + 8])
  {
    hide Feed, Crc32U64, ReadUint32LE;
    var d0, d1, d2 := d[p..p + 8], d[p + bs..p + bs + 8], d[p + 2 * bs..p + 2 * bs + 8];
    r0 := Crc32U64(a, ReadUint32LE(d0[..4]), ReadUint32LE(d0[4..]));
    r1 := Crc32U64(b, ReadUint32LE(d1[..4]), ReadUint32LE(d1[4..]));
    r2 := Crc32U64(c, ReadUint32LE(d2[..4]), ReadUint32LE(d2[4..]));
    FeedDouble(a, d0);
    FeedDouble(b, d1);
    FeedDouble(c, d2);
  }

  /** What the three lanes hold after `i` bytes of each block. */
  ghost predicate LanesAt(l: Word, a: Word, b: Word, c: Word, d: seq<bv8>, s: nat, bs: nat, i: nat)
    requires i <= bs && s + 3 * bs <= |d|
  {
    a == Feed(l, d[s..s + i]) && b == Feed(Zero(), d[s + bs..s + bs + i])
    && c == Feed(Zero(), d[s + 2 * bs..s + 2 * bs + i])
  }

  /** One STEP8X3 inside a block. */
  method LanesStep(ghost l: Word, a: Word, b: Word, c: Word, d: seq<bv8>, s: nat, bs: nat, i: nat)
    returns (r0: Word, r1: Word, r2: Word)
    requires i + 8 <= bs && s + 3 * bs <= |d| && LanesAt(l, a, b, c, d, s, bs, i)
    ensures LanesAt(l, r0, r1, r2, d, s, bs, i + 8)
  {
    hide Feed, Zero;
    FeedSlice(l, d, s, s + i, s + i + 8);
    FeedSlice(Zero(), d, s + bs, s + bs + i, s + bs + i + 8);
    FeedSlice(Zero(), d, s + 2 * bs, s + 2 * bs + i, s + 2 * bs + i + 8);
    r0, r1, r2 := Step8X3(a, b, c, d, s + i, bs);
  }

  /** Skipping the first two lanes over the later blocks merges all three. */
  lemma MergeBlocks(l: Word, a: Word, b: Word, c: Word, d: seq<bv8>, s: nat, bs: nat)
    requires s + 3 * bs <= |d| && LanesAt(l, a, b, c, d, s, bs, bs)
    ensures Xor(Bits(Xor(Bits(a, 8 * bs), b), 8 * bs), c) == Feed(l, d[s..s + 3 * bs])
  {
    hide Feed, Bits, Xor, Zero;
    FeedSplit(a, d[s + bs..s + 2 * bs]);
    FeedSlice(l, d, s, s + bs, s + 2 * bs);
    FeedSplit(Feed(l, d[s..s + 2 * bs]), d[s + 2 * bs..s + 3 * bs]);
    FeedSlice(l, d, s, s + 2 * bs, s + 3 * bs);
  }

  /** The blocks of 5440 bytes, 64 bytes of each per turn. */
  method LargeBlocks(l: Word, d: seq<bv8>, from: nat) returns (r: Word, p: nat)
    requires from <= |d|
    ensures from <= p <= |d| && r == Feed(l, d[from..p])
  {
    hide Feed, Bits, Xor, RowSum, Rows, LiftAll, Skip0Table, Skip1Table, Skip2Table, LanesAt;
    r, p := l, from;
    FeedNothing(l, d, from);
    while |d| - p >= 3 * 5440
      invariant from <= p <= |d| && r == Feed(l, d[from..p])
    {
      var a, b, c := r, Zero(), Zero();
      LanesBegin(r, d, p, 5440);
      var i := 0;
      while i < 5440
        invariant 0 <= i <= 5440 && i % 64 == 0
        invariant LanesAt(r, a, b, c, d, p, 5440, i)
      {
        a, b, c := LanesStep(r, a, b, c, d, p, 5440, i);
        a, b, c := LanesStep(r, a, b, c, d, p, 5440, i + 8);
        a, b, c := LanesStep(r, a, b, c, d, p, 5440, i + 16);
        a, b, c := LanesStep(r, a, b, c, d, p, 5440, i + 24);
        a, b, c := LanesStep(r, a, b, c, d, p, 5440, i + 32);
        a, b, c := LanesStep(r, a, b, c, d, p, 5440, i + 40);
        a, b, c := LanesStep(r, a, b, c, d, p, 5440, i + 48);
        a, b, c := LanesStep(r, a, b, c, d, p, 5440, i + 56);
        i := i + 64;
      }
      MergeBlocks(r, a, b, c, d, p, 5440);
      FeedSlice(l, d, from, p, p + 3 * 5440);
      SkipTablesSkip(a);
      a := SkipBlock(a, Skip0Table());
      a := Xor(a, b);
      SkipTablesSkip(a);
      a := SkipBlock(a, Skip0Table());
      r := Xor(a, c);
      p := p + 3 * 5440;
    }
  }

  lemma LanesBegin(l: Word, d: seq<bv8>, s: nat, bs: nat)
    requires s + 3 * bs <= |d|
    ensures LanesAt(l, l, Zero(), Zero(), d, s, bs, 0)
  {
    hide Feed, Zero;
    FeedNothing(l, d, s);
    FeedNothing(Zero(), d, s + bs);
    FeedNothing(Zero(), d, s + 2 * bs);
  }

  /** The blocks of a smaller size, 8 bytes of each per turn, skipped with their table. */
  method SmallBlocks(l: Word, d: seq<bv8>, from: nat, bs: nat, t: SkipTable) returns (r: Word, p: nat)
    requires from <= |d| && bs > 0 && bs % 8 == 0
    requires forall w: Word :: RowSum(Rows(LiftAll(t)), w) == Bits(w, 8 * bs)
    ensures from <= p <= |d| && r == Feed(l, d[from..p])
  {
    hide Feed, Bits, Xor, RowSum, Rows, LiftAll, LanesAt;
    r, p := l, from;
    FeedNothing(l, d, from);
    while |d| - p >= 3 * bs
      invariant from <= p <= |d| && r == Feed(l, d[from..p])
    {
      var a, b, c := r, Zero(), Zero();
      LanesBegin(r, d, p, bs);
      var i := 0;
      while i < bs
        invariant 0 <= i <= bs && i % 8 == 0
        invariant LanesAt(r, a, b, c, d, p, bs, i)
      {
        a, b, c := LanesStep(r, a, b, c, d, p, bs, i);
        i := i + 8;
      }
      MergeBlocks(r, a, b, c, d, p, bs);
      FeedSlice(l, d, from, p, p + 3 * bs);
      a := SkipBlock(a, t);
      a := Xor(a, b);
      a := SkipBlock(a, t);
      r := Xor(a, c);
      p := p + 3 * bs;
    }
  }

  /** STEP8 twice in a loop while 16 bytes remain. */
  method StepDoubles(l: Word, d: seq<bv8>, from: nat) returns (r: Word, p: nat)
    requires from <= |d|
    ensures from <= p <= |d| && r == Feed(l, d[from..p])
  {
    hide Feed, Crc32U64, ReadUint32LE;
    r, p := l, from;
    FeedNothing(l, d, from);
    while |d| - p >= 16
      invariant from <= p <= |d| && r == Feed(l, d[from..p])
    {
      var d0, d1 := d[p..p + 8], d[p + 8..p + 16];
      FeedDouble(r, d0);
      FeedSlice(l, d, from, p, p + 8);
      r := Crc32U64(r, ReadUint32LE(d0[..4]), ReadUint32LE(d0[4..]));
      FeedDouble(r, d1);
      FeedSlice(l, d, from, p + 8, p + 16);
      r := Crc32U64(r, ReadUint32LE(d1[..4]), ReadUint32LE(d1[4..]));
      p := p + 16;
    }
  }

  lemma SmallTablesSkip()
    ensures forall w: Word :: RowSum(Rows(LiftAll(Skip1Table())), w) == Bits(w, 8 * 1360)
    ensures forall w: Word :: RowSum(Rows(LiftAll(Skip2Table())), w) == Bits(w, 8 * 336)
  {
    hide RowSum, Rows, LiftAll, Skip0Table, Skip1Table, Skip2Table, Bits;
    forall w: Word
      ensures RowSum(Rows(LiftAll(Skip1Table())), w) == Bits(w, 8 * 1360)
      ensures RowSum(Rows(LiftAll(Skip2Table())), w) == Bits(w, 8 * 336)
    {
      SkipTablesSkip(w);
    }
  }

  /** `ExtendSse42` on a buffer that starts at `address`. */
  method ExtendSse42(crc: Word, data: seq<bv8>, address: nat) returns (r: Word)
    ensures r == Extend(crc, data)
  {
    hide Xor, Feed, RowSum, Rows, LiftAll, Skip0Table, Skip1Table, Skip2Table, Bits;
    var l0 := Xor(crc, Ones());
    var l, p, e := l0, 0, |data|;
    var x := RoundUp8(address) - address;
    FeedNothing(l0, data, 0);
    if x <= e {
      l := InstructionBytes(l, data, p, x);
      p := x;
    }
    var l64, q := LargeBlocks(l, data, p);
    FeedSlice(l0, data, 0, p, q);
    p := q;
    SmallTablesSkip();
    l64, q := SmallBlocks(l64, data, p, 1360, Skip1Table());
    FeedSlice(l0, data, 0, p, q);
    p := q;
    l64, q := SmallBlocks(l64, data, p, 336, Skip2Table());
    FeedSlice(l0, data, 0, p, q);
    p := q;
    l64, q := StepDoubles(l64, data, p);
    FeedSlice(l0, data, 0, p, q);
    p := q;
    FeedSlice(l0, data, 0, p, e);
    l := InstructionBytes(l64, data, p, e);
    assert data[0..e] == data;
    r := Xor(l, Ones());
  }
}
