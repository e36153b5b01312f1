/** CRC-32C (section 12.1 of RFC 3720) as a reflected 32-bit remainder register that
    takes one bit at a time, and the algebra of that register over GF(2): bit steps are
    linear, so a register can be split by XOR, carried past later data and merged back. */
module Crc32c {

  /** A `uint32_t` register. */
  datatype Word = Word(v: bv32)

  function Zero(): Word { Word(0) }

  function Poly(): Word { Word(0x82f63b78) }

  /** The inversion before and after every run of the register. */
  function Ones(): Word { Word(0xffff_ffff) }

  function Xor(a: Word, b: Word): Word { Word(a.v ^ b.v) }

  predicate Odd(a: Word) { a.v & 1 == 1 }

  function Half(a: Word): Word { Word(a.v >> 1) }

  function OfByte(b: bv8): Word { Word(b as bv32) }

  /** One zero bit through the register. */
  function BitStep(l: Word): Word {
    if Odd(l) then Xor(Half(l), Poly()) else Half(l)
  }

  /** `n` zero bits through the register. */
  function Bits(l: Word, n: nat): Word {
    if n == 0 then l else BitStep(Bits(l, n - 1))
  }

  /** One data byte: its bits enter at the low end, least significant first. */
  function FeedByte(l: Word, b: bv8): Word {
    Bits(Xor(l, OfByte(b)), 8)
  }

  /** The register after a whole buffer. */
  function Feed(l: Word, d: seq<bv8>): Word {
    if d == [] then l else FeedByte(Feed(l, d[..|d| - 1]), d[|d| - 1])
  }

  /** The CRC of `d` continued from `crc`: what every engine must return. */
  function Extend(crc: Word, d: seq<bv8>): Word {
    Xor(Feed(Xor(crc, Ones()), d), Ones())
  }

  // ---- XOR is a commutative group in which every word is its own inverse ----

  lemma XorAssoc(a: Word, b: Word, c: Word)
    ensures Xor(Xor(a, b), c) == Xor(a, Xor(b, c))
  {
  }

  lemma XorComm(a: Word, b: Word)
    ensures Xor(a, b) == Xor(b, a)
  {
  }

  lemma RawSelf(x: bv32)
    ensures x ^ x == 0 && x ^ 0 == x
  {
  }

  lemma XorZero(a: Word)
    ensures Xor(a, Zero()) == a == Xor(Zero(), a)
  {
    RawSelf(a.v);
  }

  lemma XorSelf(a: Word)
    ensures Xor(a, a) == Zero()
  {
    RawSelf(a.v);
  }

  lemma XorSwap(a: Word, b: Word, c: Word, d: Word)
    ensures Xor(Xor(a, b), Xor(c, d)) == Xor(Xor(a, c), Xor(b, d))
  {
    XorAssoc(a, b, Xor(c, d));
    XorAssoc(b, c, d);
    XorComm(b, c);
    XorAssoc(c, b, d);
    XorAssoc(a, c, Xor(b, d));
  }

  lemma XorCancel(a: Word, b: Word)
    ensures Xor(Xor(a, b), b) == a
  {
    XorAssoc(a, b, b);
    XorSelf(b);
    XorZero(a);
  }

  lemma XorCancelBoth(a: Word, b: Word, p: Word)
    ensures Xor(Xor(a, p), Xor(b, p)) == Xor(a, b)
  {
    XorSwap(a, p, b, p);
    XorSelf(p);
    XorZero(Xor(a, b));
  }

  lemma XorSlide(a: Word, b: Word, p: Word)
    ensures Xor(Xor(a, b), p) == Xor(Xor(a, p), b) == Xor(a, Xor(b, p))
  {
    XorAssoc(a, b, p);
    XorComm(b, p);
    XorAssoc(a, p, b);
  }

  // ---- Bit steps are linear ----

  lemma RawOdd(x: bv32, y: bv32)
    ensures (x ^ y) & 1 == 1 <==> ((x & 1 == 1) != (y & 1 == 1))
  {
  }

  lemma XorOdd(a: Word, b: Word)
    ensures Odd(Xor(a, b)) <==> Odd(a) != Odd(b)
  {
    RawOdd(a.v, b.v);
  }

  lemma XorHalf(a: Word, b: Word)
    ensures Half(Xor(a, b)) == Xor(Half(a), Half(b))
  {
  }

  lemma BitStepLinear(x: Word, y: Word)
    ensures BitStep(Xor(x, y)) == Xor(BitStep(x), BitStep(y))
  {
    XorOdd(x, y);
    XorHalf(x, y);
    if Odd(x) && Odd(y) {
      XorCancelBoth(Half(x), Half(y), Poly());
    } else {
      XorSlide(Half(x), Half(y), Poly());
    }
  }

  lemma {:induction false} BitsLinear(x: Word, y: Word, n: nat)
    ensures Bits(Xor(x, y), n) == Xor(Bits(x, n), Bits(y, n))
  {
    if n > 0 {
      BitsLinear(x, y, n - 1);
      BitStepLinear(Bits(x, n - 1), Bits(y, n - 1));
    }
  }

  lemma {:induction false} BitsZero(n: nat)
    ensures Bits(Zero(), n) == Zero()
  {
    if n > 0 {
      BitsZero(n - 1);
      ZeroStep();
    }
  }

  lemma ZeroStep()
    ensures BitStep(Zero()) == Zero()
  {
  }

  lemma {:induction false} BitsAdd(x: Word, m: nat, n: nat)
    ensures Bits(Bits(x, m), n) == Bits(x, m + n)
  {
    if n > 0 { BitsAdd(x, m, n - 1); }
  }

  // ---- Buffers ----

  lemma {:induction false} FeedConcat(l: Word, a: seq<bv8>, b: seq<bv8>)
    ensures Feed(l, a + b) == Feed(Feed(l, a), b)
  {
    if b == [] {
      assert a + b == a;
    } else {
      assert (a + b)[..|a + b| - 1] == a + b[..|b| - 1];
      FeedConcat(l, a, b[..|b| - 1]);
    }
  }

  /** Feeding is affine: the seed crosses the data as if the data were zeros. */
  lemma {:induction false} FeedSplit(l: Word, d: seq<bv8>)
    ensures Feed(l, d) == Xor(Bits(l, 8 * |d|), Feed(Zero(), d))
  {
    if d == [] {
      XorZero(l);
    } else {
      var rest, b := d[..|d| - 1], OfByte(d[|d| - 1]);
      FeedSplit(l, rest);
      var skipped, fed := Bits(l, 8 * |rest|), Feed(Zero(), rest);
      XorAssoc(skipped, fed, b);
      BitsLinear(skipped, Xor(fed, b), 8);
      BitsAdd(l, 8 * |rest|, 8);
    }
  }

  /** Section by section or all at once: the CRC composes. */
  lemma ExtendConcat(crc: Word, a: seq<bv8>, b: seq<bv8>)
    ensures Extend(Extend(crc, a), b) == Extend(crc, a + b)
  {
    FeedConcat(Xor(crc, Ones()), a, b);
    XorCancel(Feed(Xor(crc, Ones()), a), Ones());
  }
}
