/** The tables are right. A register is a polynomial over GF(2) whose top bit is the unit;
    carrying it past `n` bits multiplies by the `n`-th power of X. Powers are built by
    squaring, and every table entry follows from one power by bit steps and XOR. */
module Crc32cPowers {
  import opened Crc32c
  import opened Crc32cTables

  // ---- Powers of X ----

  function Unit(): Word { Word(0x8000_0000) }

  function Double(w: Word): Word { Word(w.v << 1) }

  predicate Top(w: Word) { w.v & 0x8000_0000 != 0 }

  /** One step of a shift-and-add product of `x` and `k`, accumulated in `acc`. */
  datatype Product = Product(x: Word, k: Word, acc: Word)

  function MulStep(s: Product): Product {
    Product(Double(s.x), BitStep(s.k), if Top(s.x) then Xor(s.acc, s.k) else s.acc)
  }

  function Mul8(s: Product): Product {
    MulStep(MulStep(MulStep(MulStep(MulStep(MulStep(MulStep(MulStep(s))))))))
  }

  lemma RawDouble(x: bv32)
    requires x & 0x8000_0000 == 0
    ensures (x << 1) & 1 == 0 && (x << 1) >> 1 == x
  {
  }

  lemma RawTop(x: bv32)
    requires x & 0x8000_0000 != 0
    ensures (x << 1) & 1 == 0 && 0x8000_0000 ^ ((x << 1) >> 1) == x
  {
  }

  /** Doubling is undone by a bit step, save for the bit pushed off the top. */
  lemma DoubleStep(x: Word)
    ensures !Top(x) ==> BitStep(Double(x)) == x
    ensures Top(x) ==> x == Xor(Unit(), BitStep(Double(x)))
  {
    if Top(x) { RawTop(x.v); } else { RawDouble(x.v); }
  }

  lemma StepCommute(x: Word, n: nat)
    ensures BitStep(Bits(x, n)) == Bits(BitStep(x), n) == Bits(x, n + 1)
  {
    BitsAdd(x, 1, n);
    assert Bits(x, 1) == BitStep(Bits(x, 0)) == BitStep(x);
  }

  /** `s.k` is a power of X, and `s.acc` plus `s.x` times that power does not change. */
  ghost predicate Computes(s: Product, n: nat, total: Word) {
    s.k == Bits(Unit(), n) && Xor(s.acc, Bits(s.x, n)) == total
  }

  lemma MulStepKeeps(s: Product, n: nat, total: Word)
    requires Computes(s, n, total)
    ensures Computes(MulStep(s), n + 1, total)
  {
    var y := Double(s.x);
    DoubleStep(s.x);
    StepCommute(y, n);
    StepCommute(Unit(), n);
    if Top(s.x) {
      BitsLinear(Unit(), BitStep(y), n);
      XorAssoc(s.acc, s.k, Bits(BitStep(y), n));
    }
  }

  lemma Mul8Keeps(s: Product, n: nat, total: Word)
    requires Computes(s, n, total)
    ensures Computes(Mul8(s), n + 8, total)
  {
    var s1 := MulStep(s);
    var s2 := MulStep(s1);
    var s3 := MulStep(s2);
    var s4 := MulStep(s3);
    var s5 := MulStep(s4);
    var s6 := MulStep(s5);
    var s7 := MulStep(s6);
    MulStepKeeps(s, n, total);
    MulStepKeeps(s1, n + 1, total);
    MulStepKeeps(s2, n + 2, total);
    MulStepKeeps(s3, n + 3, total);
    MulStepKeeps(s4, n + 4, total);
    MulStepKeeps(s5, n + 5, total);
    MulStepKeeps(s6, n + 6, total);
    MulStepKeeps(s7, n + 7, total);
  }

  lemma Bits8(x: Word)
    ensures Bits(x, 8) == BitStep(BitStep(BitStep(BitStep(BitStep(BitStep(BitStep(BitStep(x))))))))
  {
    assert Bits(x, 1) == BitStep(Bits(x, 0));
    assert Bits(x, 2) == BitStep(Bits(x, 1));
    assert Bits(x, 3) == BitStep(Bits(x, 2));
    assert Bits(x, 4) == BitStep(Bits(x, 3));
    assert Bits(x, 5) == BitStep(Bits(x, 4));
    assert Bits(x, 6) == BitStep(Bits(x, 5));
    assert Bits(x, 7) == BitStep(Bits(x, 6));
  }

  /** A word times the `n`-th power of X is that word carried past `n` bits. */
  lemma Carry32(n: nat, a: Word, b: Word, s1: Product, s2: Product, s3: Product, k: Word, r: Word)
    requires b == Bits(Unit(), n)
    requires Mul8(Product(a, b, Zero())) == s1 && Mul8(s1) == s2 && Mul8(s2) == s3
    requires Mul8(s3) == Product(Zero(), k, r)
    ensures r == Bits(a, n)
  {
    hide Xor, Bits, Mul8, Unit;
    XorZero(Bits(a, n));
    Mul8Keeps(Product(a, b, Zero()), n, Bits(a, n));
    Mul8Keeps(s1, n + 8, Bits(a, n));
    Mul8Keeps(s2, n + 16, Bits(a, n));
    Mul8Keeps(s3, n + 24, Bits(a, n));
    BitsZero(n + 32);
    XorZero(r);
  }

  lemma Product32(m: nat, n: nat, a: Word, b: Word, s1: Product, s2: Product, s3: Product, k: Word, r: Word)
    requires a == Bits(Unit(), m) && b == Bits(Unit(), n)
    requires Mul8(Product(a, b, Zero())) == s1 && Mul8(s1) == s2 && Mul8(s2) == s3
    requires Mul8(s3) == Product(Zero(), k, r)
    ensures r == Bits(Unit(), m + n)
  {
    BitsAdd(Unit(), m, n);
    Carry32(n, a, b, s1, s2, s3, k, r);
  }

  /** The unit leaves the register after 32 steps, as the polynomial itself. */
  lemma Power32()
    ensures Bits(Unit(), 32) == Poly()
  {
    var h := Word(0x0000_8000);
    assert Bits(Unit(), 8) == Word(0x0080_0000) by { Bits8(Unit()); }
    assert Bits(Unit(), 16) == h by { Bits8(Word(0x0080_0000)); BitsAdd(Unit(), 8, 8); }
    assert Bits(Unit(), 24) == Word(0x80) by { Bits8(h); BitsAdd(Unit(), 16, 8); }
    assert Bits(Unit(), 32) == Poly() by { Bits8(Word(0x80)); BitsAdd(Unit(), 24, 8); }
  }

  lemma Power64()
    ensures Bits(Unit(), 64) == Word(0x6ea2d55c)
  {
    Power32();
    Product32(32, 32, Poly(), Poly(),
              Product(Word(0xf63b7800), Word(0xfbc3faf9), Word(0x63cd4b8f)),
              Product(Word(0x3b780000), Word(0x8b277743), Word(0x4e9834c3)),
              Product(Word(0x78000000), Word(0x52a0c93f), Word(0x0d014ceb)),
              Word(0x6ea2d55c), Word(0x6ea2d55c));
  }

  lemma Power128()
    ensures Bits(Unit(), 128) == Word(0x18b8ea18)
  {
    Power64();
    Product32(64, 64, Word(0x6ea2d55c), Word(0x6ea2d55c),
              Product(Word(0xa2d55c00), Word(0x1c08b7d6), Word(0x79f9b580)),
              Product(Word(0xd55c0000), Word(0xf56e0ef4), Word(0x3b89b418)),
              Product(Word(0x5c000000), Word(0x34019664), Word(0xe5e8ae29)),
              Word(0xa66805eb), Word(0x18b8ea18));
  }

  lemma Power256()
    ensures Bits(Unit(), 256) == Word(0x510ac59a)
  {
    Power128();
    Product32(128, 128, Word(0x18b8ea18), Word(0x18b8ea18),
              Product(Word(0xb8ea1800), Word(0x9a9f274a), Word(0x806aa89a)),
              Product(Word(0xea180000), Word(0x2a03aaa3), Word(0x476ec3fd)),
              Product(Word(0x18000000), Word(0xb13145f8), Word(0xcec9c202)),
              Word(0x790606ff), Word(0x510ac59a));
  }

  lemma Power512()
    ensures Bits(Unit(), 512) == Word(0xb82be955)
  {
    Power256();
    Product32(256, 256, Word(0x510ac59a), Word(0x510ac59a),
              Product(Word(0x0ac59a00), Word(0xf91bdeea), Word(0x9404ece7)),
              Product(Word(0xc59a0000), Word(0x882b9bfc), Word(0x12a866bd)),
              Product(Word(0x9a000000), Word(0xbea58b3e), Word(0x4140a4f7)),
              Word(0x9c25531d), Word(0xb82be955));
  }

  lemma Power1024()
    ensures Bits(Unit(), 1024) == Word(0xb8fdb1e7)
  {
    Power512();
    Product32(512, 512, Word(0xb82be955), Word(0xb82be955),
              Product(Word(0x2be95500), Word(0x646ce526), Word(0x38b3a276)),
              Product(Word(0xe9550000), Word(0x067805d3), Word(0xd1cee19d)),
              Product(Word(0x55000000), Word(0xc0856a5a), Word(0x200d91c6)),
              Word(0x3a077781), Word(0xb8fdb1e7));
  }

  lemma Power2048()
    ensures Bits(Unit(), 2048) == Word(0x88e56f72)
  {
    Power1024();
    Product32(1024, 1024, Word(0xb8fdb1e7), Word(0xb8fdb1e7),
              Product(Word(0xfdb1e700), Word(0x37423140), Word(0xdb776a6f)),
              Product(Word(0xb1e70000), Word(0x414c5f8d), Word(0x7cfa0473)),
              Product(Word(0xe7000000), Word(0x3d9f3bf4), Word(0xbdc2181e)),
              Word(0x34c96751), Word(0x88e56f72));
  }

  lemma Power2560()
    ensures Bits(Unit(), 2560) == Word(0x9030a49c)
  {
    Power2048();
    Power512();
    Product32(2048, 512, Word(0x88e56f72), Word(0xb82be955),
              Product(Word(0xe56f7200), Word(0x646ce526), Word(0xe28c8d13)),
              Product(Word(0x6f720000), Word(0x067805d3), Word(0x100b3da9)),
              Product(Word(0x72000000), Word(0xc0856a5a), Word(0xf3d31eac)),
              Word(0x3a077781), Word(0x9030a49c));
  }

  lemma Power2688()
    ensures Bits(Unit(), 2688) == Word(0x7df9f615)
  {
    Power2560();
    Power128();
    Product32(2560, 128, Word(0x9030a49c), Word(0x18b8ea18),
              Product(Word(0x30a49c00), Word(0x9a9f274a), Word(0x1baff75b)),
              Product(Word(0xa49c0000), Word(0x2a03aaa3), Word(0xedd6fca4)),
              Product(Word(0x9c000000), Word(0xb13145f8), Word(0x950f189e)),
              Word(0x790606ff), Word(0x7df9f615));
  }

  lemma Power4096()
    ensures Bits(Unit(), 4096) == Word(0x74c360a4)
  {
    Power2048();
    Product32(2048, 2048, Word(0x88e56f72), Word(0x88e56f72),
              Product(Word(0xe56f7200), Word(0x902bc195), Word(0xa0d6b75b)),
              Product(Word(0x6f720000), Word(0xa7c9c3ca), Word(0xf90302a5)),
              Product(Word(0x72000000), Word(0xa8c8c73f), Word(0x01491c0c)),
              Word(0x6e58bd52), Word(0x74c360a4));
  }

  lemma Power8192()
    ensures Bits(Unit(), 8192) == Word(0xe4172b16)
  {
    Power4096();
    Product32(4096, 4096, Word(0x74c360a4), Word(0x74c360a4),
              Product(Word(0xc360a400), Word(0x65a5e1d9), Word(0x8824aacc)),
              Product(Word(0x60a40000), Word(0xab049f86), Word(0xa98a5a86)),
              Product(Word(0xa4000000), Word(0xa4fcd80f), Word(0x543f09dc)),
              Word(0x5eb7c0fc), Word(0xe4172b16));
  }

  lemma Power10880()
    ensures Bits(Unit(), 10880) == Word(0xd6a79573)
  {
    Power8192();
    Power2688();
    Product32(8192, 2688, Word(0xe4172b16), Word(0x7df9f615),
              Product(Word(0x172b1600), Word(0x25d22a85), Word(0xb48b7487)),
              Product(Word(0x2b160000), Word(0xb722fd4e), Word(0x05ca5783)),
              Product(Word(0x16000000), Word(0xedb48066), Word(0x24d5b8d0)),
              Word(0x478ac00a), Word(0xd6a79573));
  }

  lemma Power21760()
    ensures Bits(Unit(), 21760) == Word(0x4672c7f2)
  {
    Power10880();
    Product32(10880, 10880, Word(0xd6a79573), Word(0xd6a79573),
              Product(Word(0xa7957300), Word(0x621e006c), Word(0xd740ea4c)),
              Product(Word(0x95730000), Word(0x2ce742b2), Word(0x255c86f6)),
              Product(Word(0x73000000), Word(0x5302e57c), Word(0x78963d54)),
              Word(0x3c889938), Word(0x4672c7f2));
  }

  lemma Power43520()
    ensures Bits(Unit(), 43520) == Word(0xaca00c83)
  {
    Power21760();
    Product32(21760, 21760, Word(0x4672c7f2), Word(0x4672c7f2),
              Product(Word(0x72c7f200), Word(0x12136d45), Word(0xfbefbcc5)),
              Product(Word(0xc7f20000), Word(0x74981acd), Word(0x426a3239)),
              Product(Word(0xf2000000), Word(0x7cd1f20d), Word(0x69fb4f4e)),
              Word(0xbf549d21), Word(0xaca00c83));
  }

  // ---- The published check value for 32 zero bytes (section B.4 of RFC 3720) ----

  lemma {:induction false} FeedZeros(l: Word, d: seq<bv8>)
    requires forall i :: 0 <= i < |d| ==> d[i] == 0
    ensures Feed(l, d) == Bits(l, 8 * |d|)
  {
    if d != [] {
      hide Xor, Bits;
      FeedZeros(l, d[..|d| - 1]);
      XorZero(Bits(l, 8 * (|d| - 1)));
      assert OfByte(0) == Zero();
      BitsAdd(l, 8 * (|d| - 1), 8);
    }
  }

  lemma ThirtyTwoZeroBytes(d: seq<bv8>)
    requires |d| == 32 && forall i :: 0 <= i < 32 ==> d[i] == 0
    ensures Extend(Zero(), d) == Word(0x8a9136aa)
  {
    ZerosCarried();
    XorZero(Ones());
    FeedZeros(Ones(), d);
  }

  lemma ZerosCarried()
    ensures Xor(Bits(Ones(), 256), Ones()) == Word(0x8a9136aa)
  {
    Power256();
    Carry32(256, Ones(), Word(0x510ac59a),
            Product(Word(0xffffff00), Word(0xf91bdeea), Word(0xcfe1eda0)),
            Product(Word(0xffff0000), Word(0x882b9bfc), Word(0x6d65b9eb)),
            Product(Word(0xff000000), Word(0xbea58b3e), Word(0xb5358b38)),
            Word(0x9c25531d), Word(0x756ec955));
  }
}
