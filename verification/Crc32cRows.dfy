/** From one power of X to whole tables. A row carries its nibbles `d` bits down from the
    top of a register; rows follow from one another by bit steps, and a table of 256
    entries from its first row and its first column. */
module Crc32cRows {
  import opened Crc32c
  import opened Crc32cTables
  import opened Crc32cPowers

  predicate IsNibble(n: Word) { n.v < 16 }

  /** A nibble at the top of a register. */
  function AtTop(n: Word): Word { Word(n.v << 28) }

  /** What an entry must be: the nibble carried `d` bits down from the top. */
  function Carried(n: Word, d: nat): Word {
    Bits(AtTop(n), d)
  }

  /** A row of words, so that its entries can be added and carried. */
  datatype WordRow = WordRow(
    e0: Word, e1: Word, e2: Word, e3: Word, e4: Word, e5: Word, e6: Word, e7: Word,
    e8: Word, e9: Word, ea: Word, eb: Word, ec: Word, ed: Word, ee: Word, ef: Word)
  {
    function At(n: Word): Word {
      if n.v == 0 then e0 else if n.v == 1 then e1
      else if n.v == 2 then e2 else if n.v == 3 then e3
      else if n.v == 4 then e4 else if n.v == 5 then e5
      else if n.v == 6 then e6 else if n.v == 7 then e7
      else if n.v == 8 then e8 else if n.v == 9 then e9
      else if n.v == 10 then ea else if n.v == 11 then eb
      else if n.v == 12 then ec else if n.v == 13 then ed
      else if n.v == 14 then ee else ef
    }

    function Map(f: Word -> Word): WordRow {
      WordRow(f(e0), f(e1), f(e2), f(e3), f(e4), f(e5), f(e6), f(e7),
              f(e8), f(e9), f(ea), f(eb), f(ec), f(ed), f(ee), f(ef))
    }
  }

  function Lift(r: Row): WordRow {
    WordRow(Word(r.e0), Word(r.e1), Word(r.e2), Word(r.e3), Word(r.e4), Word(r.e5), Word(r.e6), Word(r.e7),
            Word(r.e8), Word(r.e9), Word(r.ea), Word(r.eb), Word(r.ec), Word(r.ed), Word(r.ee), Word(r.ef))
  }

  lemma LiftAt(r: Row, n: Word)
    ensures Lift(r).At(n) == r.At(n)
  {
  }

  ghost predicate RowCarries(r: WordRow, d: nat) {
    forall n: Word :: IsNibble(n) ==> r.At(n) == Carried(n, d)
  }

  lemma AtTopLinear(a: Word, b: Word)
    ensures AtTop(Xor(a, b)) == Xor(AtTop(a), AtTop(b))
  {
  }

  lemma CarriedLinear(a: Word, b: Word, d: nat)
    ensures Carried(Xor(a, b), d) == Xor(Carried(a, d), Carried(b, d))
  {
    AtTopLinear(a, b);
    BitsLinear(AtTop(a), AtTop(b), d);
  }

  lemma CarriedZero(d: nat)
    ensures Carried(Zero(), d) == Zero()
  {
    CarriedLinear(Zero(), Zero(), d);
    XorSelf(Zero());
    XorSelf(Carried(Zero(), d));
  }

  /** The single-bit nibbles follow each other down the register. */
  lemma CarriedSteps(d: nat)
    ensures Carried(Word(4), d) == BitStep(Carried(Word(8), d))
    ensures Carried(Word(2), d) == BitStep(Carried(Word(4), d))
    ensures Carried(Word(1), d) == BitStep(Carried(Word(2), d))
    ensures Carried(Word(8), d + 4) == BitStep(Carried(Word(1), d))
  {
    TopSteps();
    StepCommute(AtTop(Word(8)), d);
    StepCommute(AtTop(Word(4)), d);
    StepCommute(AtTop(Word(2)), d);
    StepCommute(AtTop(Word(8)), d + 1);
    StepCommute(AtTop(Word(4)), d + 1);
    StepCommute(AtTop(Word(8)), d + 2);
    StepCommute(AtTop(Word(8)), d + 3);
  }

  lemma TopSteps()
    ensures AtTop(Word(8)) == Unit()
    ensures AtTop(Word(4)) == BitStep(AtTop(Word(8)))
    ensures AtTop(Word(2)) == BitStep(AtTop(Word(4)))
    ensures AtTop(Word(1)) == BitStep(AtTop(Word(2)))
  {
  }

  // ---- One row ----

  /** Every entry is the XOR of the entries of its bits, and these descend by bit steps. */
  predicate Descends(r: WordRow) {
    r.e0 == Zero() && r.e4 == BitStep(r.e8) && r.e2 == BitStep(r.e4) && r.e1 == BitStep(r.e2)
    && Xor(r.e1, r.e2) == r.e3 && Xor(r.e1, r.e4) == r.e5 && Xor(r.e2, r.e4) == r.e6
    && Xor(r.e3, r.e4) == r.e7 && Xor(r.e1, r.e8) == r.e9 && Xor(r.e2, r.e8) == r.ea
    && Xor(r.e3, r.e8) == r.eb && Xor(r.e4, r.e8) == r.ec && Xor(r.e5, r.e8) == r.ed
    && Xor(r.e6, r.e8) == r.ee && Xor(r.e7, r.e8) == r.ef
  }

  lemma Nibbles(n: Word)
    requires IsNibble(n)
    ensures n == Word(0) || n == Word(1) || n == Word(2) || n == Word(3) || n == Word(4)
         || n == Word(5) || n == Word(6) || n == Word(7) || n == Word(8) || n == Word(9)
         || n == Word(10) || n == Word(11) || n == Word(12) || n == Word(13) || n == Word(14)
         || n == Word(15)
  {
  }

  lemma NibbleSums()
    ensures Xor(Word(1), Word(2)) == Word(3) && Xor(Word(1), Word(4)) == Word(5)
    ensures Xor(Word(2), Word(4)) == Word(6) && Xor(Word(3), Word(4)) == Word(7)
    ensures Xor(Word(1), Word(8)) == Word(9) && Xor(Word(2), Word(8)) == Word(10)
    ensures Xor(Word(3), Word(8)) == Word(11) && Xor(Word(4), Word(8)) == Word(12)
    ensures Xor(Word(5), Word(8)) == Word(13) && Xor(Word(6), Word(8)) == Word(14)
    ensures Xor(Word(7), Word(8)) == Word(15)
  {
  }

  /** An entry that is the XOR of two others is carried like the XOR of their nibbles. */
  lemma CarriedSum(a: Word, b: Word, c: Word, x: Word, y: Word, z: Word, d: nat)
    requires Xor(a, b) == c && Xor(x, y) == z && x == Carried(a, d) && y == Carried(b, d)
    ensures z == Carried(c, d)
  {
    CarriedLinear(a, b, d);
  }

  lemma RowFromEntries(r: WordRow, d: nat)
    requires r.e0 == Carried(Word(0), d) && r.e1 == Carried(Word(1), d)
    requires r.e2 == Carried(Word(2), d) && r.e3 == Carried(Word(3), d)
    requires r.e4 == Carried(Word(4), d) && r.e5 == Carried(Word(5), d)
    requires r.e6 == Carried(Word(6), d) && r.e7 == Carried(Word(7), d)
    requires r.e8 == Carried(Word(8), d) && r.e9 == Carried(Word(9), d)
    requires r.ea == Carried(Word(10), d) && r.eb == Carried(Word(11), d)
    requires r.ec == Carried(Word(12), d) && r.ed == Carried(Word(13), d)
    requires r.ee == Carried(Word(14), d) && r.ef == Carried(Word(15), d)
    ensures RowCarries(r, d)
  {
    forall n: Word | IsNibble(n)
      ensures r.At(n) == Carried(n, d)
    {
      Nibbles(n);
    }
  }

  lemma RowFromTop(r: WordRow, d: nat)
    requires Descends(r) && r.e8 == Carried(Word(8), d)
    ensures RowCarries(r, d)
  {
    CarriedZero(d);
    CarriedSteps(d);
    NibbleSums();
    CarriedSum(Word(1), Word(2), Word(3), r.e1, r.e2, r.e3, d);
    CarriedSum(Word(1), Word(4), Word(5), r.e1, r.e4, r.e5, d);
    CarriedSum(Word(2), Word(4), Word(6), r.e2, r.e4, r.e6, d);
    CarriedSum(Word(3), Word(4), Word(7), r.e3, r.e4, r.e7, d);
    CarriedSum(Word(1), Word(8), Word(9), r.e1, r.e8, r.e9, d);
    CarriedSum(Word(2), Word(8), Word(10), r.e2, r.e8, r.ea, d);
    CarriedSum(Word(3), Word(8), Word(11), r.e3, r.e8, r.eb, d);
    CarriedSum(Word(4), Word(8), Word(12), r.e4, r.e8, r.ec, d);
    CarriedSum(Word(5), Word(8), Word(13), r.e5, r.e8, r.ed, d);
    CarriedSum(Word(6), Word(8), Word(14), r.e6, r.e8, r.ee, d);
    CarriedSum(Word(7), Word(8), Word(15), r.e7, r.e8, r.ef, d);
    RowFromEntries(r, d);
  }

  /** `lo` takes over one bit below the lowest bit of `hi`. */
  predicate Follows(hi: WordRow, lo: WordRow) {
    Descends(lo) && lo.e8 == BitStep(hi.e1)
  }

  lemma RowFromAbove(hi: WordRow, lo: WordRow, d: nat)
    requires RowCarries(hi, d) && Follows(hi, lo)
    ensures RowCarries(lo, d + 4)
  {
    assert hi.At(Word(1)) == Carried(Word(1), d);
    CarriedSteps(d);
    RowFromTop(lo, d + 4);
  }

  // ---- A table of 256 entries ----

  function FromRows(t: Table256, f: Row -> Word): WordRow {
    WordRow(f(t.r0), f(t.r1), f(t.r2), f(t.r3), f(t.r4), f(t.r5), f(t.r6), f(t.r7),
            f(t.r8), f(t.r9), f(t.ra), f(t.rb), f(t.rc), f(t.rd), f(t.re), f(t.rf))
  }

  function Column(t: Table256): WordRow {
    FromRows(t, (r: Row) => Word(r.e0))
  }

  /** Row `r` is the base row with its own first entry added throughout. */
  predicate Spread(r: Row, base: Row) {
    Lift(r) == Lift(base).Map(w => Xor(Word(r.e0), w))
  }

  predicate Spreads(t: Table256) {
    Spread(t.r0, t.r0) && Spread(t.r1, t.r0) && Spread(t.r2, t.r0) && Spread(t.r3, t.r0)
    && Spread(t.r4, t.r0) && Spread(t.r5, t.r0) && Spread(t.r6, t.r0) && Spread(t.r7, t.r0)
    && Spread(t.r8, t.r0) && Spread(t.r9, t.r0) && Spread(t.ra, t.r0) && Spread(t.rb, t.r0)
    && Spread(t.rc, t.r0) && Spread(t.rd, t.r0) && Spread(t.re, t.r0) && Spread(t.rf, t.r0)
  }

  lemma MapAt(r: WordRow, f: Word -> Word, n: Word)
    ensures r.Map(f).At(n) == f(r.At(n))
  {
  }

  lemma RowAtHas(t: Table256, h: Word, p: Row -> bool)
    requires p(t.r0) && p(t.r1) && p(t.r2) && p(t.r3) && p(t.r4) && p(t.r5) && p(t.r6) && p(t.r7)
    requires p(t.r8) && p(t.r9) && p(t.ra) && p(t.rb) && p(t.rc) && p(t.rd) && p(t.re) && p(t.rf)
    ensures p(t.RowAt(h))
  {
  }

  lemma FromRowsAt(t: Table256, h: Word, f: Row -> Word)
    ensures f(t.RowAt(h)) == FromRows(t, f).At(h)
  {
  }

  /** A lookup is the sum of one lookup in the first column and one in the first row. */
  lemma TableAt(t: Table256, c: Word)
    requires Spreads(t)
    ensures t.At(c) == Xor(Column(t).At(Shr4(c)), Lift(t.r0).At(Low4(c)))
  {
    hide Lift, FromRows, Xor, Low4, Shr4;
    var r := t.RowAt(Shr4(c));
    RowAtHas(t, Shr4(c), (r: Row) => Spread(r, t.r0));
    FromRowsAt(t, Shr4(c), (r: Row) => Word(r.e0));
    MapAt(Lift(t.r0), w => Xor(Word(r.e0), w), Low4(c));
    LiftAt(r, Low4(c));
  }

  // ---- A word as nibbles and bytes ----

  function Shl4(w: Word): Word { Word(w.v << 4) }

  function High4(w: Word): Word { Word(w.v >> 28) }

  function Rest(w: Word): Word { Word(w.v & 0x0fff_ffff) }

  lemma TopAndRest(w: Word)
    ensures w == Xor(AtTop(High4(w)), Rest(w))
  {
  }

  lemma RestTop(w: Word)
    ensures !Top(Rest(w)) && !Top(Double(Rest(w)))
    ensures !Top(Double(Double(Rest(w)))) && !Top(Double(Double(Double(Rest(w)))))
  {
  }

  lemma RestDoubled(w: Word)
    ensures Double(Double(Double(Double(Rest(w))))) == Shl4(w)
  {
  }

  /** Four bit steps undo a shift, save for the nibble pushed off the top. */
  lemma Shl4Down(w: Word)
    ensures Bits(Shl4(w), 4) == Rest(w)
  {
    var y := Rest(w);
    RestTop(w);
    RestDoubled(w);
    FourSteps(y, Double(y), Double(Double(y)), Double(Double(Double(y))), Shl4(w));
  }

  lemma FourSteps(y0: Word, y1: Word, y2: Word, y3: Word, y4: Word)
    requires y1 == Double(y0) && y2 == Double(y1) && y3 == Double(y2) && y4 == Double(y3)
    requires !Top(y0) && !Top(y1) && !Top(y2) && !Top(y3)
    ensures Bits(y4, 4) == y0
  {
    DoubleStep(y0);
    DoubleStep(y1);
    DoubleStep(y2);
    DoubleStep(y3);
    StepCommute(y4, 0);
    StepCommute(y4, 1);
    StepCommute(y4, 2);
    StepCommute(y4, 3);
  }

  /** The top nibble and the rest of a word are carried apart. */
  lemma Peel(w: Word, d: nat)
    ensures Bits(w, d) == Xor(Bits(Shl4(w), d + 4), Carried(High4(w), d))
  {
    TopAndRest(w);
    Shl4Down(w);
    BitsAdd(Shl4(w), 4, d);
    BitsLinear(AtTop(High4(w)), Rest(w), d);
    XorComm(Carried(High4(w), d), Bits(Rest(w), d));
  }
}
