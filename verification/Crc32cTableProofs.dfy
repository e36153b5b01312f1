/** Each literal table carries exactly what its engine uses it for, entry by entry. */
module Crc32cTableProofs {
  import opened Crc32c
  import opened Crc32cTables
  import opened Crc32cPowers
  import opened Crc32cRows

  // ---- A whole word, nibble by nibble from the top ----

  function Shifted(w: Word, k: nat): Word
    decreases k
  {
    if k == 0 then w else Shifted(Shl4(w), k - 1)
  }

  /** What the rows give for the top nibbles of `w`, the last row taking the highest. */
  function RowSum(rows: seq<WordRow>, w: Word): Word {
    if rows == [] then Zero()
    else Xor(RowSum(rows[..|rows| - 1], Shl4(w)), rows[|rows| - 1].At(High4(w)))
  }

  lemma HighIsNibble(w: Word)
    ensures IsNibble(High4(w))
  {
  }

  lemma {:induction false} RowSumCarries(rows: seq<WordRow>, w: Word, d: nat)
    requires Shifted(w, |rows|) == Zero()
    requires forall i :: 0 <= i < |rows| ==> RowCarries(rows[i], d + 4 * (|rows| - 1 - i))
    ensures RowSum(rows, w) == Bits(w, d)
  {
    if rows == [] {
      BitsZero(d);
    } else {
      var lower := rows[..|rows| - 1];
      RowSumCarries(lower, Shl4(w), d + 4);
      Peel(w, d);
      HighIsNibble(w);
      assert RowCarries(rows[|rows| - 1], d);
    }
  }

  lemma EightShifts(w: Word)
    ensures Shl4(Shl4(Shl4(Shl4(Shl4(Shl4(Shl4(Shl4(w)))))))) == Zero()
  {
  }

  lemma ShiftedOut(w: Word)
    ensures Shifted(w, 8) == Zero()
  {
    EightShifts(w);
    assert Shifted(w, 8) == Shifted(Shl4(Shl4(w)), 6);
    assert Shifted(w, 8) == Shifted(Shl4(Shl4(Shl4(Shl4(w)))), 4);
    assert Shifted(w, 8) == Shifted(Shl4(Shl4(Shl4(Shl4(Shl4(Shl4(w)))))), 2);
  }

  /** Nibble `k` of a register, as the engine extracts it. */
  function Nibble(w: Word, k: nat): Word
    requires k < 8
  {
    if k == 0 then Low4(w)
    else if k == 1 then Word((w.v >> 4) & 0xf)
    else if k == 2 then Word((w.v >> 8) & 0xf)
    else if k == 3 then Word((w.v >> 12) & 0xf)
    else if k == 4 then Word((w.v >> 16) & 0xf)
    else if k == 5 then Word((w.v >> 20) & 0xf)
    else if k == 6 then Word((w.v >> 24) & 0xf)
    else Word((w.v >> 28) & 0xf)
  }

  lemma HighNibbles(w: Word)
    ensures High4(w) == Nibble(w, 7)
    ensures High4(Shl4(w)) == Nibble(w, 6)
    ensures High4(Shl4(Shl4(w))) == Nibble(w, 5)
    ensures High4(Shl4(Shl4(Shl4(w)))) == Nibble(w, 4)
    ensures High4(Shl4(Shl4(Shl4(Shl4(w))))) == Nibble(w, 3)
    ensures High4(Shl4(Shl4(Shl4(Shl4(Shl4(w)))))) == Nibble(w, 2)
    ensures High4(Shl4(Shl4(Shl4(Shl4(Shl4(Shl4(w))))))) == Nibble(w, 1)
    ensures High4(Shl4(Shl4(Shl4(Shl4(Shl4(Shl4(Shl4(w)))))))) == Nibble(w, 0)
  {
  }

  datatype WordTable = WordTable(
    r0: WordRow, r1: WordRow, r2: WordRow, r3: WordRow, r4: WordRow, r5: WordRow, r6: WordRow, r7: WordRow)

  function LiftAll(t: SkipTable): WordTable {
    WordTable(Lift(t.r0), Lift(t.r1), Lift(t.r2), Lift(t.r3), Lift(t.r4), Lift(t.r5), Lift(t.r6), Lift(t.r7))
  }

  function Rows(t: WordTable): seq<WordRow> {
    [t.r0, t.r1, t.r2, t.r3, t.r4, t.r5, t.r6, t.r7]
  }

  lemma RowSumStep(rows: seq<WordRow>, n: nat, w: Word)
    requires n < |rows|
    ensures RowSum(rows[..n + 1], w) == Xor(RowSum(rows[..n], Shl4(w)), rows[n].At(High4(w)))
  {
    assert rows[..n + 1][..n] == rows[..n];
  }

  /** The eight lookups of SKIP_BLOCK add up to the row sum. */
  lemma EightRows(t: WordTable, w: Word)
    ensures RowSum(Rows(t), w) ==
            Xor(Xor(Xor(Xor(Xor(Xor(Xor(t.r0.At(Nibble(w, 0)), t.r1.At(Nibble(w, 1))),
                                    t.r2.At(Nibble(w, 2))), t.r3.At(Nibble(w, 3))),
                            t.r4.At(Nibble(w, 4))), t.r5.At(Nibble(w, 5))),
                    t.r6.At(Nibble(w, 6))), t.r7.At(Nibble(w, 7)))
  {
    var rows := Rows(t);
    var w1 := Shl4(w);
    var w2 := Shl4(w1);
    var w3 := Shl4(w2);
    var w4 := Shl4(w3);
    var w5 := Shl4(w4);
    var w6 := Shl4(w5);
    var w7 := Shl4(w6);
    HighNibbles(w);
    assert rows[..8] == rows;
    RowSumStep(rows, 7, w);
    RowSumStep(rows, 6, w1);
    RowSumStep(rows, 5, w2);
    RowSumStep(rows, 4, w3);
    RowSumStep(rows, 3, w4);
    RowSumStep(rows, 2, w5);
    RowSumStep(rows, 1, w6);
    RowSumStep(rows, 0, w7);
    XorZero(rows[0].At(High4(w7)));
  }

  // ---- The skip tables ----

  predicate Chained(t: WordTable) {
    Descends(t.r7) && Follows(t.r7, t.r6) && Follows(t.r6, t.r5) && Follows(t.r5, t.r4)
    && Follows(t.r4, t.r3) && Follows(t.r3, t.r2) && Follows(t.r2, t.r1) && Follows(t.r1, t.r0)
  }

  /** A chained table whose top entry is the right power skips that many bits. */
  lemma ChainedSkips(t: WordTable, w: Word, d: nat)
    requires Chained(t) && t.r7.e8 == Bits(Unit(), d)
    ensures RowSum(Rows(t), w) == Bits(w, d)
  {
    hide Descends, RowCarries, BitStep, Bits;
    TopSteps();
    RowFromTop(t.r7, d);
    RowFromAbove(t.r7, t.r6, d);
    RowFromAbove(t.r6, t.r5, d + 4);
    RowFromAbove(t.r5, t.r4, d + 8);
    RowFromAbove(t.r4, t.r3, d + 12);
    RowFromAbove(t.r3, t.r2, d + 16);
    RowFromAbove(t.r2, t.r1, d + 20);
    RowFromAbove(t.r1, t.r0, d + 24);
    ShiftedOut(w);
    RowSumCarries(Rows(t), w, d);
  }

  lemma Skip0Chained()
    ensures Chained(LiftAll(Skip0Table())) && LiftAll(Skip0Table()).r7.e8 == Word(0xaca00c83)
  {
  }

  lemma Skip1Chained()
    ensures Chained(LiftAll(Skip1Table())) && LiftAll(Skip1Table()).r7.e8 == Word(0xd6a79573)
  {
  }

  lemma Skip2Chained()
    ensures Chained(LiftAll(Skip2Table())) && LiftAll(Skip2Table()).r7.e8 == Word(0x7df9f615)
  {
  }

  // ---- The stride tables ----

  function Stride0Column(): WordRow {
    Lift(Row(0x00000000, 0x03171d43, 0x062e3a86, 0x053927c5, 0x0c5c750c, 0x0f4b684f, 0x0a724f8a, 0x096552c9,
             0x18b8ea18, 0x1baff75b, 0x1e96d09e, 0x1d81cddd, 0x14e49f14, 0x17f38257, 0x12caa592, 0x11ddb8d1))
  }

  lemma Stride0Rows0()
    ensures Spread(Stride0Row0(), Stride0Row0()) && Word(Stride0Row0().e0) == Stride0Column().e0
    ensures Spread(Stride0Row1(), Stride0Row0()) && Word(Stride0Row1().e0) == Stride0Column().e1
    ensures Spread(Stride0Row2(), Stride0Row0()) && Word(Stride0Row2().e0) == Stride0Column().e2
    ensures Spread(Stride0Row3(), Stride0Row0()) && Word(Stride0Row3().e0) == Stride0Column().e3
  {
  }

  lemma Stride0Rows1()
    ensures Spread(Stride0Row4(), Stride0Row0()) && Word(Stride0Row4().e0) == Stride0Column().e4
    ensures Spread(Stride0Row5(), Stride0Row0()) && Word(Stride0Row5().e0) == Stride0Column().e5
    ensures Spread(Stride0Row6(), Stride0Row0()) && Word(Stride0Row6().e0) == Stride0Column().e6
    ensures Spread(Stride0Row7(), Stride0Row0()) && Word(Stride0Row7().e0) == Stride0Column().e7
  {
  }

  lemma Stride0Rows2()
    ensures Spread(Stride0Row8(), Stride0Row0()) && Word(Stride0Row8().e0) == Stride0Column().e8
    ensures Spread(Stride0Row9(), Stride0Row0()) && Word(Stride0Row9().e0) == Stride0Column().e9
    ensures Spread(Stride0Rowa(), Stride0Row0()) && Word(Stride0Rowa().e0) == Stride0Column().ea
    ensures Spread(Stride0Rowb(), Stride0Row0()) && Word(Stride0Rowb().e0) == Stride0Column().eb
  {
  }

  lemma Stride0Rows3()
    ensures Spread(Stride0Rowc(), Stride0Row0()) && Word(Stride0Rowc().e0) == Stride0Column().ec
    ensures Spread(Stride0Rowd(), Stride0Row0()) && Word(Stride0Rowd().e0) == Stride0Column().ed
    ensures Spread(Stride0Rowe(), Stride0Row0()) && Word(Stride0Rowe().e0) == Stride0Column().ee
    ensures Spread(Stride0Rowf(), Stride0Row0()) && Word(Stride0Rowf().e0) == Stride0Column().ef
  {
  }

  lemma Stride0Spreads()
    ensures Spreads(Stride0Table()) && Column(Stride0Table()) == Stride0Column() && Stride0Table().r0 == Stride0Row0()
  {
    hide Spread, Stride0Row0, Stride0Row1, Stride0Row2, Stride0Row3, Stride0Row4, Stride0Row5, Stride0Row6, Stride0Row7,
         Stride0Row8, Stride0Row9, Stride0Rowa, Stride0Rowb, Stride0Rowc, Stride0Rowd, Stride0Rowe, Stride0Rowf;
    Stride0Rows0();
    Stride0Rows1();
    Stride0Rows2();
    Stride0Rows3();
  }

  function Stride1Column(): WordRow {
    Lift(Row(0x00000000, 0x5228f955, 0xa451f2aa, 0xf6790bff, 0x4d4f93a5, 0x1f676af0, 0xe91e610f, 0xbb36985a,
             0x9a9f274a, 0xc8b7de1f, 0x3eced5e0, 0x6ce62cb5, 0xd7d0b4ef, 0x85f84dba, 0x73814645, 0x21a9bf10))
  }

  lemma Stride1Rows0()
    ensures Spread(Stride1Row0(), Stride1Row0()) && Word(Stride1Row0().e0) == Stride1Column().e0
    ensures Spread(Stride1Row1(), Stride1Row0()) && Word(Stride1Row1().e0) == Stride1Column().e1
    ensures Spread(Stride1Row2(), Stride1Row0()) && Word(Stride1Row2().e0) == Stride1Column().e2
    ensures Spread(Stride1Row3(), Stride1Row0()) && Word(Stride1Row3().e0) == Stride1Column().e3
  {
  }

  lemma Stride1Rows1()
    ensures Spread(Stride1Row4(), Stride1Row0()) && Word(Stride1Row4().e0) == Stride1Column().e4
    ensures Spread(Stride1Row5(), Stride1Row0()) && Word(Stride1Row5().e0) == Stride1Column().e5
    ensures Spread(Stride1Row6(), Stride1Row0()) && Word(Stride1Row6().e0) == Stride1Column().e6
    ensures Spread(Stride1Row7(), Stride1Row0()) && Word(Stride1Row7().e0) == Stride1Column().e7
  {
  }

  lemma Stride1Rows2()
    ensures Spread(Stride1Row8(), Stride1Row0()) && Word(Stride1Row8().e0) == Stride1Column().e8
    ensures Spread(Stride1Row9(), Stride1Row0()) && Word(Stride1Row9().e0) == Stride1Column().e9
    ensures Spread(Stride1Rowa(), Stride1Row0()) && Word(Stride1Rowa().e0) == Stride1Column().ea
    ensures Spread(Stride1Rowb(), Stride1Row0()) && Word(Stride1Rowb().e0) == Stride1Column().eb
  {
  }

  lemma Stride1Rows3()
    ensures Spread(Stride1Rowc(), Stride1Row0()) && Word(Stride1Rowc().e0) == Stride1Column().ec
    ensures Spread(Stride1Rowd(), Stride1Row0()) && Word(Stride1Rowd().e0) == Stride1Column().ed
    ensures Spread(Stride1Rowe(), Stride1Row0()) && Word(Stride1Rowe().e0) == Stride1Column().ee
    ensures Spread(Stride1Rowf(), Stride1Row0()) && Word(Stride1Rowf().e0) == Stride1Column().ef
  {
  }

  lemma Stride1Spreads()
    ensures Spreads(Stride1Table()) && Column(Stride1Table()) == Stride1Column() && Stride1Table().r0 == Stride1Row0()
  {
    hide Spread, Stride1Row0, Stride1Row1, Stride1Row2, Stride1Row3, Stride1Row4, Stride1Row5, Stride1Row6, Stride1Row7,
         Stride1Row8, Stride1Row9, Stride1Rowa, Stride1Rowb, Stride1Rowc, Stride1Rowd, Stride1Rowe, Stride1Rowf;
    Stride1Rows0();
    Stride1Rows1();
    Stride1Rows2();
    Stride1Rows3();
  }

  function Stride2Column(): WordRow {
    Lift(Row(0x00000000, 0x6486e636, 0xc90dcc6c, 0xad8b2a5a, 0x97f7ee29, 0xf371081f, 0x5efa2245, 0x3a7cc473,
             0x2a03aaa3, 0x4e854c95, 0xe30e66cf, 0x878880f9, 0xbdf4448a, 0xd972a2bc, 0x74f988e6, 0x107f6ed0))
  }

  lemma Stride2Rows0()
    ensures Spread(Stride2Row0(), Stride2Row0()) && Word(Stride2Row0().e0) == Stride2Column().e0
    ensures Spread(Stride2Row1(), Stride2Row0()) && Word(Stride2Row1().e0) == Stride2Column().e1
    ensures Spread(Stride2Row2(), Stride2Row0()) && Word(Stride2Row2().e0) == Stride2Column().e2
    ensures Spread(Stride2Row3(), Stride2Row0()) && Word(Stride2Row3().e0) == Stride2Column().e3
  {
  }

  lemma Stride2Rows1()
    ensures Spread(Stride2Row4(), Stride2Row0()) && Word(Stride2Row4().e0) == Stride2Column().e4
    ensures Spread(Stride2Row5(), Stride2Row0()) && Word(Stride2Row5().e0) == Stride2Column().e5
    ensures Spread(Stride2Row6(), Stride2Row0()) && Word(Stride2Row6().e0) == Stride2Column().e6
    ensures Spread(Stride2Row7(), Stride2Row0()) && Word(Stride2Row7().e0) == Stride2Column().e7
  {
  }

  lemma Stride2Rows2()
    ensures Spread(Stride2Row8(), Stride2Row0()) && Word(Stride2Row8().e0) == Stride2Column().e8
    ensures Spread(Stride2Row9(), Stride2Row0()) && Word(Stride2Row9().e0) == Stride2Column().e9
    ensures Spread(Stride2Rowa(), Stride2Row0()) && Word(Stride2Rowa().e0) == Stride2Column().ea
    ensures Spread(Stride2Rowb(), Stride2Row0()) && Word(Stride2Rowb().e0) == Stride2Column().eb
  {
  }

  lemma Stride2Rows3()
    ensures Spread(Stride2Rowc(), Stride2Row0()) && Word(Stride2Rowc().e0) == Stride2Column().ec
    ensures Spread(Stride2Rowd(), Stride2Row0()) && Word(Stride2Rowd().e0) == Stride2Column().ed
    ensures Spread(Stride2Rowe(), Stride2Row0()) && Word(Stride2Rowe().e0) == Stride2Column().ee
    ensures Spread(Stride2Rowf(), Stride2Row0()) && Word(Stride2Rowf().e0) == Stride2Column().ef
  {
  }

  lemma Stride2Spreads()
    ensures Spreads(Stride2Table()) && Column(Stride2Table()) == Stride2Column() && Stride2Table().r0 == Stride2Row0()
  {
    hide Spread, Stride2Row0, Stride2Row1, Stride2Row2, Stride2Row3, Stride2Row4, Stride2Row5, Stride2Row6, Stride2Row7,
         Stride2Row8, Stride2Row9, Stride2Rowa, Stride2Rowb, Stride2Rowc, Stride2Rowd, Stride2Rowe, Stride2Rowf;
    Stride2Rows0();
    Stride2Rows1();
    Stride2Rows2();
    Stride2Rows3();
  }

  function Stride3Column(): WordRow {
    Lift(Row(0x00000000, 0x162628bf, 0x2c4c517e, 0x3a6a79c1, 0x5898a2fc, 0x4ebe8a43, 0x74d4f382, 0x62f2db3d,
             0xb13145f8, 0xa7176d47, 0x9d7d1486, 0x8b5b3c39, 0xe9a9e704, 0xff8fcfbb, 0xc5e5b67a, 0xd3c39ec5))
  }

  lemma Stride3Rows0()
    ensures Spread(Stride3Row0(), Stride3Row0()) && Word(Stride3Row0().e0) == Stride3Column().e0
    ensures Spread(Stride3Row1(), Stride3Row0()) && Word(Stride3Row1().e0) == Stride3Column().e1
    ensures Spread(Stride3Row2(), Stride3Row0()) && Word(Stride3Row2().e0) == Stride3Column().e2
    ensures Spread(Stride3Row3(), Stride3Row0()) && Word(Stride3Row3().e0) == Stride3Column().e3
  {
  }

  lemma Stride3Rows1()
    ensures Spread(Stride3Row4(), Stride3Row0()) && Word(Stride3Row4().e0) == Stride3Column().e4
    ensures Spread(Stride3Row5(), Stride3Row0()) && Word(Stride3Row5().e0) == Stride3Column().e5
    ensures Spread(Stride3Row6(), Stride3Row0()) && Word(Stride3Row6().e0) == Stride3Column().e6
    ensures Spread(Stride3Row7(), Stride3Row0()) && Word(Stride3Row7().e0) == Stride3Column().e7
  {
  }

  lemma Stride3Rows2()
    ensures Spread(Stride3Row8(), Stride3Row0()) && Word(Stride3Row8().e0) == Stride3Column().e8
    ensures Spread(Stride3Row9(), Stride3Row0()) && Word(Stride3Row9().e0) == Stride3Column().e9
    ensures Spread(Stride3Rowa(), Stride3Row0()) && Word(Stride3Rowa().e0) == Stride3Column().ea
    ensures Spread(Stride3Rowb(), Stride3Row0()) && Word(Stride3Rowb().e0) == Stride3Column().eb
  {
  }

  lemma Stride3Rows3()
    ensures Spread(Stride3Rowc(), Stride3Row0()) && Word(Stride3Rowc().e0) == Stride3Column().ec
    ensures Spread(Stride3Rowd(), Stride3Row0()) && Word(Stride3Rowd().e0) == Stride3Column().ed
    ensures Spread(Stride3Rowe(), Stride3Row0()) && Word(Stride3Rowe().e0) == Stride3Column().ee
    ensures Spread(Stride3Rowf(), Stride3Row0()) && Word(Stride3Rowf().e0) == Stride3Column().ef
  {
  }

  lemma Stride3Spreads()
    ensures Spreads(Stride3Table()) && Column(Stride3Table()) == Stride3Column() && Stride3Table().r0 == Stride3Row0()
  {
    hide Spread, Stride3Row0, Stride3Row1, Stride3Row2, Stride3Row3, Stride3Row4, Stride3Row5, Stride3Row6, Stride3Row7,
         Stride3Row8, Stride3Row9, Stride3Rowa, Stride3Rowb, Stride3Rowc, Stride3Rowd, Stride3Rowe, Stride3Rowf;
    Stride3Rows0();
    Stride3Rows1();
    Stride3Rows2();
    Stride3Rows3();
  }

  /** The four stride tables as eight rows, each column above its first row. */
  function StrideRows(): WordTable {
    WordTable(Lift(Stride3Row0()), Stride3Column(), Lift(Stride2Row0()), Stride2Column(),
              Lift(Stride1Row0()), Stride1Column(), Lift(Stride0Row0()), Stride0Column())
  }

  lemma StrideChained()
    ensures Chained(StrideRows()) && StrideRows().r7.e8 == Word(0x18b8ea18)
  {
  }

  // ---- The byte table ----

  function ByteColumn(): WordRow {
    Lift(Row(0x00000000, 0x105ec76f, 0x20bd8ede, 0x30e349b1, 0x417b1dbc, 0x5125dad3, 0x61c69362, 0x7198540d,
             0x82f63b78, 0x92a8fc17, 0xa24bb5a6, 0xb21572c9, 0xc38d26c4, 0xd3d3e1ab, 0xe330a81a, 0xf36e6f75))
  }

  lemma ByteRows0()
    ensures Spread(ByteRow0(), ByteRow0()) && Word(ByteRow0().e0) == ByteColumn().e0
    ensures Spread(ByteRow1(), ByteRow0()) && Word(ByteRow1().e0) == ByteColumn().e1
    ensures Spread(ByteRow2(), ByteRow0()) && Word(ByteRow2().e0) == ByteColumn().e2
    ensures Spread(ByteRow3(), ByteRow0()) && Word(ByteRow3().e0) == ByteColumn().e3
  {
  }

  lemma ByteRows1()
    ensures Spread(ByteRow4(), ByteRow0()) && Word(ByteRow4().e0) == ByteColumn().e4
    ensures Spread(ByteRow5(), ByteRow0()) && Word(ByteRow5().e0) == ByteColumn().e5
    ensures Spread(ByteRow6(), ByteRow0()) && Word(ByteRow6().e0) == ByteColumn().e6
    ensures Spread(ByteRow7(), ByteRow0()) && Word(ByteRow7().e0) == ByteColumn().e7
  {
  }

  lemma ByteRows2()
    ensures Spread(ByteRow8(), ByteRow0()) && Word(ByteRow8().e0) == ByteColumn().e8
    ensures Spread(ByteRow9(), ByteRow0()) && Word(ByteRow9().e0) == ByteColumn().e9
    ensures Spread(ByteRowa(), ByteRow0()) && Word(ByteRowa().e0) == ByteColumn().ea
    ensures Spread(ByteRowb(), ByteRow0()) && Word(ByteRowb().e0) == ByteColumn().eb
  {
  }

  lemma ByteRows3()
    ensures Spread(ByteRowc(), ByteRow0()) && Word(ByteRowc().e0) == ByteColumn().ec
    ensures Spread(ByteRowd(), ByteRow0()) && Word(ByteRowd().e0) == ByteColumn().ed
    ensures Spread(ByteRowe(), ByteRow0()) && Word(ByteRowe().e0) == ByteColumn().ee
    ensures Spread(ByteRowf(), ByteRow0()) && Word(ByteRowf().e0) == ByteColumn().ef
  {
  }

  lemma ByteSpreads()
    ensures Spreads(ByteTable()) && Column(ByteTable()) == ByteColumn() && ByteTable().r0 == ByteRow0()
  {
    hide Spread, ByteRow0, ByteRow1, ByteRow2, ByteRow3, ByteRow4, ByteRow5, ByteRow6, ByteRow7,
         ByteRow8, ByteRow9, ByteRowa, ByteRowb, ByteRowc, ByteRowd, ByteRowe, ByteRowf;
    ByteRows0();
    ByteRows1();
    ByteRows2();
    ByteRows3();
  }

  lemma ByteChained()
    ensures Descends(ByteColumn()) && ByteColumn().e8 == Poly() && Follows(ByteColumn(), Lift(ByteRow0()))
  {
  }

  // ---- What the engines look up ----

  /** SKIP_BLOCK with each of its tables: the register carried past one whole block. */
  lemma SkipTablesSkip(w: Word)
    ensures RowSum(Rows(LiftAll(Skip0Table())), w) == Bits(w, 8 * 5440)
    ensures RowSum(Rows(LiftAll(Skip1Table())), w) == Bits(w, 8 * 1360)
    ensures RowSum(Rows(LiftAll(Skip2Table())), w) == Bits(w, 8 * 336)
  {
    hide Skip0Table, Skip1Table, Skip2Table, LiftAll, Chained, Rows, RowSum, Bits;
    Skip0Chained();
    Skip1Chained();
    Skip2Chained();
    Power43520();
    Power10880();
    Power2688();
    ChainedSkips(LiftAll(Skip0Table()), w, 43520);
    ChainedSkips(LiftAll(Skip1Table()), w, 10880);
    ChainedSkips(LiftAll(Skip2Table()), w, 2688);
  }

  lemma ByteOfWord(w: Word)
    ensures Low4(Low8(w)) == Nibble(w, 0) && Shr4(Low8(w)) == Nibble(w, 1)
    ensures Low4(Low8(Shr8(w))) == Nibble(w, 2) && Shr4(Low8(Shr8(w))) == Nibble(w, 3)
    ensures Low4(Low8(Shr8(Shr8(w)))) == Nibble(w, 4) && Shr4(Low8(Shr8(Shr8(w)))) == Nibble(w, 5)
    ensures Low4(Shr8(Shr8(Shr8(w)))) == Nibble(w, 6) && Shr4(Shr8(Shr8(Shr8(w)))) == Nibble(w, 7)
  {
  }

  /** Pairs regrouped: low and high nibble of a byte are looked up together. */
  lemma Regroup(a0: Word, a1: Word, a2: Word, a3: Word, a4: Word, a5: Word, a6: Word, a7: Word)
    ensures Xor(Xor(Xor(Xor(a1, a0), Xor(a3, a2)), Xor(a5, a4)), Xor(a7, a6)) ==
            Xor(Xor(Xor(Xor(Xor(Xor(Xor(a0, a1), a2), a3), a4), a5), a6), a7)
  {
    hide Xor;
    var x1 := Xor(a0, a1);
    var x3 := Xor(Xor(x1, a2), a3);
    var x5 := Xor(Xor(x3, a4), a5);
    XorComm(a0, a1);
    XorComm(a2, a3);
    XorComm(a4, a5);
    XorComm(a6, a7);
    XorAssoc(x1, a2, a3);
    XorAssoc(x3, a4, a5);
    XorAssoc(x5, a6, a7);
  }

  /** The four lookups of STEP4: the lane carried past 16 bytes. */
  lemma StrideTablesSkip(w: Word)
    ensures Xor(Xor(Xor(Stride3Table().At(Low8(w)), Stride2Table().At(Low8(Shr8(w)))),
                    Stride1Table().At(Low8(Shr8(Shr8(w))))),
                Stride0Table().At(Shr8(Shr8(Shr8(w))))) == Bits(w, 128)
  {
    hide Xor, Low8, Low4, Shr8, Shr4, Nibble, Bits, Chained, RowSum, Rows, Lift, Column, Spreads,
         Stride0Table, Stride1Table, Stride2Table, Stride3Table,
         Stride0Column, Stride1Column, Stride2Column, Stride3Column;
    var t := StrideRows();
    ByteOfWord(w);
    Stride0Spreads();
    Stride1Spreads();
    Stride2Spreads();
    Stride3Spreads();
    TableAt(Stride3Table(), Low8(w));
    TableAt(Stride2Table(), Low8(Shr8(w)));
    TableAt(Stride1Table(), Low8(Shr8(Shr8(w))));
    TableAt(Stride0Table(), Shr8(Shr8(Shr8(w))));
    Regroup(t.r0.At(Nibble(w, 0)), t.r1.At(Nibble(w, 1)), t.r2.At(Nibble(w, 2)), t.r3.At(Nibble(w, 3)),
            t.r4.At(Nibble(w, 4)), t.r5.At(Nibble(w, 5)), t.r6.At(Nibble(w, 6)), t.r7.At(Nibble(w, 7)));
    EightRows(t, w);
    StrideChained();
    Power128();
    ChainedSkips(t, w, 128);
  }

  /** A byte at the top of a register. */
  function ByteAtTop(c: Word): Word { Word(c.v << 24) }

  lemma ByteAtTopNibbles(c: Word)
    requires c.v < 256
    ensures High4(ByteAtTop(c)) == Shr4(c) && High4(Shl4(ByteAtTop(c))) == Low4(c)
    ensures Shl4(Shl4(ByteAtTop(c))) == Zero()
  {
  }

  function ByteUp(c: Word, k: nat): Word
    requires k <= 6
  {
    if k == 0 then c else Shl4(ByteUp(c, k - 1))
  }

  lemma ByteUpShifts(c: Word)
    requires c.v < 256
    ensures ByteUp(c, 6) == ByteAtTop(c)
    ensures forall k :: 0 <= k < 6 ==> Rest(ByteUp(c, k)) == ByteUp(c, k)
  {
    UpUnrolled(c);
    UpFits(c);
  }

  lemma UpUnrolled(c: Word)
    ensures ByteUp(c, 1) == Shl4(c) && ByteUp(c, 2) == Shl4(Shl4(c))
    ensures ByteUp(c, 3) == Shl4(Shl4(Shl4(c))) && ByteUp(c, 4) == Shl4(Shl4(Shl4(Shl4(c))))
    ensures ByteUp(c, 5) == Shl4(Shl4(Shl4(Shl4(Shl4(c)))))
    ensures ByteUp(c, 6) == Shl4(Shl4(Shl4(Shl4(Shl4(Shl4(c))))))
  {
    hide Shl4;
    assert ByteUp(c, 2) == Shl4(ByteUp(c, 1));
    assert ByteUp(c, 4) == Shl4(ByteUp(c, 3));
  }

  lemma UpFits(c: Word)
    requires c.v < 256
    ensures Rest(c) == c && Rest(Shl4(c)) == Shl4(c) && Rest(Shl4(Shl4(c))) == Shl4(Shl4(c))
    ensures Rest(Shl4(Shl4(Shl4(c)))) == Shl4(Shl4(Shl4(c)))
    ensures Rest(Shl4(Shl4(Shl4(Shl4(c))))) == Shl4(Shl4(Shl4(Shl4(c))))
    ensures Rest(Shl4(Shl4(Shl4(Shl4(Shl4(c)))))) == Shl4(Shl4(Shl4(Shl4(Shl4(c)))))
    ensures Shl4(Shl4(Shl4(Shl4(Shl4(Shl4(c)))))) == ByteAtTop(c)
  {
  }

  lemma {:induction false} ByteDown(c: Word, k: nat)
    requires c.v < 256 && k <= 6
    ensures Bits(ByteUp(c, k), 4 * k) == c
  {
    if k > 0 {
      ByteUpShifts(c);
      ByteDown(c, k - 1);
      Shl4Down(ByteUp(c, k - 1));
      BitsAdd(ByteUp(c, k), 4, 4 * (k - 1));
    }
  }

  lemma ByteSum(c: Word)
    requires c.v < 256
    ensures Xor(Carried(Shr4(c), 32), Carried(Low4(c), 36)) == Bits(c, 8)
  {
    hide Xor, Low4, Shr4, Shl4, High4, ByteAtTop, Bits, Carried;
    var w := ByteAtTop(c);
    ByteAtTopNibbles(c);
    ByteUpShifts(c);
    ByteDown(c, 6);
    BitsAdd(w, 24, 8);
    Peel(w, 32);
    Peel(Shl4(w), 36);
    BitsZero(40);
    XorZero(Carried(Low4(c), 36));
    XorComm(Carried(Low4(c), 36), Carried(Shr4(c), 32));
  }

  lemma ByteRowsCarry()
    ensures RowCarries(ByteColumn(), 32) && RowCarries(Lift(ByteRow0()), 36)
  {
    hide Descends, Lift, ByteColumn, ByteRow0, Bits, BitStep, RowCarries;
    ByteChained();
    Power32();
    TopSteps();
    RowFromTop(ByteColumn(), 32);
    RowFromAbove(ByteColumn(), Lift(ByteRow0()), 32);
  }

  lemma ByteNibbles(c: Word)
    requires c.v < 256
    ensures IsNibble(Shr4(c)) && IsNibble(Low4(c))
  {
  }

  /** The lookup of STEP1: a byte carried past one byte. */
  lemma ByteTableSkips(c: Word)
    requires c.v < 256
    ensures ByteTable().At(c) == Bits(c, 8)
  {
    hide Xor, Low4, Shr4, IsNibble, Bits, Carried, Lift, Column, Spreads, ByteTable, ByteColumn, ByteRow0;
    ByteNibbles(c);
    ByteSpreads();
    TableAt(ByteTable(), c);
    ByteRowsCarry();
    ByteSum(c);
  }
}
