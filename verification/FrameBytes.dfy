/** The bytes on the wire themselves: the constants of include/core/yisync_protocol.hpp, without their names. */
module FrameBytes {
  import opened Wire
  import opened Messages
  import opened Frames
  import SendPlans

  /** The reasons of a NACK, of which 11 is never sent, and the actions of a plan, by their codes. */
  lemma Codes()
    ensures [BAD_SESSION, BAD_SEQ, BAD_OFFSET, BAD_CHECKSUM, BAD_FILE_ORDER, BAD_CREATE, FILE_EXISTS, PREV_FILE_INCOMPLETE,
             SIZE_CONFLICT, CHECKSUM_MISMATCH, DECODE_ERROR, IO_ERROR, BAD_CHUNK, BAD_COMMIT] ==
            [1, 2, 3, 4, 5, 6, 7, 8, 9, 10, 12, 13, 14, 15]
    ensures [SendPlans.IN_SYNC, SendPlans.RESUME_EXISTING, SendPlans.CREATE_MISSING] == [0, 1, 2]
  {
  }

  lemma TwoBytes(low: Byte, high: Byte)
    ensures Le16(low + 0x100 * high) == [low, high]
  {
    assert LE(1, high) == [high] + LE(0, high / 0x100);
  }

  lemma FourBytes(a: Byte, b: Byte, c: Byte, d: Byte)
    ensures Le32(a + 0x100 * (b + 0x100 * (c + 0x100 * d))) == [a, b, c, d]
  {
    var n := b + 0x100 * (c + 0x100 * d);
    assert LE(4, a + 0x100 * n) == [a] + LE(3, n);
    assert LE(3, n) == [b] + LE(2, c + 0x100 * d);
    TwoBytes(c, d);
    hide LE;
  }

  /** The front of a frame: the magic number, version 1, the type's code, a header length of 12 and the body's length. */
  lemma HeaderBytes(m: Message)
    requires |Body(m)| < 0x1_0000_0000
    ensures var code := match m
                        case Hello(_, _, _, _, _, _, _, _, _, _) => 1
                        case Manifest1(_, _) => 2
                        case Create(_, _, _, _, _, _, _, _, _, _) => 3
                        case Data(_, _, _, _, _, _, _, _, _, _) => 4
                        case Heartbeat(_, _, _, _, _, _, _, _) => 5
                        case Nack(_, _, _, _, _, _, _, _, _) => 6
                        case FileBegin(_, _, _, _, _, _, _, _, _, _, _) => 7
                        case Chunk(_, _, _, _, _, _, _, _, _, _) => 8
                        case FileCommit(_, _, _) => 9
                        case Manifest2(_, _) => 10;
      EncodeFrame(m) == [0x59, 0x53, 0x49, 0x59, 1, code, 12, 0] + Le32(|Body(m)|) + Body(m)
  {
    hide Body, PutHeader, LE, Le32;
    HeaderLayout(TypeOf(m), |Body(m)|, Body(m));
  }

  lemma HeaderLayout(code: U8, n: U32, t: Bytes)
    ensures PutHeader(Header(0x5949_5359, 1, code, 12, n), t) == [0x59, 0x53, 0x49, 0x59, 1, code, 12, 0] + Le32(n) + t
  {
    Tagged(code, Le32(n), t);
    hide LE, Le8, Le16, Le32;
  }

  lemma Tagged(code: U8, n: Bytes, t: Bytes)
    ensures Le32(0x5949_5359) + (Le8(1) + (Le8(code) + (Le16(12) + (n + t)))) == [0x59, 0x53, 0x49, 0x59, 1, code, 12, 0] + n + t
  {
    FourBytes(0x59, 0x53, 0x49, 0x59);
    TwoBytes(12, 0);
    assert Le8(1) == [1] && Le8(code) == [code];
    hide LE, Le8, Le16, Le32;
    HeaderJoins([0x59, 0x53, 0x49, 0x59], [1], [code], [12, 0], n, t);
  }

  lemma HeaderJoins(a: Bytes, b: Bytes, c: Bytes, d: Bytes, e: Bytes, t: Bytes)
    ensures a + (b + (c + (d + (e + t)))) == a + b + c + d + e + t
  {
  }

  lemma SmallNumber(n: Byte)
    ensures Le64(n) == [n, 0, 0, 0, 0, 0, 0, 0]
  {
    assert LE(8, n) == [n] + LE(7, 0);
    Zeros7();
    hide LE;
  }

  lemma Zeros7()
    ensures LE(7, 0) == [0, 0, 0, 0, 0, 0, 0]
  {
    FourBytes(0, 0, 0, 0);
    assert LE(7, 0) == [0] + LE(6, 0) && LE(6, 0) == [0] + LE(5, 0) && LE(5, 0) == [0] + LE(4, 0);
    hide LE;
  }

  lemma CommitBody(a: Byte, b: Byte, c: Byte)
    ensures Body(FileCommit(a, b, c)) == Le64(a) + Le64(b) + Le64(c)
  {
    hide LE;
    assert Le64(a) + (Le64(b) + (Le64(c) + [])) == Le64(a) + Le64(b) + Le64(c);
  }

  /** FILE_COMMIT of stream 1, seq 2, file 3. */
  lemma CommitFrame()
    ensures EncodeFrame(FileCommit(1, 2, 3)) ==
            [0x59, 0x53, 0x49, 0x59, 1, 9, 12, 0] + [24, 0, 0, 0]
            + ([1, 0, 0, 0, 0, 0, 0, 0] + [2, 0, 0, 0, 0, 0, 0, 0] + [3, 0, 0, 0, 0, 0, 0, 0])
  {
    hide LE, EncodeFrame, Body, Le64, Le32;
    SmallNumber(1);
    SmallNumber(2);
    SmallNumber(3);
    FourBytes(24, 0, 0, 0);
    CommitBody(1, 2, 3);
    HeaderBytes(FileCommit(1, 2, 3));
  }
}
