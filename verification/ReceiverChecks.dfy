/** Which messages the two receivers of src/receiver/yisync_receiver.cpp take, spelled out field by field, and what
    becomes of the others. Nothing here names the functions that make the checks. */
module ReceiverChecks {
  import opened Wire
  import opened Messages
  import opened Checksums
  import opened ChunkStreams
  import opened AppendStreams
  import Crc32c
  import Crc32cPowers

  // ---------- DATA ----------

  /** A payload that came whole: not compressed, as long as announced, with its CRC-32C. */
  predicate Whole(compression: U8, rawLen: U32, checksumAlgo: U8, checksum: Blob, payload: Blob) {
    && compression == 0 && |payload| == rawLen
    && checksumAlgo == 1 && checksum == Crc32cBytes(payload)
  }

  /** A DATA continues the current file: it has the expected seq, or the one before it when the file has since grown at
      the sender, and starts where the file of that name ends. */
  predicate Continues(s: AppendStream, m: DataMessage, name: Blob) {
    && m.streamId == s.streamId && m.fileId == s.currentFileId && s.currentKind == REGULAR_FILE
    && (m.seqNo == s.expectedSeq || (m.seqNo + 1 == s.expectedSeq && m.offset == s.currentOffset < m.finalSize))
    && name in s.disk && m.offset == (if s.disk[name].File? then |s.disk[name].content| else 0)
    && m.rawLen > 0 && Wrap64(m.offset + m.rawLen) <= m.finalSize
    && (m.finalSize == s.currentFinalSize || s.currentFinalSize == 0 ||
        (m.seqNo < s.expectedSeq && s.currentFinalSize == s.currentOffset))
  }

  predicate Named(s: AppendStream, fallback: Blob, name: Blob) {
    s.current == Some(name) || (s.current == None && name == fallback)
  }

  /** A DATA that continues the current file with a whole payload is appended to it, */
  lemma DataIsAppended(s: AppendStream, m: DataMessage, fallback: Blob, name: Blob)
    requires Named(s, fallback, name) && Continues(s, m, name)
    requires Whole(m.compression, m.rawLen, m.checksumAlgo, m.checksum, m.payload)
    requires s.disk[name].File?
    ensures var end := Wrap64(m.offset + m.rawLen);
      ApplyData(s, m, fallback, Written) ==
      (s.(disk := s.disk[name := File(s.disk[name].content + m.payload)], currentOffset := end, currentFinalSize := m.finalSize,
          expectedSeq := if end == m.finalSize && m.seqNo == s.expectedSeq then Max(s.expectedSeq, Wrap64(m.seqNo + 1))
                         else s.expectedSeq),
       Fine)
  {
    hide Crc32cBytes;
  }

  /** as far as the write goes, */
  lemma DataIsTorn(s: AppendStream, m: DataMessage, fallback: Blob, name: Blob, written: nat)
    requires Named(s, fallback, name) && Continues(s, m, name) && written <= |m.payload|
    requires Whole(m.compression, m.rawLen, m.checksumAlgo, m.checksum, m.payload)
    requires s.disk[name].File?
    ensures ApplyData(s, m, fallback, NotOpened) == (s, Nacked(IO_ERROR, "failed to open target file"))
    ensures ApplyData(s, m, fallback, Partly(written)) ==
            (s.(disk := s.disk[name := File(s.disk[name].content + m.payload[..written])]),
             Nacked(IO_ERROR, "failed to append target file"))
  {
    hide Crc32cBytes;
  }

  /** and any other leaves the session and the directory as they are. */
  lemma OtherDataIsNot(s: AppendStream, m: DataMessage, fallback: Blob, name: Blob, write: WriteDisk)
    requires Named(s, fallback, name)
    requires !(Continues(s, m, name) && Whole(m.compression, m.rawLen, m.checksumAlgo, m.checksum, m.payload))
    ensures ApplyData(s, m, fallback, write).0 == s
  {
    hide Crc32cBytes, AfterWrite;
  }

  /** Whatever changes the directory, or the session, has its checksum. */
  lemma AppendedIsWhole(s: AppendStream, m: DataMessage, fallback: Blob, write: WriteDisk)
    requires ApplyData(s, m, fallback, write).0 != s
    ensures m.checksumAlgo == 1 && m.checksum == Crc32cBytes(m.payload) && m.compression == 0 && |m.payload| == m.rawLen > 0
  {
    hide Crc32cBytes, ApplyData;
    if !Whole(m.compression, m.rawLen, m.checksumAlgo, m.checksum, m.payload) || m.rawLen == 0 {
      OtherDataIsNot(s, m, fallback, match s.current case Some(name) => name case None => fallback, write);
    }
  }

  /** A DATA that only its checksum makes wrong is answered with BAD_CHECKSUM and changes nothing. */
  lemma WrongDataChecksum(s: AppendStream, m: DataMessage, fallback: Blob, name: Blob, write: WriteDisk)
    requires Named(s, fallback, name) && Continues(s, m, name)
    requires Whole(m.compression, m.rawLen, m.checksumAlgo, Crc32cBytes(m.payload), m.payload)
    requires m.checksum != Crc32cBytes(m.payload)
    ensures ApplyData(s, m, fallback, write) == (s, Nacked(BAD_CHECKSUM, "DATA checksum mismatch"))
  {
    hide Crc32cBytes;
  }

  // ---------- CREATE ----------

  /** A CREATE is for a new name: a known kind, the seq that is expected, and the file before it complete. */
  predicate Creates(s: AppendStream, m: CreateMessage, disk: CreateDisk) {
    && m.streamId == s.streamId && m.seqNo == s.expectedSeq
    && 1 <= m.kind <= 3 && disk.nameSafe && m.name !in s.disk
    && (m.prevFileId == 0 || (disk.prevExists && disk.prevSize == m.prevFinalSize && disk.prevChecksumMatches))
    && disk.parentMade && disk.made
  }

  /** It makes the entry, and passes it at once unless bytes are to follow; any other changes nothing. */
  lemma CreateMakesTheEntry(s: AppendStream, m: CreateMessage, disk: CreateDisk)
    requires s.expectedSeq < 0xFFFF_FFFF_FFFF_FFFF
    ensures var (next, reply) := ApplyCreate(s, m, disk);
      if !Creates(s, m, disk) then next == s && (reply.Fine? <==> m.streamId == s.streamId && m.seqNo < s.expectedSeq)
      else
        && reply.Fine? && next.current == Some(m.name)
        && next.disk == s.disk[m.name := match m.kind case 1 => File([]) case 2 => Directory case _ => Symlink(m.linkTarget)]
        && next.currentFileId == m.fileId && next.currentOffset == 0 && next.currentFinalSize == m.finalSize
        && next.currentKind == m.kind && next.streamId == s.streamId
        && next.expectedSeq == if m.kind == 1 && m.finalSize > 0 then s.expectedSeq else s.expectedSeq + 1
  {
  }

  // ---------- CHUNK ----------

  /** A CHUNK is the one of its index: of an active file of the expected seq, at its place, and not there yet. */
  predicate Fills(s: ChunkStream, m: ChunkMessage)
    requires Shaped(s)
  {
    && m.streamId == s.streamId && m.seqNo == s.expectedSeq && m.seqNo in s.active
    && var f := s.active[m.seqNo];
    && m.fileId == f.fileId && m.chunkIndex < f.chunkCount && !f.received[m.chunkIndex]
    && m.offset == Wrap64(m.chunkIndex * f.chunkSize) && Wrap64(m.offset + m.rawLen) <= f.finalSize
    && m.rawLen == Wrap32(if f.chunkSize <= Wrap64(f.finalSize - m.offset) then f.chunkSize else Wrap64(f.finalSize - m.offset))
  }

  /** Such a chunk with a whole payload is written and marked, */
  lemma ChunkIsStored(s: ChunkStream, m: ChunkMessage)
    requires Shaped(s) && Fills(s, m) && Whole(m.compression, m.rawLen, m.checksumAlgo, m.checksum, m.payload)
    ensures var f := s.active[m.seqNo];
      ApplyChunk(s, m, Written) ==
      (s.(active := s.active[m.seqNo := f.(temp := WriteAt(f.temp, m.offset, m.payload),
                                           received := f.received[m.chunkIndex := true],
                                           receivedCount := f.receivedCount + 1)]),
       Fine)
  {
    hide Crc32cBytes, WriteAt, Wrap64, Wrap32;
  }

  /** or, when the write is torn, left unmarked, */
  lemma ChunkIsTorn(s: ChunkStream, m: ChunkMessage, written: nat)
    requires Shaped(s) && Fills(s, m) && Whole(m.compression, m.rawLen, m.checksumAlgo, m.checksum, m.payload)
    requires written <= |m.payload|
    ensures ApplyChunk(s, m, NotOpened) == (s, Nacked(IO_ERROR, "failed to open chunk temp file"))
    ensures var f := s.active[m.seqNo];
      ApplyChunk(s, m, Partly(written)) ==
      (s.(active := s.active[m.seqNo := f.(temp := WriteAt(f.temp, m.offset, m.payload[..written]))]),
       Nacked(IO_ERROR, "failed to write chunk temp file"))
  {
    hide Crc32cBytes, WriteAt, Wrap64, Wrap32;
    assert s.active[m.seqNo := s.active[m.seqNo]] == s.active;
  }

  /** and any other changes nothing. */
  lemma OtherChunkIsNot(s: ChunkStream, m: ChunkMessage, disk: WriteDisk)
    requires Shaped(s) && !(Fills(s, m) && Whole(m.compression, m.rawLen, m.checksumAlgo, m.checksum, m.payload))
    ensures ApplyChunk(s, m, disk).0 == s
  {
    hide Crc32cBytes, WriteAt, Wrap64, Wrap32;
  }

  lemma StoredIsWhole(s: ChunkStream, m: ChunkMessage, disk: WriteDisk)
    requires Shaped(s) && ApplyChunk(s, m, disk).0 != s
    ensures m.checksumAlgo == 1 && m.checksum == Crc32cBytes(m.payload) && m.compression == 0 && |m.payload| == m.rawLen
  {
    hide Crc32cBytes, ApplyChunk;
    if !Whole(m.compression, m.rawLen, m.checksumAlgo, m.checksum, m.payload) {
      OtherChunkIsNot(s, m, disk);
    }
  }

  /** A CHUNK that only its checksum makes wrong is answered with BAD_CHECKSUM and changes nothing. */
  lemma WrongChunkChecksum(s: ChunkStream, m: ChunkMessage, disk: WriteDisk)
    requires Shaped(s) && Fills(s, m)
    requires Whole(m.compression, m.rawLen, m.checksumAlgo, Crc32cBytes(m.payload), m.payload)
    requires m.checksum != Crc32cBytes(m.payload)
    ensures ApplyChunk(s, m, disk) == (s, Nacked(BAD_CHECKSUM, "CHUNK checksum mismatch"))
  {
    hide Crc32cBytes, WriteAt, Wrap64, Wrap32;
  }

  // ---------- FILE_BEGIN and FILE_COMMIT ----------

  /** A FILE_BEGIN announces a file of more than 64 KiB whose chunks are counted right, under the expected seq. */
  predicate Announces(s: ChunkStream, m: BeginMessage, disk: BeginDisk) {
    && m.streamId == s.streamId && m.seqNo == s.expectedSeq && m.seqNo !in s.active
    && m.finalSize > 65536 && m.chunkSize > 0 && m.chunkCount == Wrap64(m.finalSize + m.chunkSize - 1) / m.chunkSize
    && (m.prevFileId == 0 || (disk.prevExists && disk.prevSize == m.prevFinalSize && disk.prevChecksumMatches))
    && disk.nameSafe && !disk.finalExists && disk.tempCreated
  }

  lemma BeginMakesTheFile(s: ChunkStream, m: BeginMessage, disk: BeginDisk)
    ensures var (next, reply) := ApplyBegin(s, m, disk);
      if !Announces(s, m, disk) then next == s
      else
        && reply.Fine? && next.active.Keys == s.active.Keys + {m.seqNo}
        && (forall k <- s.active :: next.active[k] == s.active[k])
        && next == s.(active := next.active)
        && var f := next.active[m.seqNo];
        && f.seqNo == m.seqNo && f.fileId == m.fileId && f.name == m.name && f.finalSize == m.finalSize
        && f.chunkSize == m.chunkSize && f.chunkCount == m.chunkCount && f.fileChecksum == m.fileChecksum
        && |f.received| == m.chunkCount && (forall i :: 0 <= i < m.chunkCount ==> !f.received[i])
        && f.receivedCount == 0 && !f.commitPending && f.temp == []
  {
    hide Wrap64;
  }

  /** A commit may start exactly for a complete file of the expected seq that has none pending and whose name is free. */
  lemma CommitStarts(s: ChunkStream, m: CommitMessage, finalExists: bool)
    ensures Prepare(s, m, finalExists).Task? <==>
              && m.streamId == s.streamId && m.seqNo == s.expectedSeq && m.seqNo in s.active && !finalExists
              && var f := s.active[m.seqNo];
                 f.fileId == m.fileId && !f.commitPending && f.receivedCount == f.chunkCount
  {
  }

  // ---------- The checksum ----------

  lemma LowByteFirst(w: Crc32c.Word)
    requires w == Crc32c.Word(0x8A91_36AA)
    ensures Le32(w.v as int) == [0xAA, 0x36, 0x91, 0x8A]
  {
    assert w.v as int == 0x8A91_36AA;
    assert LE(4, 0x8A91_36AA) == [0xAA] + LE(3, 0x8A_9136);
    assert LE(3, 0x8A_9136) == [0x36] + LE(2, 0x8A91);
    assert LE(2, 0x8A91) == [0x91] + LE(1, 0x8A);
  }

  /** The bytes of a checksum, on the 32 zeros of RFC 3720, appendix B.4: low byte first. */
  lemma ChecksumOfZeros(zeros: Bytes)
    requires |zeros| == 32 && forall i :: 0 <= i < 32 ==> zeros[i] == 0
    ensures Crc32cBytes(zeros) == [0xAA, 0x36, 0x91, 0x8A]
  {
    Crc32cPowers.ThirtyTwoZeroBytes(Bits(zeros));
    LowByteFirst(Crc32c.Word(0x8A91_36AA));
  }
}
