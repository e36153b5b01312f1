/** The chunked receiver as it runs: the methods of T_ChunkedReceiverStream, each proved against its function. */
module ChunkedReceiver {
  import opened Wire
  import opened Messages
  import opened Checksums
  import opened ChunkStreams
  import opened MissingRanges

  class T_ChunkedReceiverStream {
    const streamId: U64
    var expectedSeq: U64
    var currentFileId: U64
    var currentOffset: U64
    var active: map<U64, ActiveFile>

    function Value(): ChunkStream reads this { ChunkStream(streamId, expectedSeq, currentFileId, currentOffset, active) }

    predicate Valid() reads this { Shaped(Value()) }

    /** The temp directory is emptied, and the last committed entry tells where the stream stands. */
    constructor (streamId: U64, latest: Option<Latest>)
      ensures Valid() && active == map[] && this.streamId == streamId
      ensures expectedSeq == match latest case None => 1 case Some(l) => Wrap64(l.seqNo + 1)
    {
      this.streamId := streamId;
      active := map[];
      match latest {
        case None =>
          expectedSeq, currentFileId, currentOffset := 1, 0, 0;
        case Some(l) =>
          expectedSeq, currentFileId, currentOffset := Wrap64(l.seqNo + 1), l.fileId, l.size;
      }
    }

    method RefreshCommittedFromDisk(latest: Option<Latest>)
      requires Valid()
      modifies this
      ensures Valid() && Value() == Refresh(old(Value()), latest)
    {
      currentFileId, currentOffset := 0, 0;
      if latest.Some? {
        currentFileId, currentOffset := latest.value.fileId, latest.value.size;
        expectedSeq := Max(expectedSeq, Wrap64(latest.value.seqNo + 1));
      }
    }

    method OnFileBegin(m: BeginMessage, disk: BeginDisk) returns (reply: Reply)
      requires Valid()
      modifies this
      ensures Valid() && (Value(), reply) == ApplyBegin(old(Value()), m, disk)
    {
      if m.streamId != streamId {
        return Nacked(BAD_SESSION, "wrong stream");
      }
      if m.seqNo < expectedSeq {
        return Fine;
      }
      if m.seqNo > expectedSeq {
        return Nacked(BAD_SEQ, "future seq");
      }
      if m.finalSize <= CHUNK_MODE_THRESHOLD {
        return Nacked(BAD_CHUNK, "file size does not require chunk mode");
      }
      if m.chunkSize == 0 {
        return Nacked(BAD_CHUNK, "chunk_size must be non-zero");
      }
      if m.chunkCount != ChunkCount(m.finalSize, m.chunkSize) {
        return Nacked(BAD_CHUNK, "chunk_count does not match final_size");
      }
      if m.seqNo in active {
        return Fine;
      }
      if m.prevFileId != 0 {
        if !disk.prevExists {
          return Nacked(PREV_FILE_INCOMPLETE, "previous file does not exist");
        }
        if disk.prevSize != m.prevFinalSize {
          return Nacked(PREV_FILE_INCOMPLETE, "previous file size mismatch");
        }
        if !disk.prevChecksumMatches {
          return Nacked(CHECKSUM_MISMATCH, "previous file checksum mismatch");
        }
      }
      if !disk.nameSafe {
        return Nacked(BAD_CREATE, "unsafe chunk final path");
      }
      if disk.finalExists {
        return Nacked(FILE_EXISTS, "final file already exists");
      }
      if !disk.tempCreated {
        return Nacked(IO_ERROR, "failed to create chunk temp file");
      }
      active := active[m.seqNo := NewFile(m)];
      return Fine;
    }

    /** The checks in front of the duplicate test, in order. */
    method CheckChunk(m: ChunkMessage) returns (reply: Reply)
      requires Valid()
      ensures reply == Refusal(Value(), m)
    {
      if m.streamId != streamId {
        return Nacked(BAD_SESSION, "wrong stream");
      }
      if m.seqNo > expectedSeq {
        return Nacked(BAD_SEQ, "future seq");
      }
      if m.seqNo !in active {
        return Nacked(BAD_CHUNK, "chunk received before FILE_BEGIN");
      }
      var file := active[m.seqNo];
      if m.fileId != file.fileId {
        return Nacked(BAD_FILE_ORDER, "chunk file_id mismatch");
      }
      if m.chunkIndex >= file.chunkCount {
        return Nacked(BAD_CHUNK, "chunk_index out of range");
      }
      if m.offset != Wrap64(m.chunkIndex * file.chunkSize) {
        return Nacked(BAD_OFFSET, "chunk offset mismatch");
      }
      var expected := Wrap32(Min(file.chunkSize, Wrap64(file.finalSize - m.offset)));
      if m.rawLen != expected || Wrap64(m.offset + m.rawLen) > file.finalSize {
        return Nacked(BAD_CHUNK, "chunk raw_len mismatch");
      }
      return Fine;
    }

    static method CheckPayload(m: ChunkMessage) returns (reply: Reply)
      ensures reply == BadPayload(m)
    {
      hide Crc32cBytes;
      if m.compression != NO_COMPRESSION {
        return Nacked(DECODE_ERROR, "compression is not implemented in this prototype");
      }
      if |m.payload| != m.rawLen {
        return Nacked(DECODE_ERROR, "raw_len does not match uncompressed chunk payload length");
      }
      if m.checksumAlgo != CRC32C {
        return Nacked(BAD_CHECKSUM, "only CRC32C CHUNK checksum is implemented");
      }
      if m.checksum != Crc32cBytes(m.payload) {
        return Nacked(BAD_CHECKSUM, "CHUNK checksum mismatch");
      }
      return Fine;
    }

    method OnChunk(m: ChunkMessage, disk: WriteDisk) returns (reply: Reply)
      requires Valid()
      modifies this`active
      ensures Valid() && (Value(), reply) == ApplyChunk(old(Value()), m, disk)
    {
      hide BadPayload, WriteAt, ExpectedLen;
      if m.streamId == streamId && m.seqNo < expectedSeq {
        return Fine;
      }
      reply := CheckChunk(m);
      if !reply.Fine? {
        return;
      }
      var file := active[m.seqNo];
      if file.received[m.chunkIndex] {
        return Fine;
      }
      reply := CheckPayload(m);
      if !reply.Fine? {
        return;
      }
      match disk {
        case NotOpened =>
          assert active == active[m.seqNo := file];
          return Nacked(IO_ERROR, "failed to open chunk temp file");
        case Partly(n) =>
          file := file.(temp := WriteAt(file.temp, m.offset, m.payload[..Min(n, |m.payload|)]));
          active := active[m.seqNo := file];
          return Nacked(IO_ERROR, "failed to write chunk temp file");
        case Written =>
          file := file.(temp := WriteAt(file.temp, m.offset, m.payload));
          file := file.(received := file.received[m.chunkIndex := true], receivedCount := file.receivedCount + 1);
          active := active[m.seqNo := file];
          return Fine;
      }
    }

    method PrepareCommit(m: CommitMessage, finalExists: bool) returns (p: Prepared)
      requires Valid()
      modifies this`active
      ensures Valid() && p == Prepare(old(Value()), m, finalExists) && Value() == AfterPrepare(old(Value()), p, m)
    {
      if m.streamId != streamId {
        return Refused(Nacked(BAD_SESSION, "wrong stream"));
      }
      if m.seqNo < expectedSeq {
        return Duplicate;
      }
      if m.seqNo > expectedSeq {
        return Refused(Nacked(BAD_SEQ, "future seq"));
      }
      if m.seqNo !in active {
        return Refused(Nacked(BAD_COMMIT, "commit received before FILE_BEGIN"));
      }
      var file := active[m.seqNo];
      if m.fileId != file.fileId {
        return Refused(Nacked(BAD_FILE_ORDER, "commit file_id mismatch"));
      }
      if file.commitPending {
        return Refused(Nacked(BAD_COMMIT, "commit already pending"));
      }
      if file.receivedCount != file.chunkCount {
        return Refused(Nacked(BAD_COMMIT, "not all chunks have been received"));
      }
      if finalExists {
        return Refused(Nacked(FILE_EXISTS, "final file already exists"));
      }
      p := Task(file);
      active := active[m.seqNo := file.(commitPending := true)];
    }

    method AbortCommit(seqNo: U64)
      requires Valid()
      modifies this`active
      ensures Valid() && Value() == SetPending(old(Value()), seqNo, false)
    {
      if seqNo in active {
        active := active[seqNo := active[seqNo].(commitPending := false)];
      }
    }

    /** False where the source throws; nothing has changed then. */
    method FinishCommit(r: CommitResult) returns (ok: bool)
      requires Valid()
      modifies this
      ensures Valid() && ok == Finish(old(Value()), r).Some?
      ensures Value() == if ok then Finish(old(Value()), r).value else old(Value())
    {
      if r.streamId != streamId || r.seqNo !in active {
        return false;
      }
      var file := active[r.seqNo];
      if r.fileId != file.fileId {
        return false;
      }
      currentFileId, currentOffset := file.fileId, file.finalSize;
      expectedSeq := Max(expectedSeq, Wrap64(file.seqNo + 1));
      active := active - {r.seqNo};
      return true;
    }

    method MissingOf(seqNo: U64, max: nat) returns (ranges: seq<MissingRange>)
      requires Valid()
      ensures seqNo !in active ==> ranges == []
      ensures seqNo in active ==> forall r <- ranges :: r.seqNo == active[seqNo].seqNo && r.fileId == active[seqNo].fileId
      ensures seqNo in active ==> forall top :: IsTop(active[seqNo].received, top) ==>
                                    ListsGaps(active[seqNo].received, top, max, ranges)
    {
      if seqNo !in active {
        return [];
      }
      var file := active[seqNo];
      assert FileShaped(file);
      ranges := MissingRangesOf(file.seqNo, file.fileId, file.received, max);
    }
  }
}
