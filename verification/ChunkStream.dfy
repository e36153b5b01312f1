/** T_ChunkedReceiverStream of src/receiver/yisync_receiver.cpp: files that arrive as chunks, on values.
    What the file system answers is a parameter of each operation. */
module ChunkStreams {
  import opened Wire
  import opened Messages
  import opened Checksums

  const NO_COMPRESSION: U8 := 0
  const CRC32C: U8 := 1

  const CHUNK_MODE_THRESHOLD := 65536

  /** The parts of a Nack that depend on the check that failed. */
  datatype Reply = Fine | Nacked(reason: U8, detail: string)

  datatype ActiveFile = ActiveFile(
    seqNo: U64, fileId: U64, name: Blob, finalSize: U64, chunkSize: U64, chunkCount: U64, fileChecksum: Checksum,
    received: seq<bool>, receivedCount: nat, commitPending: bool,
    /** What the temp file on disk holds. */
    temp: Bytes)

  datatype ChunkStream = ChunkStream(streamId: U64, expectedSeq: U64, currentFileId: U64, currentOffset: U64,
                                     active: map<U64, ActiveFile>)

  type BeginMessage = m: Message | m.FileBegin?
    witness FileBegin(0, 0, 0, [], 0, 0, 0, Checksum(0, 0, 0, []), 0, 0, Checksum(0, 0, 0, []))
  type ChunkMessage = m: Message | m.Chunk? witness Chunk(0, 0, 0, 0, 0, 0, 0, 0, [], [])
  type CommitMessage = m: Message | m.FileCommit? witness FileCommit(0, 0, 0)

  /** chunk_count_for_size, whose sum wraps. */
  function ChunkCount(size: U64, chunkSize: U64): U64
    requires chunkSize > 0
  {
    if size == 0 then 0 else Wrap64(size + chunkSize - 1) / chunkSize
  }

  // ---------- FILE_BEGIN ----------

  /** What the disk says about the previous file, the target, and creating the temp file. */
  datatype BeginDisk = BeginDisk(prevExists: bool, prevSize: U64, prevChecksumMatches: bool,
                                 nameSafe: bool, finalExists: bool, tempCreated: bool)

  function NewFile(m: BeginMessage): ActiveFile {
    ActiveFile(m.seqNo, m.fileId, m.name, m.finalSize, m.chunkSize, m.chunkCount, m.fileChecksum,
               seq(m.chunkCount, _ => false), 0, false, [])
  }

  function ApplyBegin(s: ChunkStream, m: BeginMessage, disk: BeginDisk): (ChunkStream, Reply) {
    if m.streamId != s.streamId then (s, Nacked(BAD_SESSION, "wrong stream"))
    else if m.seqNo < s.expectedSeq then (s, Fine)
    else if m.seqNo > s.expectedSeq then (s, Nacked(BAD_SEQ, "future seq"))
    else if m.finalSize <= CHUNK_MODE_THRESHOLD then (s, Nacked(BAD_CHUNK, "file size does not require chunk mode"))
    else if m.chunkSize == 0 then (s, Nacked(BAD_CHUNK, "chunk_size must be non-zero"))
    else if m.chunkCount != ChunkCount(m.finalSize, m.chunkSize) then (s, Nacked(BAD_CHUNK, "chunk_count does not match final_size"))
    else if m.seqNo in s.active then (s, Fine)
    else if m.prevFileId != 0 && !disk.prevExists then (s, Nacked(PREV_FILE_INCOMPLETE, "previous file does not exist"))
    else if m.prevFileId != 0 && disk.prevSize != m.prevFinalSize then (s, Nacked(PREV_FILE_INCOMPLETE, "previous file size mismatch"))
    else if m.prevFileId != 0 && !disk.prevChecksumMatches then (s, Nacked(CHECKSUM_MISMATCH, "previous file checksum mismatch"))
    else if !disk.nameSafe then (s, Nacked(BAD_CREATE, "unsafe chunk final path"))
    else if disk.finalExists then (s, Nacked(FILE_EXISTS, "final file already exists"))
    else if !disk.tempCreated then (s, Nacked(IO_ERROR, "failed to create chunk temp file"))
    else (s.(active := s.active[m.seqNo := NewFile(m)]), Fine)
  }

  // ---------- CHUNK ----------

  /** How opening and writing the temp file goes; a failed write may leave a part of the bytes. */
  datatype WriteDisk = NotOpened | Partly(written: nat) | Written

  function Zeros(n: nat): (s: Bytes)
    ensures |s| == n
  {
    seq(n, _ => 0)
  }

  /** A write at `at`; a gap before it reads as zeros. */
  function WriteAt(file: Bytes, at: nat, data: Bytes): Bytes {
    if data == [] then file
    else
      var base := if |file| < at then file + Zeros(at - |file|) else file;
      base[..at] + data + (if at + |data| <= |base| then base[at + |data|..] else [])
  }

  function ExpectedLen(f: ActiveFile, offset: U64): U32 { Wrap32(Min(f.chunkSize, Wrap64(f.finalSize - offset))) }

  /** The checks before the duplicate test, in order. */
  function Refusal(s: ChunkStream, m: ChunkMessage): Reply {
    if m.streamId != s.streamId then Nacked(BAD_SESSION, "wrong stream")
    else if m.seqNo > s.expectedSeq then Nacked(BAD_SEQ, "future seq")
    else if m.seqNo !in s.active then Nacked(BAD_CHUNK, "chunk received before FILE_BEGIN")
    else
      var f := s.active[m.seqNo];
      if m.fileId != f.fileId then Nacked(BAD_FILE_ORDER, "chunk file_id mismatch")
      else if m.chunkIndex >= f.chunkCount then Nacked(BAD_CHUNK, "chunk_index out of range")
      else if m.offset != Wrap64(m.chunkIndex * f.chunkSize) then Nacked(BAD_OFFSET, "chunk offset mismatch")
      else if m.rawLen != ExpectedLen(f, m.offset) || Wrap64(m.offset + m.rawLen) > f.finalSize then
        Nacked(BAD_CHUNK, "chunk raw_len mismatch")
      else Fine
  }

  /** The checks of the payload after it. */
  function BadPayload(m: ChunkMessage): Reply {
    if m.compression != NO_COMPRESSION then Nacked(DECODE_ERROR, "compression is not implemented in this prototype")
    else if |m.payload| != m.rawLen then Nacked(DECODE_ERROR, "raw_len does not match uncompressed chunk payload length")
    else if m.checksumAlgo != CRC32C then Nacked(BAD_CHECKSUM, "only CRC32C CHUNK checksum is implemented")
    else if m.checksum != Crc32cBytes(m.payload) then Nacked(BAD_CHECKSUM, "CHUNK checksum mismatch")
    else Fine
  }

  predicate FileShaped(f: ActiveFile) { |f.received| == f.chunkCount }

  predicate Shaped(s: ChunkStream) { forall k <- s.active :: FileShaped(s.active[k]) }

  /** The message reaches the write: it is for an active file, well formed, and not a duplicate. */
  predicate Writes(s: ChunkStream, m: ChunkMessage)
    requires Shaped(s)
  {
    && m.streamId == s.streamId && m.seqNo >= s.expectedSeq && Refusal(s, m).Fine?
    && !s.active[m.seqNo].received[m.chunkIndex] && BadPayload(m).Fine?
  }

  function Store(f: ActiveFile, m: ChunkMessage, disk: WriteDisk): ActiveFile
    requires m.chunkIndex < |f.received|
  {
    match disk
    case NotOpened => f
    case Partly(n) => f.(temp := WriteAt(f.temp, m.offset, m.payload[..Min(n, |m.payload|)]))
    case Written => f.(temp := WriteAt(f.temp, m.offset, m.payload), received := f.received[m.chunkIndex := true],
                       receivedCount := f.receivedCount + 1)
  }

  function ApplyChunk(s: ChunkStream, m: ChunkMessage, disk: WriteDisk): (ChunkStream, Reply)
    requires Shaped(s)
  {
    if m.streamId == s.streamId && m.seqNo < s.expectedSeq then (s, Fine)
    else if !Refusal(s, m).Fine? then (s, Refusal(s, m))
    else if s.active[m.seqNo].received[m.chunkIndex] then (s, Fine)
    else if !BadPayload(m).Fine? then (s, BadPayload(m))
    else
      (s.(active := s.active[m.seqNo := Store(s.active[m.seqNo], m, disk)]),
       if disk.NotOpened? then Nacked(IO_ERROR, "failed to open chunk temp file")
       else if disk.Partly? then Nacked(IO_ERROR, "failed to write chunk temp file")
       else Fine)
  }

  // ---------- FILE_COMMIT ----------

  /** The file whose commit a message may start: its key and contents, or the reason it may not. */
  datatype Prepared = Duplicate | Refused(reply: Reply) | Task(file: ActiveFile)

  function Prepare(s: ChunkStream, m: CommitMessage, finalExists: bool): Prepared {
    if m.streamId != s.streamId then Refused(Nacked(BAD_SESSION, "wrong stream"))
    else if m.seqNo < s.expectedSeq then Duplicate
    else if m.seqNo > s.expectedSeq then Refused(Nacked(BAD_SEQ, "future seq"))
    else if m.seqNo !in s.active then Refused(Nacked(BAD_COMMIT, "commit received before FILE_BEGIN"))
    else
      var f := s.active[m.seqNo];
      if m.fileId != f.fileId then Refused(Nacked(BAD_FILE_ORDER, "commit file_id mismatch"))
      else if f.commitPending then Refused(Nacked(BAD_COMMIT, "commit already pending"))
      else if f.receivedCount != f.chunkCount then Refused(Nacked(BAD_COMMIT, "not all chunks have been received"))
      else if finalExists then Refused(Nacked(FILE_EXISTS, "final file already exists"))
      else Task(f)
  }

  function SetPending(s: ChunkStream, seqNo: U64, pending: bool): ChunkStream {
    if seqNo in s.active then s.(active := s.active[seqNo := s.active[seqNo].(commitPending := pending)]) else s
  }

  function AfterPrepare(s: ChunkStream, p: Prepared, m: CommitMessage): ChunkStream {
    if p.Task? then SetPending(s, m.seqNo, true) else s
  }

  datatype CommitResult = CommitResult(streamId: U64, seqNo: U64, fileId: U64)

  /** None where finish_commit throws. */
  function Finish(s: ChunkStream, r: CommitResult): Option<ChunkStream> {
    if r.streamId != s.streamId || r.seqNo !in s.active || r.fileId != s.active[r.seqNo].fileId then None
    else
      var f := s.active[r.seqNo];
      Some(s.(currentFileId := f.fileId, currentOffset := f.finalSize, expectedSeq := Max(s.expectedSeq, Wrap64(f.seqNo + 1)),
              active := s.active - {r.seqNo}))
  }

  /** The last entry of a scan of the stream's directory, if it has one. */
  datatype Latest = Latest(fileId: U64, size: U64, seqNo: U64)

  function Refresh(s: ChunkStream, latest: Option<Latest>): ChunkStream {
    match latest
    case None => s.(currentFileId := 0, currentOffset := 0)
    case Some(l) => s.(currentFileId := l.fileId, currentOffset := l.size, expectedSeq := Max(s.expectedSeq, Wrap64(l.seqNo + 1)))
  }
}
