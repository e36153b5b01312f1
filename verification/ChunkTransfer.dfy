/** One file sent in chunks from FILE_BEGIN to the renamed temp file: the messages of src/sender/yisync_sender_app.cpp,
    the chunk receiver and its coordinator, and write_commit_task of src/receiver/yisync_receiver.cpp. */
module ChunkTransfer {
  import opened Wire
  import opened Messages
  import opened Checksums
  import opened ChunkStreams
  import opened ChunkContents
  import opened AppendStreams
  import opened CommitCoordinator
  import ChunkFiles
  import ChunkResendSpec

  // ---------- The messages ----------

  /** What is sent: a regular file of `count` chunks, where it stands in its stream, and the chunk size. */
  datatype Sending = Sending(streamId: U64, seqNo: U64, fileId: U64, name: Blob, content: Bytes, size: Segment, count: U64) {
    /** Sent in chunks, and no file system's sizes reach the bound. */
    predicate Fits() { |content| > CHUNK_MODE_THRESHOLD && |content| + size - 1 < 0x1_0000_0000_0000_0000 }

    predicate Counted() { |content| < 0x1_0000_0000_0000_0000 && count == ChunkCount(|content|, size) }
  }

  /** full_checksum: the CRC-32C of the whole file. */
  function FullChecksum(content: Bytes): Checksum
    requires |content| < 0x1_0000_0000_0000_0000
  {
    if content == [] then Checksum(0, 0, 0, []) else Checksum(CRC32C, 0, |content|, Crc32cBytes(content))
  }

  function BeginOf(x: Sending): BeginMessage
    requires x.Fits()
  {
    FileBegin(x.streamId, x.seqNo, x.fileId, x.name, |x.content|, x.size, x.count, FullChecksum(x.content),
              0, 0, Checksum(0, 0, 0, []))
  }

  function ChunkOf(x: Sending, i: U64): ChunkMessage
    requires x.Fits() && i < x.count
  {
    var payload := Slice(x.content, x.size, i);
    Chunk(x.streamId, x.seqNo, x.fileId, i, Wrap64(i * x.size), |payload|, NO_COMPRESSION, CRC32C, Crc32cBytes(payload), payload)
  }

  function CommitOf(x: Sending): CommitMessage { FileCommit(x.streamId, x.seqNo, x.fileId) }

  // ---------- The disk ----------

  /** checksum_matches; it throws for an unknown algorithm, which ends the commit as a mismatch does. */
  predicate ChecksumMatches(c: Checksum, content: Bytes) {
    if c.algo == 0 then c.len == 0
    else
      && c.algo == CRC32C && c.offset + c.len <= |content|
      && c.value == Crc32cBytes(content[c.offset..c.offset + c.len])
  }

  /** write_commit_task: the temp file takes the name, unless its checksum is wrong or the name is taken. */
  function WriteCommit(disk: map<Blob, Node>, f: ActiveFile): Option<map<Blob, Node>> {
    if !ChecksumMatches(f.fileChecksum, f.temp) || f.name in disk then None else Some(disk[f.name := File(f.temp)])
  }

  /** A temp file shorter than the source is never given the name: the checksum covers the whole source. */
  lemma ShortFileIsRefused(disk: map<Blob, Node>, f: ActiveFile, content: Bytes)
    requires |f.temp| < |content| < 0x1_0000_0000_0000_0000 && f.fileChecksum == FullChecksum(content)
    ensures WriteCommit(disk, f) == None
  {
  }

  /** Where the source's checksum was announced, the temp file takes a free name exactly when it is long enough and its
      first bytes have the CRC-32C of the source. */
  lemma CommitChecksTheSource(disk: map<Blob, Node>, f: ActiveFile, content: Bytes)
    requires 0 < |content| < 0x1_0000_0000_0000_0000 && f.fileChecksum == FullChecksum(content)
    ensures WriteCommit(disk, f) ==
            if f.name !in disk && |f.temp| >= |content| && Crc32cBytes(f.temp[..|content|]) == Crc32cBytes(content) then
              Some(disk[f.name := File(f.temp)])
            else None
  {
    hide Crc32cBytes;
    assert |f.temp| >= |content| ==> f.temp[0..|content|] == f.temp[..|content|];
  }

  // ---------- The run ----------

  lemma StaysShaped(s: ChunkStream, m: ChunkMessage, disk: WriteDisk)
    requires Shaped(s)
    ensures Shaped(ApplyChunk(s, m, disk).0)
  {
    hide Refusal, BadPayload, WriteAt;
    RefusalFine(s, m);
  }

  lemma BeginShaped(s: ChunkStream, m: BeginMessage, disk: BeginDisk)
    requires Shaped(s)
    ensures Shaped(ApplyBegin(s, m, disk).0)
  {
    hide ChunkCount;
  }

  lemma CommitShaped(c: Context, m: CommitMessage, finalExists: bool, ok: bool)
    requires Shaped(c.chunk)
    ensures var queued := ApplyCommit(c, m, finalExists, 0, true).0;
      Shaped(queued.chunk) && Shaped(PollCommit(EndTask(queued, ok)).0.chunk)
  {
    var queued := ApplyCommit(c, m, finalExists, 0, true).0;
    assert Shaped(queued.chunk);
    hide ApplyCommit;
  }

  lemma RefusalFine(s: ChunkStream, m: ChunkMessage)
    ensures Refusal(s, m).Fine? ==> m.seqNo in s.active && m.chunkIndex < s.active[m.seqNo].chunkCount
  {
  }

  predicate AllBelow(order: seq<nat>, n: nat) { forall k :: 0 <= k < |order| ==> order[k] < n }

  function SendChunks(s: ChunkStream, x: Sending, order: seq<nat>): (t: ChunkStream)
    requires x.Fits() && Shaped(s) && AllBelow(order, x.count)
    ensures Shaped(t)
    decreases |order|
  {
    if order == [] then s
    else
      StaysShaped(s, ChunkOf(x, order[0]), Written);
      SendChunks(ApplyChunk(s, ChunkOf(x, order[0]), Written).0, x, order[1..])
  }

  /** FILE_BEGIN, the chunks in `order`, FILE_COMMIT, the task on the disk thread, and the poll behind it. */
  function SendFile(c: Context, disk: map<Blob, Node>, x: Sending, order: seq<nat>): (r: (Context, map<Blob, Node>))
    requires x.Fits() && Shaped(c.chunk) && AllBelow(order, x.count)
    ensures Shaped(r.0.chunk)
  {
    var taken := x.name in disk;
    BeginShaped(c.chunk, BeginOf(x), BeginDisk(true, 0, true, true, taken, true));
    var begun := ApplyBegin(c.chunk, BeginOf(x), BeginDisk(true, 0, true, true, taken, true)).0;
    var filled := c.(chunk := SendChunks(begun, x, order));
    var p := Prepare(filled.chunk, CommitOf(x), taken);
    var queued := ApplyCommit(filled, CommitOf(x), taken, 0, true).0;
    CommitShaped(filled, CommitOf(x), taken, true);
    CommitShaped(filled, CommitOf(x), taken, false);
    if !p.Task? then (queued, disk)
    else
      match WriteCommit(disk, p.file)
      case None => (PollCommit(EndTask(queued, false)).0, disk)
      case Some(renamed) => (PollCommit(EndTask(queued, true)).0, renamed)
  }

  // ---------- The file arrives ----------

  /** The only active file of the stream is the one being sent, and its temp file holds the chunks received. */
  predicate Receiving(s: ChunkStream, x: Sending, f: ActiveFile, log: ChunkFiles.Payloads)
    requires x.Fits()
  {
    && s.streamId == x.streamId && s.expectedSeq == x.seqNo && s.active == map[x.seqNo := f]
    && f.seqNo == x.seqNo && f.fileId == x.fileId && f.name == x.name && f.finalSize == |x.content| && f.chunkSize == x.size
    && f.chunkCount == x.count && x.Counted() && f.fileChecksum == FullChecksum(x.content) && !f.commitPending
    && ChunkFiles.SoundFile(f, log) && FromSource(log, x.seqNo, x.content, x.size)
  }

  lemma BeginTaken(s: ChunkStream, x: Sending)
    requires x.Fits() && x.Counted() && s.streamId == x.streamId && s.expectedSeq == x.seqNo && s.active == map[]
    ensures var begun := ApplyBegin(s, BeginOf(x), BeginDisk(true, 0, true, true, false, true)).0;
      Receiving(begun, x, NewFile(BeginOf(x)), map[])
  {
    ChunkFiles.NewFileSound(BeginOf(x), map[]);
    hide ChunkCount, ChunkFiles.SoundFile, FullChecksum;
  }

  /** A range that starts inside the content: no length or end is cut to fewer bits. */
  lemma RangeFits(length: U64, size: Segment, at: nat)
    requires at < length
    ensures var len := Min(size, length - at);
      Wrap64(at) == at && Wrap64(length - at) == length - at && Wrap32(len) == len && Wrap64(at + len) == at + len <= length
  {
  }

  /** The range of an honest chunk is the one that the receiver expects. */
  lemma ChunkRange(x: Sending, i: U64)
    requires x.Fits() && x.Counted() && i < x.count
    ensures var m, at := ChunkOf(x, i), ChunkFiles.Start(x.size, i);
      && m.offset == Wrap64(i * x.size) == at < |x.content|
      && m.rawLen == Wrap32(Min(x.size, Wrap64(|x.content| - m.offset))) && Wrap64(m.offset + m.rawLen) <= |x.content|
  {
    hide ChunkCount, Crc32cBytes, Wrap64, Wrap32;
    ChunkFiles.StartsInside(|x.content|, x.size, i);
    var at := ChunkFiles.Start(x.size, i);
    RangeFits(|x.content|, x.size, at);
    assert |Slice(x.content, x.size, i)| == Min(x.size, |x.content| - at);
    hide Slice, ChunkFiles.Start;
  }

  /** An honest chunk passes every check in front of the write. */
  lemma ChunkPasses(s: ChunkStream, x: Sending, f: ActiveFile, log: ChunkFiles.Payloads, i: U64)
    requires x.Fits() && Receiving(s, x, f, log) && i < x.count
    ensures Refusal(s, ChunkOf(x, i)).Fine? && BadPayload(ChunkOf(x, i)).Fine?
    ensures ChunkOf(x, i).offset == ChunkFiles.Start(x.size, i)
  {
    ChunkRange(x, i);
    hide ChunkCount, ChunkFiles.SoundFile, FromSource, Crc32cBytes, FullChecksum, Wrap64, Wrap32, Slice, ChunkFiles.Start;
  }

  /** A chunk that is new is stored. */
  lemma ChunkStored(s: ChunkStream, x: Sending, f: ActiveFile, log: ChunkFiles.Payloads, i: U64)
    requires x.Fits() && Receiving(s, x, f, log) && i < x.count && FileShaped(f) && !f.received[i]
    ensures var m := ChunkOf(x, i); var logged := log[(m.seqNo, m.chunkIndex) := m.payload];
      && ChunkFiles.SoundFile(Store(f, m, Written), logged) && FromSource(logged, x.seqNo, x.content, x.size)
  {
    hide ChunkCount, Refusal, BadPayload, WriteAt, Wrap64, Wrap32, FullChecksum;
    var m := ChunkOf(x, i);
    ChunkPasses(s, x, f, log, i);
    assert ChunkFiles.Sound(s, log);
    ChunkFiles.WriteFits(s, log, m);
    ChunkFiles.StoreSound(f, log, m, Written);
    hide ChunkFiles.SoundFile, Slice;
  }

  lemma ChunkTaken(s: ChunkStream, x: Sending, f: ActiveFile, log: ChunkFiles.Payloads, i: U64)
      returns (g: ActiveFile, logged: ChunkFiles.Payloads)
    requires x.Fits() && Receiving(s, x, f, log) && i < x.count
    ensures Shaped(s) && Receiving(ApplyChunk(s, ChunkOf(x, i), Written).0, x, g, logged)
    ensures |g.received| == |f.received| && g.received[i] && forall k :: 0 <= k < |f.received| && f.received[k] ==> g.received[k]
  {
    hide ChunkCount, Refusal, BadPayload, WriteAt, Wrap64, Wrap32, FullChecksum, FromSource, Slice;
    var m := ChunkOf(x, i);
    ChunkPasses(s, x, f, log, i);
    assert FileShaped(f);
    if f.received[i] {
      g, logged := f, log;
    } else {
      g, logged := Store(f, m, Written), log[(m.seqNo, m.chunkIndex) := m.payload];
      ChunkStored(s, x, f, log, i);
    }
    hide ChunkFiles.SoundFile;
  }

  lemma {:induction false} ChunksTaken(s: ChunkStream, x: Sending, f: ActiveFile, log: ChunkFiles.Payloads, order: seq<nat>)
      returns (g: ActiveFile, logged: ChunkFiles.Payloads)
    requires x.Fits() && Receiving(s, x, f, log) && AllBelow(order, x.count)
    ensures Shaped(s) && Receiving(SendChunks(s, x, order), x, g, logged) && |g.received| == |f.received|
    ensures forall i :: 0 <= i < |f.received| && (f.received[i] || i in order) ==> g.received[i]
    decreases |order|
  {
    assert FileShaped(f);
    if order == [] {
      g, logged := f, log;
    } else {
      hide ApplyChunk, ChunkFiles.SoundFile, ChunkCount, Receiving, ChunkOf;
      assert order == [order[0]] + order[1..];
      g, logged := ChunkTaken(s, x, f, log, order[0]);
      g, logged := ChunksTaken(ApplyChunk(s, ChunkOf(x, order[0]), Written).0, x, g, logged, order[1..]);
    }
  }

  /** A file that has every chunk is the source, and the commit task gives it its name. */
  lemma TaskWrites(s: ChunkStream, disk: map<Blob, Node>, x: Sending, f: ActiveFile, log: ChunkFiles.Payloads)
    requires x.Fits() && x.name !in disk && Receiving(s, x, f, log) && f.receivedCount == f.chunkCount
    ensures WriteCommit(disk, f) == Some(disk[x.name := File(x.content)])
  {
    hide Crc32cBytes, ChunkCount, ChunkFiles.SoundFile, FromSource;
    CompleteIsSource(f, log, x.content);
    assert x.content[0..|x.content|] == x.content;
  }

  /** It commits, and the stream expects the next seq. */
  lemma CommitTaken(c: Context, x: Sending, f: ActiveFile, log: ChunkFiles.Payloads)
    requires x.Fits() && 0 < x.seqNo < 0xFFFF_FFFF_FFFF_FFFF
    requires !c.queued && Receiving(c.chunk, x, f, log) && f.receivedCount == f.chunkCount
    ensures Prepare(c.chunk, CommitOf(x), false) == Task(f)
    ensures var done := PollCommit(EndTask(ApplyCommit(c, CommitOf(x), false, 0, true).0, true)).0;
      !done.queued && done.chunk.streamId == x.streamId && done.chunk.expectedSeq == x.seqNo + 1 && done.chunk.active == map[]
  {
    hide FullChecksum, ChunkCount, ChunkFiles.SoundFile, FromSource;
  }

  /** Sent in any order that covers the chunks, the file is on disk under its name, whole. */
  lemma FileArrives(c: Context, disk: map<Blob, Node>, x: Sending, order: seq<nat>)
    requires x.Fits() && x.Counted() && 0 < x.seqNo < 0xFFFF_FFFF_FFFF_FFFF && x.name !in disk
    requires !c.queued && c.chunk.streamId == x.streamId && c.chunk.expectedSeq == x.seqNo && c.chunk.active == map[]
    requires ChunkResendSpec.Covers(order, x.count) && AllBelow(order, x.count)
    ensures Shaped(c.chunk)
    ensures var (done, disk') := SendFile(c, disk, x, order);
      && disk' == disk[x.name := File(x.content)]
      && !done.queued && done.chunk.streamId == x.streamId && done.chunk.expectedSeq == x.seqNo + 1 && done.chunk.active == map[]
  {
    hide ApplyCommit, PollCommit, EndTask, WriteCommit, Prepare, ChunkCount, SendChunks, ApplyBegin;
    BeginTaken(c.chunk, x);
    var begun := ApplyBegin(c.chunk, BeginOf(x), BeginDisk(true, 0, true, true, false, true)).0;
    var f, log := ChunksTaken(begun, x, NewFile(BeginOf(x)), map[], order);
    ChunkFiles.CountBounds(f.received);
    TaskWrites(SendChunks(begun, x, order), disk, x, f, log);
    CommitTaken(c.(chunk := SendChunks(begun, x, order)), x, f, log);
  }
}
