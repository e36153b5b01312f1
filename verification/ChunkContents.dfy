/** A chunked file sent honestly: the chunks that read_chunk_payload of src/sender/yisync_sender_plan.cpp cuts from the
    source, and the temp file that they make. */
module ChunkContents {
  import opened Wire
  import opened Messages
  import opened Checksums
  import opened ChunkStreams
  import opened ChunkFiles

  /** The sender's chunk size. */
  type Segment = n: int | 0 < n < 0x1_0000_0000 witness 1

  /** Chunk `i` of `content`. */
  function Slice(content: Bytes, chunkSize: nat, i: nat): (payload: Bytes)
    ensures |payload| <= chunkSize
  {
    var at := ChunkFiles.Start(chunkSize, i);
    if at >= |content| then [] else content[at..at + Min(chunkSize, |content| - at)]
  }

  /** Every payload accepted for the file is the chunk of the source with its index. */
  predicate FromSource(log: Payloads, seqNo: U64, content: Bytes, chunkSize: nat) {
    forall k <- log :: k.0 == seqNo ==> log[k] == Slice(content, chunkSize, k.1)
  }

  lemma SliceGrows(content: Bytes, chunkSize: nat, i: nat)
    ensures content[..Min(ChunkFiles.Start(chunkSize, i), |content|)] + Slice(content, chunkSize, i)
            == content[..Min(ChunkFiles.Start(chunkSize, i + 1), |content|)]
  {
    assert (i + 1) * chunkSize == i * chunkSize + chunkSize;
  }

  /** The first `n` chunks of the source, joined, are the front of the source. */
  lemma {:induction false} JoinedSlices(f: ActiveFile, log: Payloads, content: Bytes, n: nat)
    requires FromSource(log, f.seqNo, content, f.chunkSize)
    requires forall i :: 0 <= i < n ==> (f.seqNo, i) in log
    ensures Joined(f, log, n) == content[..Min(ChunkFiles.Start(f.chunkSize, n), |content|)]
  {
    if n > 0 {
      JoinedSlices(f, log, content, n - 1);
      SliceGrows(content, f.chunkSize, n - 1);
      hide ChunkFiles.Start, Slice;
      assert (f.seqNo, n - 1) in log;
    }
  }

  /** A complete file whose accepted payloads are the chunks of the source holds the source. */
  lemma CompleteIsSource(f: ActiveFile, log: Payloads, content: Bytes)
    requires SoundFile(f, log) && FromSource(log, f.seqNo, content, f.chunkSize)
    requires f.finalSize == |content| && ChunkFiles.Exact(f.finalSize, f.chunkSize) && f.receivedCount == f.chunkCount
    ensures f.temp == content
  {
    CountBounds(f.received);
    CountCovers(f.finalSize, f.chunkSize);
    JoinedIsFront(f, log, f.chunkCount);
    JoinedSlices(f, log, content, f.chunkCount);
    hide Joined, SoundFile, FromSource, ChunkFiles.Start, ChunkCount;
    assert f.temp[..|f.temp|] == f.temp && content[..|content|] == content;
  }
}
