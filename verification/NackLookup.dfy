/** What a NACK makes the sender send again: key_for_nack of src/sender/yisync_send_buffer.cpp, told by kinds, seqs and
    chunk indices. */
module NackLookup {
  import opened Wire
  import opened Messages
  import opened SchedulerSpec
  import opened SendBuffer
  import opened AppendProtocol
  import opened LateMessages

  function Found(n: NackMessage, chunkSize: U64, entries: Entries): Option<Key> { FirstIn(Candidates(n, chunkSize), entries) }

  // ---------- Whether anything is found ----------

  /** A buffered message may be the one that the NACK is about: of its stream and file, with the seq that was refused or, for
      BAD_SEQ, with the one that is expected; a DATA at the NACK's offset, or the chunk that holds it. */
  predicate MayBeMeant(n: NackMessage, chunkSize: U64, k: Key) {
    && k.streamId == n.streamId && k.fileId == n.fileId
    && (k.seqNo == n.gotSeq || (n.reason == BAD_SEQ && k.seqNo == n.expectedSeq != 0))
    && (k.kind == CHUNK_SEND ==> k.seqNo != 0)
    && (if k.kind == DATA_SEND then k.offset == n.offset && k.chunkIndex == 0
        else if k.kind == CHUNK_SEND then k.offset == 0 && k.chunkIndex == (if chunkSize == 0 then 0 else n.offset / chunkSize)
        else k.kind in [CREATE_SEND, FILE_BEGIN_SEND, FILE_COMMIT_SEND] && k.offset == 0 && k.chunkIndex == 0)
  }

  lemma CandidatesMean(n: NackMessage, chunkSize: U64, k: Key)
    requires n.fileId != 0
    ensures k in Candidates(n, chunkSize) <==> MayBeMeant(n, chunkSize, k)
  {
    if n.reason == BAD_SEQ {
      ExpectedKeys(n, chunkSize, k);
    } else if k in ReasonKeys(n, chunkSize) {
      RefusedKeys(n, chunkSize, k);
    }
    hide ReasonKeys;
    assert k in OrderedKeys(n, n.gotSeq) + [BeginKey(n, n.gotSeq), CommitKey(n, n.gotSeq)] <==>
           k in OrderedKeys(n, n.gotSeq) || k == BeginKey(n, n.gotSeq) || k == CommitKey(n, n.gotSeq);
  }

  lemma ExpectedKeys(n: NackMessage, chunkSize: U64, k: Key)
    requires n.reason == BAD_SEQ
    ensures k in ReasonKeys(n, chunkSize) <==>
              n.expectedSeq != 0 && (k in OrderedKeys(n, n.expectedSeq) || k == BeginKey(n, n.expectedSeq)
                                     || k == CommitKey(n, n.expectedSeq) || k == ChunkKey(n, n.expectedSeq, chunkSize))
  {
  }

  lemma RefusedKeys(n: NackMessage, chunkSize: U64, k: Key)
    requires n.reason != BAD_SEQ && k in ReasonKeys(n, chunkSize)
    ensures n.gotSeq != 0
    ensures k in OrderedKeys(n, n.gotSeq) || k == BeginKey(n, n.gotSeq) || k == CommitKey(n, n.gotSeq)
            || k == ChunkKey(n, n.gotSeq, chunkSize)
  {
  }

  /** Something is found exactly when such a message is buffered. */
  lemma SomethingIsFound(n: NackMessage, chunkSize: U64, entries: Entries)
    ensures Found(n, chunkSize, entries).Some? <==> n.fileId != 0 && exists k <- entries :: MayBeMeant(n, chunkSize, k)
    ensures Found(n, chunkSize, entries).Some? ==> MayBeMeant(n, chunkSize, Found(n, chunkSize, entries).value)
  {
    if n.fileId != 0 {
      hide FirstIn, Candidates, MayBeMeant;
      forall k: Key ensures k in Candidates(n, chunkSize) <==> MayBeMeant(n, chunkSize, k) {
        CandidatesMean(n, chunkSize, k);
      }
    }
  }

  // ---------- Which one ----------

  /** A refused chunk is found by its offset, before anything else; only a BAD_CHUNK looks for the FILE_BEGIN first. */
  lemma RefusedChunkIsFound(n: NackMessage, chunkSize: U64, entries: Entries, i: nat)
    requires n.fileId != 0 && n.gotSeq != 0 && chunkSize > 0 && n.offset == i * chunkSize
    requires n.reason in [BAD_CHECKSUM, BAD_OFFSET, BAD_CHUNK]
    requires i < 0x1_0000_0000_0000_0000 && Key(CHUNK_SEND, n.streamId, n.fileId, n.gotSeq, 0, i) in entries
    ensures var begin := Key(FILE_BEGIN_SEND, n.streamId, n.fileId, n.gotSeq, 0, 0);
      Found(n, chunkSize, entries) ==
      Some(if n.reason == BAD_CHUNK && begin in entries then begin else Key(CHUNK_SEND, n.streamId, n.fileId, n.gotSeq, 0, i))
  {
    IndexOfOffset(i, chunkSize);
    FirstOfReason(n, chunkSize, entries);
    FirstTwo(ReasonKeys(n, chunkSize), entries);
    hide FirstIn, Candidates;
  }

  lemma IndexOfOffset(i: nat, chunkSize: U64)
    requires chunkSize > 0
    ensures i * chunkSize / chunkSize == i
  {
    var q, r := i * chunkSize / chunkSize, i * chunkSize % chunkSize;
    assert i * chunkSize == q * chunkSize + r;
    if q < i {
      AtLeast(i - q, chunkSize);
    } else if q > i {
      AtLeast(q - i, chunkSize);
    }
  }

  lemma AtLeast(a: nat, b: nat)
    requires a > 0
    ensures a * b >= b
  {
  }

  lemma FirstOfReason(n: NackMessage, chunkSize: U64, entries: Entries)
    requires n.fileId != 0
    ensures FirstIn(ReasonKeys(n, chunkSize), entries).Some? ==>
              Found(n, chunkSize, entries) == FirstIn(ReasonKeys(n, chunkSize), entries)
  {
    hide FirstIn, ReasonKeys;
    var rest := OrderedKeys(n, n.gotSeq) + [BeginKey(n, n.gotSeq), CommitKey(n, n.gotSeq)]
                + if n.gotSeq != 0 then [ChunkKey(n, n.gotSeq, chunkSize)] else [];
    assert Candidates(n, chunkSize) == ReasonKeys(n, chunkSize) + rest;
    FirstInAppend(ReasonKeys(n, chunkSize), rest, entries);
  }

  lemma FirstTwo(keys: seq<Key>, entries: Entries)
    requires |keys| >= 1
    ensures keys[0] in entries ==> FirstIn(keys, entries) == Some(keys[0])
    ensures |keys| >= 2 && keys[0] !in entries && keys[1] in entries ==> FirstIn(keys, entries) == Some(keys[1])
    ensures |keys| >= 3 && keys[0] !in entries && keys[1] !in entries && keys[2] in entries ==> FirstIn(keys, entries) == Some(keys[2])
  {
    if |keys| >= 3 {
      assert keys[1..][0] == keys[1] && keys[1..][1..][0] == keys[2];
    }
  }

  /** A DATA refused for its bytes or its offset is found if and only if its CREATE is no longer buffered, and no chunk with
      its seq; the CREATE is found instead of it. */
  lemma RefusedDataIsFound(n: NackMessage, chunkSize: U64, entries: Entries)
    requires n.fileId != 0 && n.gotSeq != 0 && n.reason in [BAD_CHECKSUM, BAD_OFFSET]
    requires Key(DATA_SEND, n.streamId, n.fileId, n.gotSeq, n.offset, 0) in entries
    ensures var data := Key(DATA_SEND, n.streamId, n.fileId, n.gotSeq, n.offset, 0);
      var create := Key(CREATE_SEND, n.streamId, n.fileId, n.gotSeq, 0, 0);
      var chunk := Key(CHUNK_SEND, n.streamId, n.fileId, n.gotSeq, 0, if chunkSize == 0 then 0 else n.offset / chunkSize);
      && (Found(n, chunkSize, entries) == Some(data) <==> create !in entries && chunk !in entries)
      && (create in entries && chunk !in entries ==> Found(n, chunkSize, entries) == Some(create))
  {
    FirstOfReason(n, chunkSize, entries);
    FirstTwo(ReasonKeys(n, chunkSize), entries);
    hide FirstIn, Candidates;
  }

  /** A refused FILE_COMMIT or FILE_BEGIN is found for the reason that only it can meet. */
  lemma RefusedCommitIsFound(n: NackMessage, chunkSize: U64, entries: Entries)
    requires n.fileId != 0 && n.gotSeq != 0
    ensures var commit := Key(FILE_COMMIT_SEND, n.streamId, n.fileId, n.gotSeq, 0, 0);
      n.reason == BAD_COMMIT && commit in entries ==> Found(n, chunkSize, entries) == Some(commit)
    ensures var begin := Key(FILE_BEGIN_SEND, n.streamId, n.fileId, n.gotSeq, 0, 0);
      n.reason == BAD_CHUNK && begin in entries ==> Found(n, chunkSize, entries) == Some(begin)
  {
    if n.reason in [BAD_COMMIT, BAD_CHUNK] {
      FirstOfReason(n, chunkSize, entries);
      FirstTwo(ReasonKeys(n, chunkSize), entries);
      hide FirstIn, Candidates;
    }
  }

  /** A CREATE refused for a reason of its own is found by its seq. */
  lemma RefusedCreateIsFound(n: NackMessage, chunkSize: U64, entries: Entries)
    requires n.fileId != 0 && n.reason !in [BAD_SEQ, BAD_CHECKSUM, BAD_OFFSET, BAD_CHUNK, BAD_COMMIT]
    requires Key(CREATE_SEND, n.streamId, n.fileId, n.gotSeq, 0, 0) in entries
    ensures Found(n, chunkSize, entries) == Some(Key(CREATE_SEND, n.streamId, n.fileId, n.gotSeq, 0, 0))
  {
    assert ReasonKeys(n, chunkSize) == [];
    assert Candidates(n, chunkSize)[0] == Key(CREATE_SEND, n.streamId, n.fileId, n.gotSeq, 0, 0);
    FirstTwo(Candidates(n, chunkSize), entries);
    hide FirstIn;
  }

  /** A BAD_SEQ finds the message that is expected, and of several with that seq the one that comes first in its file. */
  lemma ExpectedIsFound(n: NackMessage, chunkSize: U64, entries: Entries)
    requires n.fileId != 0 && n.reason == BAD_SEQ && n.expectedSeq != 0
    ensures var create, data := Key(CREATE_SEND, n.streamId, n.fileId, n.expectedSeq, 0, 0),
                                Key(DATA_SEND, n.streamId, n.fileId, n.expectedSeq, n.offset, 0);
      var begin := Key(FILE_BEGIN_SEND, n.streamId, n.fileId, n.expectedSeq, 0, 0);
      && (create in entries ==> Found(n, chunkSize, entries) == Some(create))
      && (create !in entries && data in entries ==> Found(n, chunkSize, entries) == Some(data))
      && (create !in entries && data !in entries && begin in entries ==> Found(n, chunkSize, entries) == Some(begin))
  {
    FirstOfReason(n, chunkSize, entries);
    FirstTwo(ReasonKeys(n, chunkSize), entries);
    hide FirstIn, Candidates;
  }

  // ---------- The segment that is not found ----------

  /** No heartbeat takes a CREATE out of the buffer before next_seq has passed it. */
  lemma CreateStaysBuffered(entries: Entries, beat: Beat, k: Key)
    requires k in entries && k.kind == CREATE_SEND
    ensures k in Remaining(entries, beat) <==> k.streamId != beat.streamId || k.seqNo >= beat.nextSeq
  {
  }

  /** The NACK of the first segment of a file, from a receiver that found its checksum wrong. */
  function ChecksumNack(t: AppendProtocol.Task): NackMessage {
    Nack(t.streamId, t.seqNo, t.seqNo, t.fileId, 0, t.fileId, 0, BAD_CHECKSUM, [])
  }

  /** While a file's DATA is outstanding its CREATE is still buffered, for every file that fits one DATA, so the NACK of that
      DATA makes the sender send the CREATE again. */
  lemma NackMissesTheSegment(start: AppendProtocol.World, chunkSize: U64) returns (steps: seq<AppendProtocol.Step>, w: AppendProtocol.World)
    requires Plans(start) && start.task.fileId != 0
    ensures AppendProtocol.Reaches(start, steps, w)
    ensures w.sender.dataSent && SegmentKey(start.task) in w.buffer
    ensures Found(ChecksumNack(start.task), chunkSize, w.buffer) == Some(KeyOf(RequestOf(CreateOf(start.task), 0)))
  {
    hide AppendProtocol.Reaches;
    steps, w := GetsUnderway(start);
    var n, t := ChecksumNack(start.task), start.task;
    assert FirstSegment(t).offset == 0;
    assert forall k <- w.buffer :: k.kind != CHUNK_SEND;
    RefusedDataIsFound(n, chunkSize, w.buffer);
  }
}
