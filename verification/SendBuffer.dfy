/** T_SenderSendBuffer of src/sender/yisync_send_buffer.cpp: the sends that wait for an acknowledgement, and its
    agreement with the scheduler about what a heartbeat completes. */
module SendBuffer {
  import opened Wire
  import opened Messages
  import opened SchedulerSpec

  datatype Key = Key(kind: U8, streamId: U64, fileId: U64, seqNo: U64, offset: U64, chunkIndex: U64)

  datatype Buffered = Buffered(message: Message, request: Send, lastSentTick: U64, retries: nat)

  datatype Sample = Sample(key: Key, request: Send, rttTicks: nat)

  function KeyOf(s: Send): Key { Key(s.kind, s.streamId, s.fileId, s.seqNo, s.offset, s.chunkIndex) }

  type Entries = map<Key, Buffered>

  /** Every entry is filed under the key of its request. */
  predicate Filed(entries: Entries) { forall k <- entries :: KeyOf(entries[k].request) == k }

  function SampleFor(k: Key, b: Buffered, now: U64): Sample {
    Sample(k, b.request, if now >= b.lastSentTick then now - b.lastSentTick else 0)
  }

  /** A heartbeat acknowledges an entry: its seq is passed, or it is DATA and its end is reached. */
  predicate Erases(beat: Beat, k: Key, b: Buffered) {
    && beat.nextSeq != 0 && k.streamId == beat.streamId
    && (k.seqNo < beat.nextSeq ||
        (k.fileId == beat.fileId && k.kind == DATA_SEND && b.request.endOffset != 0
         && (beat.offset >= b.request.endOffset || beat.durableOffset >= b.request.endOffset)))
  }

  function Remaining(entries: Entries, beat: Beat): Entries {
    map k <- entries | !Erases(beat, k, entries[k]) :: entries[k]
  }

  // ---------- Agreement with the scheduler ----------

  lemma {:induction false} SelectedCompletes(sends: seq<Send>, beat: Beat, s: Send)
    requires s in Select(sends, beat, true)
    ensures Completes(beat, s) && s in sends
  {
    hide Completes;
    if sends[0] != s || !Completes(beat, sends[0]) {
      SelectedCompletes(sends[1..], beat, s);
    }
  }

  /** Of the non-chunk sends that a heartbeat makes the scheduler release, the buffer erases exactly those that the
      heartbeat acknowledges with a next_seq, and for DATA not yet passed by it, those that have an end. */
  lemma ReleasedIsErased(line: Line, beat: Beat, s: Send, entries: Entries)
    requires s in Acked(line, Beaten(beat)) && s.kind != CHUNK_SEND
    requires KeyOf(s) in entries && entries[KeyOf(s)].request.endOffset == s.endOffset
    ensures KeyOf(s) !in Remaining(entries, beat) <==>
              beat.nextSeq != 0 && (s.seqNo < beat.nextSeq || s.endOffset != 0)
    ensures s.kind != DATA_SEND ==> KeyOf(s) !in Remaining(entries, beat)
  {
    SelectedCompletes(line.pending, beat, s);
  }

  /** The condition is needed: a DATA send that ends at 0 is released by the first heartbeat of its file, and stays in the
      buffer while its seq is expected. */
  lemma ZeroEndIsKept(line: Line, message: Message)
    requires line.pending == [Send(DATA_SEND, 1, 1, 1, 0, 0, 0, 100)]
    ensures var s := line.pending[0];
      var beat := Heartbeat(1, 1, 1, 0, 0, 0, [], []);
      s in Acked(line, Beaten(beat)) && KeyOf(s) in Remaining(map[KeyOf(s) := Buffered(message, s, 0, 0)], beat)
  {
    assert line.pending[1..] == [];
  }

  // ---------- The entry a NACK is about ----------

  function OrderedKeys(n: NackMessage, seqNo: U64): seq<Key> {
    [Key(CREATE_SEND, n.streamId, n.fileId, seqNo, 0, 0), Key(DATA_SEND, n.streamId, n.fileId, seqNo, n.offset, 0)]
  }

  function BeginKey(n: NackMessage, seqNo: U64): Key { Key(FILE_BEGIN_SEND, n.streamId, n.fileId, seqNo, 0, 0) }

  function CommitKey(n: NackMessage, seqNo: U64): Key { Key(FILE_COMMIT_SEND, n.streamId, n.fileId, seqNo, 0, 0) }

  function ChunkKey(n: NackMessage, seqNo: U64, chunkSize: U64): Key {
    Key(CHUNK_SEND, n.streamId, n.fileId, seqNo, 0, if chunkSize == 0 then 0 else n.offset / chunkSize)
  }

  type NackMessage = m: Message | m.Nack? witness Nack(0, 0, 0, 0, 0, 0, 0, 0, [])

  /** The keys to look for because of the NACK's reason, in order; a seq of 0 is no seq. */
  function ReasonKeys(n: NackMessage, chunkSize: U64): seq<Key> {
    if n.reason == BAD_SEQ then
      if n.expectedSeq == 0 then []
      else OrderedKeys(n, n.expectedSeq)
           + [BeginKey(n, n.expectedSeq), CommitKey(n, n.expectedSeq), ChunkKey(n, n.expectedSeq, chunkSize)]
    else if n.gotSeq == 0 then []
    else if n.reason in [BAD_CHECKSUM, BAD_OFFSET] then [ChunkKey(n, n.gotSeq, chunkSize)] + OrderedKeys(n, n.gotSeq)
    else if n.reason == BAD_CHUNK then [BeginKey(n, n.gotSeq), ChunkKey(n, n.gotSeq, chunkSize)]
    else if n.reason == BAD_COMMIT then [CommitKey(n, n.gotSeq)]
    else []
  }

  /** All keys to look for: those of the reason, then whatever carries the seq that the receiver got. */
  function Candidates(n: NackMessage, chunkSize: U64): seq<Key> {
    if n.fileId == 0 then []
    else ReasonKeys(n, chunkSize) + (OrderedKeys(n, n.gotSeq) + [BeginKey(n, n.gotSeq), CommitKey(n, n.gotSeq)])
         + if n.gotSeq != 0 then [ChunkKey(n, n.gotSeq, chunkSize)] else []
  }

  function FirstIn(keys: seq<Key>, entries: Entries): (r: Option<Key>)
    ensures r.None? ==> forall k <- keys :: k !in entries
    ensures r.Some? ==> exists i :: 0 <= i < |keys| && keys[i] == r.value && r.value in entries
                                    && forall j :: 0 <= j < i ==> keys[j] !in entries
  {
    if keys == [] then None
    else if keys[0] in entries then Some(keys[0])
    else
      var r := FirstIn(keys[1..], entries);
      assert forall j :: 0 < j < |keys| ==> keys[j] == keys[1..][j - 1];
      r
  }

  lemma {:induction false} FirstInAppend(a: seq<Key>, b: seq<Key>, entries: Entries)
    ensures FirstIn(a + b, entries) == if FirstIn(a, entries).Some? then FirstIn(a, entries) else FirstIn(b, entries)
  {
    if a == [] {
      assert a + b == b;
    } else {
      FirstInAppend(a[1..], b, entries);
      assert (a + b)[1..] == a[1..] + b;
    }
  }

  lemma NoneIn(entries: Entries)
    ensures FirstIn([], entries) == None
  {
  }

  lemma FirstOfFour(a: seq<Key>, b: seq<Key>, c: seq<Key>, d: seq<Key>, entries: Entries)
    ensures FirstIn(a + b + c + d, entries) ==
            if FirstIn(a, entries).Some? then FirstIn(a, entries)
            else if FirstIn(b, entries).Some? then FirstIn(b, entries)
            else if FirstIn(c, entries).Some? then FirstIn(c, entries)
            else FirstIn(d, entries)
  {
    FirstInAppend(a + b + c, d, entries);
    FirstInAppend(a + b, c, entries);
    FirstInAppend(a, b, entries);
  }

  /** Every key found for a NACK is buffered and of the NACK's stream and file, and carries one of the NACK's two seqs. */
  lemma NackKeyBelongs(n: NackMessage, chunkSize: U64, entries: Entries)
    requires FirstIn(Candidates(n, chunkSize), entries).Some?
    ensures var k := FirstIn(Candidates(n, chunkSize), entries).value;
      k in entries && k.streamId == n.streamId && k.fileId == n.fileId && (k.seqNo == n.gotSeq || k.seqNo == n.expectedSeq)
  {
    forall k <- Candidates(n, chunkSize)
      ensures k.streamId == n.streamId && k.fileId == n.fileId && (k.seqNo == n.gotSeq || k.seqNo == n.expectedSeq)
    {
      OneOfMany(n, chunkSize, k);
    }
  }

  lemma OneOfMany(n: NackMessage, chunkSize: U64, k: Key)
    requires k in Candidates(n, chunkSize)
    ensures k.streamId == n.streamId && k.fileId == n.fileId && (k.seqNo == n.gotSeq || k.seqNo == n.expectedSeq)
  {
  }

  predicate NoRepeats(queue: seq<Key>) { forall i, j :: 0 <= i < j < |queue| ==> queue[i] != queue[j] }

  class T_SenderSendBuffer {
    var entries: Entries
    var retransmitQueue: seq<Key>

    predicate Valid() reads this { Filed(entries) && NoRepeats(retransmitQueue) }

    constructor ()
      ensures Valid() && entries == map[] && retransmitQueue == []
    {
      entries, retransmitQueue := map[], [];
    }

    method Clear()
      modifies this
      ensures Valid() && entries == map[] && retransmitQueue == []
    {
      entries, retransmitQueue := map[], [];
    }

    method Remember(message: Message, request: Send, now: U64)
      requires Valid()
      modifies this`entries
      ensures Valid() && entries == old(entries)[KeyOf(request) := Buffered(message, request, now, 0)]
    {
      entries := entries[KeyOf(request) := Buffered(message, request, now, 0)];
    }

    /** One sample for each entry that goes. */
    method EraseCompleted(beat: Beat, now: U64) returns (samples: set<Sample>)
      requires Valid()
      modifies this`entries
      ensures Valid() && entries == Remaining(old(entries), beat)
      ensures samples == set k <- old(entries) | Erases(beat, k, old(entries)[k]) :: SampleFor(k, old(entries)[k], now)
    {
      samples := {};
      if beat.nextSeq == 0 {
        return;
      }
      ghost var all := entries;
      var left := entries.Keys;
      while left != {}
        invariant left <= all.Keys
        invariant entries == map k <- all | k in left || !Erases(beat, k, all[k]) :: all[k]
        invariant samples == set k <- all | k !in left && Erases(beat, k, all[k]) :: SampleFor(k, all[k], now)
        decreases left
      {
        var k :| k in left;
        left := left - {k};
        var b := entries[k];
        var acked := k.streamId == beat.streamId && k.seqNo < beat.nextSeq;
        if !acked && k.streamId == beat.streamId && k.fileId == beat.fileId && k.kind == DATA_SEND {
          var end := b.request.endOffset;
          acked := end != 0 && (beat.offset >= end || beat.durableOffset >= end);
        }
        if acked {
          var rtt := if now >= b.lastSentTick then now - b.lastSentTick else 0;
          samples := samples + {Sample(k, b.request, rtt)};
          entries := entries - {k};
        }
      }
    }

    method EraseKey(k: Key, now: U64) returns (sample: Option<Sample>)
      requires Valid()
      modifies this`entries
      ensures Valid() && entries == old(entries) - {k}
      ensures sample == if k in old(entries) then Some(SampleFor(k, old(entries)[k], now)) else None
    {
      if k !in entries {
        return None;
      }
      sample := Some(SampleFor(k, entries[k], now));
      entries := entries - {k};
    }

    method EraseFileBegin(streamId: U64, fileId: U64, seqNo: U64, now: U64) returns (sample: Option<Sample>)
      requires Valid()
      modifies this`entries
      ensures var k := Key(FILE_BEGIN_SEND, streamId, fileId, seqNo, 0, 0);
        && Valid() && entries == old(entries) - {k}
        && sample == if k in old(entries) then Some(SampleFor(k, old(entries)[k], now)) else None
    {
      sample := EraseKey(Key(FILE_BEGIN_SEND, streamId, fileId, seqNo, 0, 0), now);
    }

    method EraseChunk(chunk: ReceivedChunk, streamId: U64, now: U64) returns (sample: Option<Sample>)
      requires Valid()
      modifies this`entries
      ensures var k := Key(CHUNK_SEND, streamId, chunk.fileId, chunk.seqNo, 0, chunk.chunkIndex);
        && Valid() && entries == old(entries) - {k}
        && sample == if k in old(entries) then Some(SampleFor(k, old(entries)[k], now)) else None
    {
      sample := EraseKey(Key(CHUNK_SEND, streamId, chunk.fileId, chunk.seqNo, 0, chunk.chunkIndex), now);
    }

    /** key_for_nack's look-ups, one for each kind of message. */
    method Find(k: Key) returns (r: Option<Key>)
      ensures r == if k in entries then Some(k) else None
    {
      return if k in entries then Some(k) else None;
    }

    method FindOrdered(n: NackMessage, seqNo: U64) returns (r: Option<Key>)
      ensures r == FirstIn(OrderedKeys(n, seqNo), entries)
    {
      r := Find(Key(CREATE_SEND, n.streamId, n.fileId, seqNo, 0, 0));
      if r.None? {
        r := Find(Key(DATA_SEND, n.streamId, n.fileId, seqNo, n.offset, 0));
      }
      assert OrderedKeys(n, seqNo)[1..][1..] == [];
    }

    method FindChunk(n: NackMessage, seqNo: U64, chunkSize: U64) returns (r: Option<Key>)
      ensures r == FirstIn([ChunkKey(n, seqNo, chunkSize)], entries)
    {
      var chunkIndex := if chunkSize == 0 then 0 else n.offset / chunkSize;
      r := Find(Key(CHUNK_SEND, n.streamId, n.fileId, seqNo, 0, chunkIndex));
      assert [ChunkKey(n, seqNo, chunkSize)][1..] == [];
    }

    method FindBegin(n: NackMessage, seqNo: U64) returns (r: Option<Key>)
      ensures r == FirstIn([BeginKey(n, seqNo)], entries)
    {
      r := Find(Key(FILE_BEGIN_SEND, n.streamId, n.fileId, seqNo, 0, 0));
      assert [BeginKey(n, seqNo)][1..] == [];
    }

    method FindCommit(n: NackMessage, seqNo: U64) returns (r: Option<Key>)
      ensures r == FirstIn([CommitKey(n, seqNo)], entries)
    {
      r := Find(Key(FILE_COMMIT_SEND, n.streamId, n.fileId, seqNo, 0, 0));
      assert [CommitKey(n, seqNo)][1..] == [];
    }

    /** The message that the receiver expects. */
    method FindExpected(n: NackMessage, chunkSize: U64) returns (r: Option<Key>)
      requires n.reason == BAD_SEQ
      ensures r == FirstIn(ReasonKeys(n, chunkSize), entries)
    {
      hide FirstIn;
      if n.expectedSeq == 0 {
        NoneIn(entries);
        return None;
      }
      var e := n.expectedSeq;
      FirstOfFour(OrderedKeys(n, e), [BeginKey(n, e)], [CommitKey(n, e)], [ChunkKey(n, e, chunkSize)], entries);
      assert ReasonKeys(n, chunkSize) == OrderedKeys(n, e) + [BeginKey(n, e)] + [CommitKey(n, e)] + [ChunkKey(n, e, chunkSize)];
      r := FindOrdered(n, e);
      if r.None? {
        r := FindBegin(n, e);
      }
      if r.None? {
        r := FindCommit(n, e);
      }
      if r.None? {
        r := FindChunk(n, e, chunkSize);
      }
    }

    /** The message that the receiver got and refused. */
    method FindRefused(n: NackMessage, chunkSize: U64) returns (r: Option<Key>)
      requires n.reason != BAD_SEQ
      ensures r == FirstIn(ReasonKeys(n, chunkSize), entries)
    {
      hide FirstIn;
      NoneIn(entries);
      r := None;
      if n.gotSeq == 0 {
        return;
      }
      if n.reason == BAD_CHECKSUM || n.reason == BAD_OFFSET {
        FirstInAppend([ChunkKey(n, n.gotSeq, chunkSize)], OrderedKeys(n, n.gotSeq), entries);
        r := FindChunk(n, n.gotSeq, chunkSize);
        if r.None? {
          r := FindOrdered(n, n.gotSeq);
        }
      } else if n.reason == BAD_CHUNK {
        FirstInAppend([BeginKey(n, n.gotSeq)], [ChunkKey(n, n.gotSeq, chunkSize)], entries);
        assert [BeginKey(n, n.gotSeq)] + [ChunkKey(n, n.gotSeq, chunkSize)] == ReasonKeys(n, chunkSize);
        r := FindBegin(n, n.gotSeq);
        if r.None? {
          r := FindChunk(n, n.gotSeq, chunkSize);
        }
      } else if n.reason == BAD_COMMIT {
        r := FindCommit(n, n.gotSeq);
      }
    }

    method KeyForNack(n: NackMessage, chunkSize: U64) returns (r: Option<Key>)
      ensures r == FirstIn(Candidates(n, chunkSize), entries)
    {
      hide FirstIn, ReasonKeys;
      NoneIn(entries);
      if n.fileId == 0 {
        return None;
      }
      var byChunk := if n.gotSeq != 0 then [ChunkKey(n, n.gotSeq, chunkSize)] else [];
      FirstInAppend(ReasonKeys(n, chunkSize), OrderedKeys(n, n.gotSeq) + [BeginKey(n, n.gotSeq)] + [CommitKey(n, n.gotSeq)] + byChunk, entries);
      FirstOfFour(OrderedKeys(n, n.gotSeq), [BeginKey(n, n.gotSeq)], [CommitKey(n, n.gotSeq)], byChunk, entries);
      assert Candidates(n, chunkSize) == ReasonKeys(n, chunkSize)
             + (OrderedKeys(n, n.gotSeq) + [BeginKey(n, n.gotSeq)] + [CommitKey(n, n.gotSeq)] + byChunk);
      if n.reason == BAD_SEQ {
        r := FindExpected(n, chunkSize);
      } else {
        r := FindRefused(n, chunkSize);
      }
      if r.None? {
        r := FindOrdered(n, n.gotSeq);
      }
      if r.None? {
        r := FindBegin(n, n.gotSeq);
      }
      if r.None? {
        r := FindCommit(n, n.gotSeq);
      }
      if r.None? && n.gotSeq != 0 {
        r := FindChunk(n, n.gotSeq, chunkSize);
      }
    }

    method EnqueueRetransmit(k: Key) returns (ok: bool)
      requires Valid()
      modifies this`retransmitQueue
      ensures Valid() && ok == (k in entries)
      ensures retransmitQueue == if ok && k !in old(retransmitQueue) then old(retransmitQueue) + [k] else old(retransmitQueue)
    {
      if k !in entries {
        return false;
      }
      if k !in retransmitQueue {
        retransmitQueue := retransmitQueue + [k];
      }
      return true;
    }

    method EnqueueNackRetransmit(n: NackMessage, chunkSize: U64) returns (ok: bool)
      requires Valid()
      modifies this`retransmitQueue
      ensures Valid() && ok == FirstIn(Candidates(n, chunkSize), entries).Some?
      ensures ok ==> FirstIn(Candidates(n, chunkSize), entries).value in retransmitQueue
      ensures !ok ==> retransmitQueue == old(retransmitQueue)
    {
      var k := KeyForNack(n, chunkSize);
      if k.None? {
        return false;
      }
      ok := EnqueueRetransmit(k.value);
    }

    method MarkRetransmitted(k: Key, bytes: U64, now: U64) returns (ok: bool)
      requires Valid()
      modifies this`entries
      ensures Valid() && ok == (k in old(entries))
      ensures entries == if ok then old(entries)[k := old(entries)[k].(request := old(entries)[k].request.(bytes := bytes),
                                                       lastSentTick := now, retries := old(entries)[k].retries + 1)]
                         else old(entries)
    {
      if k !in entries {
        return false;
      }
      var b := entries[k];
      entries := entries[k := b.(request := b.request.(bytes := bytes), lastSentTick := now, retries := b.retries + 1)];
      return true;
    }

    /** At most `maxKeys` expired keys, each once; all of them when there is room. */
    method ExpiredKeys(now: U64, rto: U64, maxKeys: nat) returns (result: seq<Key>)
      ensures rto == 0 || maxKeys == 0 ==> result == []
      ensures |result| <= maxKeys && NoRepeats(result)
      ensures forall k <- result :: k in entries && now >= entries[k].lastSentTick && now - entries[k].lastSentTick >= rto
      ensures 0 < rto && |result| < maxKeys ==>
                forall k <- entries :: now >= entries[k].lastSentTick && now - entries[k].lastSentTick >= rto ==> k in result
    {
      result := [];
      if rto == 0 || maxKeys == 0 {
        return;
      }
      var left := entries.Keys;
      while left != {}
        invariant left <= entries.Keys && |result| < maxKeys && NoRepeats(result)
        invariant forall k <- result :: k in entries && k !in left && now >= entries[k].lastSentTick && now - entries[k].lastSentTick >= rto
        invariant forall k <- entries | k !in left ::
                    now >= entries[k].lastSentTick && now - entries[k].lastSentTick >= rto ==> k in result
        decreases left
      {
        var k :| k in left;
        left := left - {k};
        if now < entries[k].lastSentTick || now - entries[k].lastSentTick < rto {
          continue;
        }
        result := result + [k];
        if |result| >= maxKeys {
          return;
        }
      }
    }

    method EraseRetransmit(index: nat)
      requires Valid()
      modifies this`retransmitQueue
      ensures Valid()
      ensures retransmitQueue == if index < |old(retransmitQueue)|
                                 then old(retransmitQueue)[..index] + old(retransmitQueue)[index + 1..] else old(retransmitQueue)
    {
      if index < |retransmitQueue| {
        retransmitQueue := retransmitQueue[..index] + retransmitQueue[index + 1..];
      }
    }
  }
}
