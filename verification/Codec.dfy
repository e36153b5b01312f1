/** Bodies written by a Writer and read by a Reader: encode_body, the write_ and read_ helpers and the decode_ functions of
    src/core/yisync_protocol.cpp. The ghost argument `t` of a writer stands for the bytes that come later. */
module Codec {
  import opened Wire
  import opened Messages

  lemma Regroup()
    ensures forall a: Bytes, b: Bytes, c: Bytes {:trigger (a + b) + c} :: (a + b) + c == a + (b + c)
    ensures forall a: Bytes :: a + [] == a
  {
    forall a: Bytes, b: Bytes, c: Bytes ensures (a + b) + c == a + (b + c) {}
    forall a: Bytes ensures a + [] == a {}
  }

  // ---------- Writing ----------

  /** Three 64-bit fields, such as the stream, seq and file id that most messages begin with. */
  method WriteThree(w: Writer, a: U64, b: U64, c: U64)
    modifies w
    ensures forall t ::
              w.out + t == old(w.out) + (Le64(a) + (Le64(b) + (Le64(c) + t)))
  {
    hide Le8, Le16, Le32, Le64, Counted;
    Regroup();
    w.U64(a);
    w.U64(b);
    w.U64(c);
  }

  /** Two 64-bit fields. */
  method WriteTwo(w: Writer, a: U64, b: U64)
    modifies w
    ensures forall t ::
              w.out + t == old(w.out) + (Le64(a) + (Le64(b) + t))
  {
    hide Le8, Le16, Le32, Le64, Counted;
    Regroup();
    w.U64(a);
    w.U64(b);
  }

  /** The two lengths of DATA and CHUNK. */
  method WriteLengths(w: Writer, rawLen: U32, payloadLen: U32)
    modifies w
    ensures forall t ::
              w.out + t == old(w.out) + (Le32(rawLen) + (Le32(payloadLen) + t))
  {
    hide Le8, Le16, Le32, Le64, Counted;
    Regroup();
    w.U32(rawLen);
    w.U32(payloadLen);
  }

  /** The fields that DATA and CHUNK end with. */
  method WritePayload(w: Writer, compression: U8, checksumAlgo: U8, checksum: Blob, payload: Blob)
    modifies w
    ensures forall t ::
              w.out + t == old(w.out) + (Le8(compression) + (Le8(checksumAlgo) + (Counted(checksum) + (Counted(payload) + t))))
  {
    hide Le8, Le16, Le32, Le64, Counted;
    Regroup();
    w.U8(compression);
    w.U8(checksumAlgo);
    w.String(checksum);
    w.String(payload);
  }

  /** The versions and features of a HELLO. */
  method WriteVersions(w: Writer, minVersion: U16, maxVersion: U16, features: U64, requiredFeatures: U64)
    modifies w
    ensures forall t ::
              w.out + t == old(w.out) + (Le16(minVersion) + (Le16(maxVersion) + (Le64(features) + (Le64(requiredFeatures) + t))))
  {
    hide Le8, Le16, Le32, Le64, Counted;
    Regroup();
    w.U16(minVersion);
    w.U16(maxVersion);
    w.U64(features);
    w.U64(requiredFeatures);
  }

  /** The limits of a HELLO. */
  method WriteLimits(w: Writer, maxChunk: U32, maxInflight: U64)
    modifies w
    ensures forall t ::
              w.out + t == old(w.out) + (Le32(maxChunk) + (Le64(maxInflight) + t))
  {
    hide Le8, Le16, Le32, Le64, Counted;
    Regroup();
    w.U32(maxChunk);
    w.U64(maxInflight);
  }

  /** The sender of a HELLO. */
  method WriteNode(w: Writer, nodeId: Blob, role: U8)
    modifies w
    ensures forall t ::
              w.out + t == old(w.out) + (Counted(nodeId) + (Le8(role) + t))
  {
    hide Le8, Le16, Le32, Le64, Counted;
    Regroup();
    w.String(nodeId);
    w.U8(role);
  }

  /** What a CREATE makes. */
  method WriteNames(w: Writer, kind: U8, name: Blob, linkTarget: Blob)
    modifies w
    ensures forall t ::
              w.out + t == old(w.out) + (Le8(kind) + (Counted(name) + (Counted(linkTarget) + t)))
  {
    hide Le8, Le16, Le32, Le64, Counted;
    Regroup();
    w.U8(kind);
    w.String(name);
    w.String(linkTarget);
  }

  /** The end of a NACK. */
  method WriteReason(w: Writer, reason: U8, detail: Blob)
    modifies w
    ensures forall t ::
              w.out + t == old(w.out) + (Le8(reason) + (Counted(detail) + t))
  {
    hide Le8, Le16, Le32, Le64, Counted;
    Regroup();
    w.U8(reason);
    w.String(detail);
  }

  method WriteChecksum(w: Writer, c: Checksum, ghost t: Bytes)
    modifies w
    ensures w.out + t == old(w.out) + PutChecksum(c, t)
  {
    hide Le8, Le16, Le32, Le64, Counted, PutList;
    Regroup();
    w.U8(c.algo);
    w.U64(c.offset);
    w.U64(c.len);
    w.String(c.value);
  }

  method WriteU8List(w: Writer, xs: Few<U8>, ghost t: Bytes)
    modifies w
    ensures w.out + t == old(w.out) + PutList(PutU8, xs, t)
  {
    hide Le8, Le32;
    Regroup();
    w.U32(|xs|);
    ghost var whole := old(w.out) + PutList(PutU8, xs, t);
    for i := 0 to |xs|
      invariant w.out + PutMany(PutU8, xs[i..], t) == whole
    {
      assert xs[i..][0] == xs[i] && xs[i..][1..] == xs[i + 1..];
      w.U8(xs[i]);
    }
  }

  method WriteEntry(w: Writer, e: Entry, ghost t: Bytes)
    modifies w
    ensures w.out + t == old(w.out) + PutEntry(e, t)
  {
    hide Le8, Le16, Le32, Le64, Counted, PutList, PutChecksum;
    Regroup();
    WriteTwo(w, e.fileId, e.seqNo);
    WriteNames(w, e.kind, e.name, e.linkTarget);
    w.U64(e.size);
    WriteChecksum(w, e.checksum, t);
  }

  method WriteEntryList(w: Writer, xs: Few<Entry>, ghost t: Bytes)
    modifies w
    ensures w.out + t == old(w.out) + PutList(PutEntry, xs, t)
  {
    hide Le8, Le32, PutEntry;
    Regroup();
    w.U32(|xs|);
    ghost var whole := old(w.out) + PutList(PutEntry, xs, t);
    for i := 0 to |xs|
      invariant w.out + PutMany(PutEntry, xs[i..], t) == whole
    {
      assert xs[i..][0] == xs[i] && xs[i..][1..] == xs[i + 1..];
      WriteEntry(w, xs[i], PutMany(PutEntry, xs[i + 1..], t));
    }
  }

  method WriteEntryStream(w: Writer, s: EntryStream, ghost t: Bytes)
    modifies w
    ensures w.out + t == old(w.out) + PutEntryStream(s, t)
  {
    hide Le8, Le16, Le32, Le64, Counted, PutList, PutChecksum;
    Regroup();
    w.U64(s.streamId);
    w.String(s.root);
    WriteEntryList(w, s.entries, t);
  }

  method WriteEntryStreamList(w: Writer, xs: Few<EntryStream>, ghost t: Bytes)
    modifies w
    ensures w.out + t == old(w.out) + PutList(PutEntryStream, xs, t)
  {
    hide Le8, Le32, PutEntryStream;
    Regroup();
    w.U32(|xs|);
    ghost var whole := old(w.out) + PutList(PutEntryStream, xs, t);
    for i := 0 to |xs|
      invariant w.out + PutMany(PutEntryStream, xs[i..], t) == whole
    {
      assert xs[i..][0] == xs[i] && xs[i..][1..] == xs[i + 1..];
      WriteEntryStream(w, xs[i], PutMany(PutEntryStream, xs[i + 1..], t));
    }
  }

  method WritePlanStream(w: Writer, p: PlanStream, ghost t: Bytes)
    modifies w
    ensures w.out + t == old(w.out) + PutPlanStream(p, t)
  {
    hide Le8, Le16, Le32, Le64, Counted, PutList, PutChecksum;
    Regroup();
    w.U64(p.streamId);
    w.U8(p.action);
    w.U64(p.startFileId);
    w.U64(p.startOffset);
  }

  method WritePlanStreamList(w: Writer, xs: Few<PlanStream>, ghost t: Bytes)
    modifies w
    ensures w.out + t == old(w.out) + PutList(PutPlanStream, xs, t)
  {
    hide Le8, Le32, PutPlanStream;
    Regroup();
    w.U32(|xs|);
    ghost var whole := old(w.out) + PutList(PutPlanStream, xs, t);
    for i := 0 to |xs|
      invariant w.out + PutMany(PutPlanStream, xs[i..], t) == whole
    {
      assert xs[i..][0] == xs[i] && xs[i..][1..] == xs[i + 1..];
      WritePlanStream(w, xs[i], PutMany(PutPlanStream, xs[i + 1..], t));
    }
  }

  method WriteReceived(w: Writer, c: ReceivedChunk, ghost t: Bytes)
    modifies w
    ensures w.out + t == old(w.out) + PutReceived(c, t)
  {
    hide Le8, Le16, Le32, Le64, Counted, PutList, PutChecksum;
    Regroup();
    w.U64(c.seqNo);
    w.U64(c.fileId);
    w.U64(c.chunkIndex);
  }

  method WriteReceivedList(w: Writer, xs: Few<ReceivedChunk>, ghost t: Bytes)
    modifies w
    ensures w.out + t == old(w.out) + PutList(PutReceived, xs, t)
  {
    hide Le8, Le32, PutReceived;
    Regroup();
    w.U32(|xs|);
    ghost var whole := old(w.out) + PutList(PutReceived, xs, t);
    for i := 0 to |xs|
      invariant w.out + PutMany(PutReceived, xs[i..], t) == whole
    {
      assert xs[i..][0] == xs[i] && xs[i..][1..] == xs[i + 1..];
      WriteReceived(w, xs[i], PutMany(PutReceived, xs[i + 1..], t));
    }
  }

  method WriteMissing(w: Writer, g: MissingRange, ghost t: Bytes)
    modifies w
    ensures w.out + t == old(w.out) + PutMissing(g, t)
  {
    hide Le8, Le16, Le32, Le64, Counted, PutList, PutChecksum;
    Regroup();
    w.U64(g.seqNo);
    w.U64(g.fileId);
    w.U64(g.first);
    w.U64(g.last);
  }

  method WriteMissingList(w: Writer, xs: Few<MissingRange>, ghost t: Bytes)
    modifies w
    ensures w.out + t == old(w.out) + PutList(PutMissing, xs, t)
  {
    hide Le8, Le32, PutMissing;
    Regroup();
    w.U32(|xs|);
    ghost var whole := old(w.out) + PutList(PutMissing, xs, t);
    for i := 0 to |xs|
      invariant w.out + PutMany(PutMissing, xs[i..], t) == whole
    {
      assert xs[i..][0] == xs[i] && xs[i..][1..] == xs[i + 1..];
      WriteMissing(w, xs[i], PutMany(PutMissing, xs[i + 1..], t));
    }
  }

  method WriteHello(w: Writer, m: Message)
    requires m.Hello?
    modifies w
    ensures w.out == old(w.out) + PutHello(m, [])
  {
    hide Le8, Le16, Le32, Le64, Counted, PutList, PutChecksum;
    Regroup();
    WriteNode(w, m.nodeId, m.role);
    WriteVersions(w, m.minVersion, m.maxVersion, m.features, m.requiredFeatures);
    WriteLimits(w, m.maxChunk, m.maxInflight);
    WriteU8List(w, m.compressions, PutList(PutU8, m.checksums, []));
    WriteU8List(w, m.checksums, []);
    assert w.out + [] == w.out;
  }

  method WriteManifest1(w: Writer, m: Message)
    requires m.Manifest1?
    modifies w
    ensures w.out == old(w.out) + PutManifest1(m, [])
  {
    hide Le8, Le16, Le32, Le64, Counted, PutList, PutChecksum;
    Regroup();
    w.U64(m.manifestId);
    WriteEntryStreamList(w, m.entryStreams, []);
    assert w.out + [] == w.out;
  }

  method WriteManifest2(w: Writer, m: Message)
    requires m.Manifest2?
    modifies w
    ensures w.out == old(w.out) + PutManifest2(m, [])
  {
    hide Le8, Le16, Le32, Le64, Counted, PutList, PutChecksum;
    Regroup();
    w.U64(m.manifestId);
    WritePlanStreamList(w, m.planStreams, []);
    assert w.out + [] == w.out;
  }

  method WriteCreate(w: Writer, m: Message)
    requires m.Create?
    modifies w
    ensures w.out == old(w.out) + PutCreate(m, [])
  {
    hide Le8, Le16, Le32, Le64, Counted, PutList, PutChecksum;
    Regroup();
    WriteThree(w, m.streamId, m.seqNo, m.fileId);
    WriteNames(w, m.kind, m.name, m.linkTarget);
    WriteThree(w, m.finalSize, m.prevFileId, m.prevFinalSize);
    WriteChecksum(w, m.prevChecksum, []);
    assert w.out + [] == w.out;
  }

  method WriteData(w: Writer, m: Message)
    requires m.Data?
    modifies w
    ensures w.out == old(w.out) + PutData(m, [])
  {
    hide Le8, Le16, Le32, Le64, Counted, PutList, PutChecksum;
    Regroup();
    WriteThree(w, m.streamId, m.seqNo, m.fileId);
    WriteTwo(w, m.offset, m.finalSize);
    WriteLengths(w, m.rawLen, |m.payload|);
    WritePayload(w, m.compression, m.checksumAlgo, m.checksum, m.payload);
    assert w.out + [] == w.out;
  }

  method WriteFileBegin(w: Writer, m: Message)
    requires m.FileBegin?
    modifies w
    ensures w.out == old(w.out) + PutFileBegin(m, [])
  {
    hide Le8, Le16, Le32, Le64, Counted, PutList, PutChecksum;
    Regroup();
    WriteThree(w, m.streamId, m.seqNo, m.fileId);
    w.String(m.name);
    WriteThree(w, m.finalSize, m.chunkSize, m.chunkCount);
    WriteChecksum(w, m.fileChecksum, Le64(m.prevFileId) + (Le64(m.prevFinalSize) + PutChecksum(m.prevChecksum, [])));
    WriteTwo(w, m.prevFileId, m.prevFinalSize);
    WriteChecksum(w, m.prevChecksum, []);
    assert w.out + [] == w.out;
  }

  method WriteChunk(w: Writer, m: Message)
    requires m.Chunk?
    modifies w
    ensures w.out == old(w.out) + PutChunk(m, [])
  {
    hide Le8, Le16, Le32, Le64, Counted, PutList, PutChecksum;
    Regroup();
    WriteThree(w, m.streamId, m.seqNo, m.fileId);
    WriteTwo(w, m.chunkIndex, m.offset);
    WriteLengths(w, m.rawLen, |m.payload|);
    WritePayload(w, m.compression, m.checksumAlgo, m.checksum, m.payload);
    assert w.out + [] == w.out;
  }

  method WriteFileCommit(w: Writer, m: Message)
    requires m.FileCommit?
    modifies w
    ensures w.out == old(w.out) + PutFileCommit(m, [])
  {
    hide Le8, Le16, Le32, Le64, Counted, PutList, PutChecksum;
    Regroup();
    WriteThree(w, m.streamId, m.seqNo, m.fileId);
    assert w.out + [] == w.out;
  }

  method WriteHeartbeat(w: Writer, m: Message)
    requires m.Heartbeat?
    modifies w
    ensures w.out == old(w.out) + PutHeartbeat(m, [])
  {
    hide Le8, Le16, Le32, Le64, Counted, PutList, PutChecksum;
    Regroup();
    WriteThree(w, m.streamId, m.nextSeq, m.fileId);
    WriteThree(w, m.offset, m.durableOffset, m.window);
    WriteReceivedList(w, m.received, PutList(PutMissing, m.missing, []));
    WriteMissingList(w, m.missing, []);
    assert w.out + [] == w.out;
  }

  method WriteNack(w: Writer, m: Message)
    requires m.Nack?
    modifies w
    ensures w.out == old(w.out) + PutNack(m, [])
  {
    hide Le8, Le16, Le32, Le64, Counted, PutList, PutChecksum;
    Regroup();
    WriteThree(w, m.streamId, m.gotSeq, m.expectedSeq);
    WriteThree(w, m.fileId, m.offset, m.expectedFileId);
    w.U64(m.expectedOffset);
    WriteReason(w, m.reason, m.detail);
    assert w.out + [] == w.out;
  }

  method EncodeBody(m: Message) returns (body: Bytes)
    ensures body == PutBody(m, [])
  {
    hide PutHello, PutManifest1, PutManifest2, PutCreate, PutData, PutFileBegin, PutChunk, PutFileCommit, PutHeartbeat, PutNack;
    Regroup();
    var w := new Writer();
    if m.Hello? {
      WriteHello(w, m);
    } else if m.Manifest1? {
      WriteManifest1(w, m);
    } else if m.Manifest2? {
      WriteManifest2(w, m);
    } else if m.Create? {
      WriteCreate(w, m);
    } else if m.Data? {
      WriteData(w, m);
    } else if m.FileBegin? {
      WriteFileBegin(w, m);
    } else if m.Chunk? {
      WriteChunk(w, m);
    } else if m.FileCommit? {
      WriteFileCommit(w, m);
    } else if m.Heartbeat? {
      WriteHeartbeat(w, m);
    } else {
      WriteNack(w, m);
    }
    return w.out;
  }

  // ---------- Reading ----------

  /** The reader did what the parser says: none for a failure, else the value, with the rest still to be read. */
  predicate Took<T(==)>(parsed: Parsed<T>, x: Option<T>, rest: Bytes) {
    match parsed case Fail => x == None case Got(v, later) => x == Some(v) && rest == later
  }

  /** What is parsed after `xs`, with `xs` in front. */
  function Prepend<T>(xs: seq<T>, later: Parsed<seq<T>>): Parsed<seq<T>> {
    match later case Fail => Fail case Got(ys, rest) => Got(xs + ys, rest)
  }

  lemma PrependNothing<T>(later: Parsed<seq<T>>)
    ensures Prepend([], later) == later
  {
    if later.Got? {
      assert [] + later.value == later.value;
    }
  }

  lemma PrependOne<T>(xs: seq<T>, one: T, later: Parsed<seq<T>>)
    ensures Prepend(xs + [one], later) == Prepend(xs, Prepend([one], later))
  {
    if later.Got? {
      assert (xs + [one]) + later.value == xs + ([one] + later.value);
    }
  }

  method ReadChecksum(r: Reader) returns (x: Option<Checksum>)
    requires r.Valid()
    modifies r`pos
    ensures r.Valid() && Took(TakeChecksum(old(r.Rest())), x, r.Rest())
  {
    hide TakeU8, TakeU16, TakeU32, TakeU64, TakeBlob, TakeList;
    var algo :- r.U8();
    var offset :- r.U64();
    var len :- r.U64();
    var value :- r.String();
    return Some(Checksum(algo, offset, len, value));
  }

  method ReadU8List(r: Reader) returns (x: Option<Few<U8>>)
    requires r.Valid()
    modifies r`pos
    ensures r.Valid() && Took(TakeList(TakeU8, old(r.Rest())), x, r.Rest())
  {
    hide TakeU32, TakeU8;
    var count :- r.U32();
    ghost var all := TakeMany(TakeU8, count, r.Rest());
    var xs: seq<U8> := [];
    PrependNothing(all);
    for i := 0 to count
      invariant r.Valid() && |xs| == i
      invariant all == Prepend(xs, TakeMany(TakeU8, count - i, r.Rest()))
    {
      var one :- r.U8();
      PrependOne(xs, one, TakeMany(TakeU8, count - i - 1, r.Rest()));
      xs := xs + [one];
    }
    assert xs + [] == xs;
    return Some(xs);
  }

  method ReadEntry(r: Reader) returns (x: Option<Entry>)
    requires r.Valid()
    modifies r`pos
    ensures r.Valid() && Took(TakeEntry(old(r.Rest())), x, r.Rest())
  {
    hide TakeU8, TakeU16, TakeU32, TakeU64, TakeBlob, TakeList, TakeChecksum;
    var fileId :- r.U64();
    var seqNo :- r.U64();
    var kind :- r.U8();
    var name :- r.String();
    var linkTarget :- r.String();
    var size :- r.U64();
    var checksum :- ReadChecksum(r);
    return Some(Entry(fileId, seqNo, kind, name, linkTarget, size, checksum));
  }

  method ReadEntryList(r: Reader) returns (x: Option<Few<Entry>>)
    requires r.Valid()
    modifies r`pos
    ensures r.Valid() && Took(TakeList(TakeEntry, old(r.Rest())), x, r.Rest())
  {
    hide TakeU32, TakeEntry;
    var count :- r.U32();
    ghost var all := TakeMany(TakeEntry, count, r.Rest());
    var xs: seq<Entry> := [];
    PrependNothing(all);
    for i := 0 to count
      invariant r.Valid() && |xs| == i
      invariant all == Prepend(xs, TakeMany(TakeEntry, count - i, r.Rest()))
    {
      var one :- ReadEntry(r);
      PrependOne(xs, one, TakeMany(TakeEntry, count - i - 1, r.Rest()));
      xs := xs + [one];
    }
    assert xs + [] == xs;
    return Some(xs);
  }

  method ReadEntryStream(r: Reader) returns (x: Option<EntryStream>)
    requires r.Valid()
    modifies r`pos
    ensures r.Valid() && Took(TakeEntryStream(old(r.Rest())), x, r.Rest())
  {
    hide TakeU8, TakeU16, TakeU32, TakeU64, TakeBlob, TakeList, TakeChecksum;
    var streamId :- r.U64();
    var root :- r.String();
    var entries :- ReadEntryList(r);
    return Some(EntryStream(streamId, root, entries));
  }

  method ReadEntryStreamList(r: Reader) returns (x: Option<Few<EntryStream>>)
    requires r.Valid()
    modifies r`pos
    ensures r.Valid() && Took(TakeList(TakeEntryStream, old(r.Rest())), x, r.Rest())
  {
    hide TakeU32, TakeEntryStream;
    var count :- r.U32();
    ghost var all := TakeMany(TakeEntryStream, count, r.Rest());
    var xs: seq<EntryStream> := [];
    PrependNothing(all);
    for i := 0 to count
      invariant r.Valid() && |xs| == i
      invariant all == Prepend(xs, TakeMany(TakeEntryStream, count - i, r.Rest()))
    {
      var one :- ReadEntryStream(r);
      PrependOne(xs, one, TakeMany(TakeEntryStream, count - i - 1, r.Rest()));
      xs := xs + [one];
    }
    assert xs + [] == xs;
    return Some(xs);
  }

  method ReadPlanStream(r: Reader) returns (x: Option<PlanStream>)
    requires r.Valid()
    modifies r`pos
    ensures r.Valid() && Took(TakePlanStream(old(r.Rest())), x, r.Rest())
  {
    hide TakeU8, TakeU16, TakeU32, TakeU64, TakeBlob, TakeList, TakeChecksum;
    var streamId :- r.U64();
    var action :- r.U8();
    var startFileId :- r.U64();
    var startOffset :- r.U64();
    return Some(PlanStream(streamId, action, startFileId, startOffset));
  }

  method ReadPlanStreamList(r: Reader) returns (x: Option<Few<PlanStream>>)
    requires r.Valid()
    modifies r`pos
    ensures r.Valid() && Took(TakeList(TakePlanStream, old(r.Rest())), x, r.Rest())
  {
    hide TakeU32, TakePlanStream;
    var count :- r.U32();
    ghost var all := TakeMany(TakePlanStream, count, r.Rest());
    var xs: seq<PlanStream> := [];
    PrependNothing(all);
    for i := 0 to count
      invariant r.Valid() && |xs| == i
      invariant all == Prepend(xs, TakeMany(TakePlanStream, count - i, r.Rest()))
    {
      var one :- ReadPlanStream(r);
      PrependOne(xs, one, TakeMany(TakePlanStream, count - i - 1, r.Rest()));
      xs := xs + [one];
    }
    assert xs + [] == xs;
    return Some(xs);
  }

  method ReadReceived(r: Reader) returns (x: Option<ReceivedChunk>)
    requires r.Valid()
    modifies r`pos
    ensures r.Valid() && Took(TakeReceived(old(r.Rest())), x, r.Rest())
  {
    hide TakeU8, TakeU16, TakeU32, TakeU64, TakeBlob, TakeList, TakeChecksum;
    var seqNo :- r.U64();
    var fileId :- r.U64();
    var chunkIndex :- r.U64();
    return Some(ReceivedChunk(seqNo, fileId, chunkIndex));
  }

  method ReadReceivedList(r: Reader) returns (x: Option<Few<ReceivedChunk>>)
    requires r.Valid()
    modifies r`pos
    ensures r.Valid() && Took(TakeList(TakeReceived, old(r.Rest())), x, r.Rest())
  {
    hide TakeU32, TakeReceived;
    var count :- r.U32();
    ghost var all := TakeMany(TakeReceived, count, r.Rest());
    var xs: seq<ReceivedChunk> := [];
    PrependNothing(all);
    for i := 0 to count
      invariant r.Valid() && |xs| == i
      invariant all == Prepend(xs, TakeMany(TakeReceived, count - i, r.Rest()))
    {
      var one :- ReadReceived(r);
      PrependOne(xs, one, TakeMany(TakeReceived, count - i - 1, r.Rest()));
      xs := xs + [one];
    }
    assert xs + [] == xs;
    return Some(xs);
  }

  method ReadMissing(r: Reader) returns (x: Option<MissingRange>)
    requires r.Valid()
    modifies r`pos
    ensures r.Valid() && Took(TakeMissing(old(r.Rest())), x, r.Rest())
  {
    hide TakeU8, TakeU16, TakeU32, TakeU64, TakeBlob, TakeList, TakeChecksum;
    var seqNo :- r.U64();
    var fileId :- r.U64();
    var first :- r.U64();
    var last :- r.U64();
    return Some(MissingRange(seqNo, fileId, first, last));
  }

  method ReadMissingList(r: Reader) returns (x: Option<Few<MissingRange>>)
    requires r.Valid()
    modifies r`pos
    ensures r.Valid() && Took(TakeList(TakeMissing, old(r.Rest())), x, r.Rest())
  {
    hide TakeU32, TakeMissing;
    var count :- r.U32();
    ghost var all := TakeMany(TakeMissing, count, r.Rest());
    var xs: seq<MissingRange> := [];
    PrependNothing(all);
    for i := 0 to count
      invariant r.Valid() && |xs| == i
      invariant all == Prepend(xs, TakeMany(TakeMissing, count - i, r.Rest()))
    {
      var one :- ReadMissing(r);
      PrependOne(xs, one, TakeMany(TakeMissing, count - i - 1, r.Rest()));
      xs := xs + [one];
    }
    assert xs + [] == xs;
    return Some(xs);
  }

  method ReadHello(r: Reader) returns (x: Option<Message>)
    requires r.Valid()
    modifies r`pos
    ensures r.Valid() && Took(TakeHello(old(r.Rest())), x, r.Rest())
  {
    hide TakeU8, TakeU16, TakeU32, TakeU64, TakeBlob, TakeList, TakeChecksum;
    var nodeId :- r.String();
    var role :- r.U8();
    var minVersion :- r.U16();
    var maxVersion :- r.U16();
    var features :- r.U64();
    var requiredFeatures :- r.U64();
    var maxChunk :- r.U32();
    var maxInflight :- r.U64();
    var compressions :- ReadU8List(r);
    var checksums :- ReadU8List(r);
    return Some(Hello(nodeId, role, minVersion, maxVersion, features,
                       requiredFeatures, maxChunk, maxInflight, compressions, checksums));
  }

  method ReadManifest1(r: Reader) returns (x: Option<Message>)
    requires r.Valid()
    modifies r`pos
    ensures r.Valid() && Took(TakeManifest1(old(r.Rest())), x, r.Rest())
  {
    hide TakeU8, TakeU16, TakeU32, TakeU64, TakeBlob, TakeList, TakeChecksum;
    var manifestId :- r.U64();
    var entryStreams :- ReadEntryStreamList(r);
    return Some(Manifest1(manifestId, entryStreams));
  }

  method ReadManifest2(r: Reader) returns (x: Option<Message>)
    requires r.Valid()
    modifies r`pos
    ensures r.Valid() && Took(TakeManifest2(old(r.Rest())), x, r.Rest())
  {
    hide TakeU8, TakeU16, TakeU32, TakeU64, TakeBlob, TakeList, TakeChecksum;
    var manifestId :- r.U64();
    var planStreams :- ReadPlanStreamList(r);
    return Some(Manifest2(manifestId, planStreams));
  }

  method ReadCreate(r: Reader) returns (x: Option<Message>)
    requires r.Valid()
    modifies r`pos
    ensures r.Valid() && Took(TakeCreate(old(r.Rest())), x, r.Rest())
  {
    hide TakeU8, TakeU16, TakeU32, TakeU64, TakeBlob, TakeList, TakeChecksum;
    var streamId :- r.U64();
    var seqNo :- r.U64();
    var fileId :- r.U64();
    var kind :- r.U8();
    var name :- r.String();
    var linkTarget :- r.String();
    var finalSize :- r.U64();
    var prevFileId :- r.U64();
    var prevFinalSize :- r.U64();
    var prevChecksum :- ReadChecksum(r);
    return Some(Create(streamId, seqNo, fileId, kind, name,
                        linkTarget, finalSize, prevFileId, prevFinalSize, prevChecksum));
  }

  method ReadData(r: Reader) returns (x: Option<Message>)
    requires r.Valid()
    modifies r`pos
    ensures r.Valid() && Took(TakeData(old(r.Rest())), x, r.Rest())
  {
    hide TakeU8, TakeU16, TakeU32, TakeU64, TakeBlob, TakeList, TakeChecksum;
    var streamId :- r.U64();
    var seqNo :- r.U64();
    var fileId :- r.U64();
    var offset :- r.U64();
    var finalSize :- r.U64();
    var rawLen :- r.U32();
    var payloadLen :- r.U32();
    var compression :- r.U8();
    var checksumAlgo :- r.U8();
    var checksum :- r.String();
    var payload :- r.String();
    if |payload| != payloadLen {
      return None;
    }
    return Some(Data(streamId, seqNo, fileId, offset, finalSize,
                      rawLen, compression, checksumAlgo, checksum, payload));
  }

  method ReadFileBegin(r: Reader) returns (x: Option<Message>)
    requires r.Valid()
    modifies r`pos
    ensures r.Valid() && Took(TakeFileBegin(old(r.Rest())), x, r.Rest())
  {
    hide TakeU8, TakeU16, TakeU32, TakeU64, TakeBlob, TakeList, TakeChecksum;
    var streamId :- r.U64();
    var seqNo :- r.U64();
    var fileId :- r.U64();
    var name :- r.String();
    var finalSize :- r.U64();
    var chunkSize :- r.U64();
    var chunkCount :- r.U64();
    var fileChecksum :- ReadChecksum(r);
    var prevFileId :- r.U64();
    var prevFinalSize :- r.U64();
    var prevChecksum :- ReadChecksum(r);
    return Some(FileBegin(streamId, seqNo, fileId, name, finalSize,
                           chunkSize, chunkCount, fileChecksum, prevFileId, prevFinalSize, prevChecksum));
  }

  method ReadChunk(r: Reader) returns (x: Option<Message>)
    requires r.Valid()
    modifies r`pos
    ensures r.Valid() && Took(TakeChunk(old(r.Rest())), x, r.Rest())
  {
    hide TakeU8, TakeU16, TakeU32, TakeU64, TakeBlob, TakeList, TakeChecksum;
    var streamId :- r.U64();
    var seqNo :- r.U64();
    var fileId :- r.U64();
    var chunkIndex :- r.U64();
    var offset :- r.U64();
    var rawLen :- r.U32();
    var payloadLen :- r.U32();
    var compression :- r.U8();
    var checksumAlgo :- r.U8();
    var checksum :- r.String();
    var payload :- r.String();
    if |payload| != payloadLen {
      return None;
    }
    return Some(Chunk(streamId, seqNo, fileId, chunkIndex, offset,
                       rawLen, compression, checksumAlgo, checksum, payload));
  }

  method ReadFileCommit(r: Reader) returns (x: Option<Message>)
    requires r.Valid()
    modifies r`pos
    ensures r.Valid() && Took(TakeFileCommit(old(r.Rest())), x, r.Rest())
  {
    hide TakeU8, TakeU16, TakeU32, TakeU64, TakeBlob, TakeList, TakeChecksum;
    var streamId :- r.U64();
    var seqNo :- r.U64();
    var fileId :- r.U64();
    return Some(FileCommit(streamId, seqNo, fileId));
  }

  method ReadHeartbeat(r: Reader) returns (x: Option<Message>)
    requires r.Valid()
    modifies r`pos
    ensures r.Valid() && Took(TakeHeartbeat(old(r.Rest())), x, r.Rest())
  {
    hide TakeU8, TakeU16, TakeU32, TakeU64, TakeBlob, TakeList, TakeChecksum;
    var streamId :- r.U64();
    var nextSeq :- r.U64();
    var fileId :- r.U64();
    var offset :- r.U64();
    var durableOffset :- r.U64();
    var window :- r.U64();
    var received :- ReadReceivedList(r);
    var missing :- ReadMissingList(r);
    return Some(Heartbeat(streamId, nextSeq, fileId, offset, durableOffset, window, received, missing));
  }

  method ReadNack(r: Reader) returns (x: Option<Message>)
    requires r.Valid()
    modifies r`pos
    ensures r.Valid() && Took(TakeNack(old(r.Rest())), x, r.Rest())
  {
    hide TakeU8, TakeU16, TakeU32, TakeU64, TakeBlob, TakeList, TakeChecksum;
    var streamId :- r.U64();
    var gotSeq :- r.U64();
    var expectedSeq :- r.U64();
    var fileId :- r.U64();
    var offset :- r.U64();
    var expectedFileId :- r.U64();
    var expectedOffset :- r.U64();
    var reason :- r.U8();
    var detail :- r.String();
    return Some(Nack(streamId, gotSeq, expectedSeq, fileId, offset, expectedFileId, expectedOffset, reason, detail));
  }

  /** The body must be used up. */
  method DecodeBody(kind: U8, body: Bytes) returns (x: Option<Message>)
    ensures x == match TakeBody(kind, body) case Fail => None case Got(m, rest) => if rest == [] then Some(m) else None
  {
    hide TakeHello, TakeManifest1, TakeManifest2, TakeCreate, TakeData, TakeFileBegin, TakeChunk, TakeFileCommit, TakeHeartbeat, TakeNack;
    var r := new Reader(body);
    if kind == HELLO {
      x := ReadHello(r);
    } else if kind == MANIFEST1 {
      x := ReadManifest1(r);
    } else if kind == MANIFEST2 {
      x := ReadManifest2(r);
    } else if kind == CREATE {
      x := ReadCreate(r);
    } else if kind == DATA {
      x := ReadData(r);
    } else if kind == FILE_BEGIN {
      x := ReadFileBegin(r);
    } else if kind == CHUNK {
      x := ReadChunk(r);
    } else if kind == FILE_COMMIT {
      x := ReadFileCommit(r);
    } else if kind == HEARTBEAT {
      x := ReadHeartbeat(r);
    } else if kind == NACK {
      x := ReadNack(r);
    } else {
      return None;
    }
    var done := r.Done();
    if !done {
      return None;
    }
  }
}
