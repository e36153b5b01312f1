/** The ten messages and their bodies: encode_body, the decode_ functions, and the frame around a body,
    of src/core/yisync_protocol.cpp. Enumerations travel as a byte that the decoder does not check, so
    they are bytes here. */
module Messages {
  import opened Wire

  datatype Checksum = Checksum(algo: U8, offset: U64, len: U64, value: Blob)

  datatype Entry = Entry(fileId: U64, seqNo: U64, kind: U8, name: Blob, linkTarget: Blob, size: U64, checksum: Checksum)

  datatype EntryStream = EntryStream(streamId: U64, root: Blob, entries: Few<Entry>)

  datatype PlanStream = PlanStream(streamId: U64, action: U8, startFileId: U64, startOffset: U64)

  datatype ReceivedChunk = ReceivedChunk(seqNo: U64, fileId: U64, chunkIndex: U64)

  datatype MissingRange = MissingRange(seqNo: U64, fileId: U64, first: U64, last: U64)

  datatype Message =
    | Hello(nodeId: Blob, role: U8, minVersion: U16, maxVersion: U16, features: U64, requiredFeatures: U64,
            maxChunk: U32, maxInflight: U64, compressions: Few<U8>, checksums: Few<U8>)
    | Manifest1(manifestId: U64, entryStreams: Few<EntryStream>)
    | Manifest2(manifestId: U64, planStreams: Few<PlanStream>)
    | Create(streamId: U64, seqNo: U64, fileId: U64, kind: U8, name: Blob, linkTarget: Blob, finalSize: U64,
             prevFileId: U64, prevFinalSize: U64, prevChecksum: Checksum)
    | Data(streamId: U64, seqNo: U64, fileId: U64, offset: U64, finalSize: U64, rawLen: U32,
           compression: U8, checksumAlgo: U8, checksum: Blob, payload: Blob)
    | FileBegin(streamId: U64, seqNo: U64, fileId: U64, name: Blob, finalSize: U64, chunkSize: U64, chunkCount: U64,
                fileChecksum: Checksum, prevFileId: U64, prevFinalSize: U64, prevChecksum: Checksum)
    | Chunk(streamId: U64, seqNo: U64, fileId: U64, chunkIndex: U64, offset: U64, rawLen: U32,
            compression: U8, checksumAlgo: U8, checksum: Blob, payload: Blob)
    | FileCommit(streamId: U64, seqNo: U64, fileId: U64)
    | Heartbeat(streamId: U64, nextSeq: U64, fileId: U64, offset: U64, durableOffset: U64, window: U64,
                received: Few<ReceivedChunk>, missing: Few<MissingRange>)
    | Nack(streamId: U64, gotSeq: U64, expectedSeq: U64, fileId: U64, offset: U64, expectedFileId: U64,
           expectedOffset: U64, reason: U8, detail: Blob)

  type Beat = m: Message | m.Heartbeat? witness Heartbeat(0, 0, 0, 0, 0, 0, [], [])

  const HELLO: U8 := 1
  const MANIFEST1: U8 := 2
  const CREATE: U8 := 3
  const DATA: U8 := 4
  const HEARTBEAT: U8 := 5
  const NACK: U8 := 6
  const FILE_BEGIN: U8 := 7
  const CHUNK: U8 := 8
  const FILE_COMMIT: U8 := 9
  const MANIFEST2: U8 := 10

  // Reasons of a NACK.
  const BAD_SESSION: U8 := 1
  const BAD_SEQ: U8 := 2
  const BAD_OFFSET: U8 := 3
  const BAD_CHECKSUM: U8 := 4
  const BAD_FILE_ORDER: U8 := 5
  const BAD_CREATE: U8 := 6
  const FILE_EXISTS: U8 := 7
  const PREV_FILE_INCOMPLETE: U8 := 8
  const SIZE_CONFLICT: U8 := 9
  const CHECKSUM_MISMATCH: U8 := 10
  const DECODE_ERROR: U8 := 12
  const IO_ERROR: U8 := 13
  const BAD_CHUNK: U8 := 14
  const BAD_COMMIT: U8 := 15

  function TypeOf(m: Message): U8 {
    match m
    case Hello(_, _, _, _, _, _, _, _, _, _) => HELLO
    case Manifest1(_, _) => MANIFEST1
    case Manifest2(_, _) => MANIFEST2
    case Create(_, _, _, _, _, _, _, _, _, _) => CREATE
    case Data(_, _, _, _, _, _, _, _, _, _) => DATA
    case FileBegin(_, _, _, _, _, _, _, _, _, _, _) => FILE_BEGIN
    case Chunk(_, _, _, _, _, _, _, _, _, _) => CHUNK
    case FileCommit(_, _, _) => FILE_COMMIT
    case Heartbeat(_, _, _, _, _, _, _, _) => HEARTBEAT
    case Nack(_, _, _, _, _, _, _, _, _) => NACK
  }

  // ---------- Encoding, in front of a tail ----------

  function PutChecksum(c: Checksum, t: Bytes): Bytes {
    Le8(c.algo) + (Le64(c.offset) + (Le64(c.len) + (Counted(c.value) + t)))
  }

  function PutEntry(e: Entry, t: Bytes): Bytes {
    Le64(e.fileId) + (Le64(e.seqNo) + (Le8(e.kind) + (Counted(e.name) + (Counted(e.linkTarget) + (Le64(e.size) +
      PutChecksum(e.checksum, t))))))
  }

  function PutEntryStream(s: EntryStream, t: Bytes): Bytes {
    Le64(s.streamId) + (Counted(s.root) + PutList(PutEntry, s.entries, t))
  }

  function PutPlanStream(s: PlanStream, t: Bytes): Bytes {
    Le64(s.streamId) + (Le8(s.action) + (Le64(s.startFileId) + (Le64(s.startOffset) + t)))
  }

  function PutReceived(c: ReceivedChunk, t: Bytes): Bytes {
    Le64(c.seqNo) + (Le64(c.fileId) + (Le64(c.chunkIndex) + t))
  }

  function PutMissing(r: MissingRange, t: Bytes): Bytes {
    Le64(r.seqNo) + (Le64(r.fileId) + (Le64(r.first) + (Le64(r.last) + t)))
  }

  /** The two option lists that close a HELLO. */
  function PutChoices(compressions: Few<U8>, checksums: Few<U8>, t: Bytes): Bytes {
    PutList(PutU8, compressions, PutList(PutU8, checksums, t))
  }

  function PutHello(m: Message, t: Bytes): Bytes
    requires m.Hello?
  {
    var Hello(nodeId, role, minVersion, maxVersion, features, required, maxChunk, maxInflight, compressions, checksums) := m;
    Counted(nodeId) + (Le8(role) + (Le16(minVersion) + (Le16(maxVersion) + (Le64(features) + (Le64(required) + (
      Le32(maxChunk) + (Le64(maxInflight) + PutChoices(compressions, checksums, t))))))))
  }

  function PutManifest1(m: Message, t: Bytes): Bytes
    requires m.Manifest1?
  {
    var Manifest1(manifestId, streams) := m;
    Le64(manifestId) + PutList(PutEntryStream, streams, t)
  }

  function PutManifest2(m: Message, t: Bytes): Bytes
    requires m.Manifest2?
  {
    var Manifest2(manifestId, streams) := m;
    Le64(manifestId) + PutList(PutPlanStream, streams, t)
  }

  function PutCreate(m: Message, t: Bytes): Bytes
    requires m.Create?
  {
    var Create(streamId, seqNo, fileId, kind, name, linkTarget, finalSize, prevFileId, prevFinalSize, prevChecksum) := m;
    Le64(streamId) + (Le64(seqNo) + (Le64(fileId) + (Le8(kind) + (Counted(name) + (Counted(linkTarget) + (Le64(finalSize) + (
      Le64(prevFileId) + (Le64(prevFinalSize) + PutChecksum(prevChecksum, t)))))))))
  }

  function PutData(m: Message, t: Bytes): Bytes
    requires m.Data?
  {
    var Data(streamId, seqNo, fileId, offset, finalSize, rawLen, compression, algo, checksum, payload) := m;
    Le64(streamId) + (Le64(seqNo) + (Le64(fileId) + (Le64(offset) + (Le64(finalSize) + (Le32(rawLen) + (
      Le32(|payload|) + (Le8(compression) + (Le8(algo) + (Counted(checksum) + (Counted(payload) + t))))))))))
  }

  function PutFileBegin(m: Message, t: Bytes): Bytes
    requires m.FileBegin?
  {
    var FileBegin(streamId, seqNo, fileId, name, finalSize, chunkSize, chunkCount, fileChecksum, prevFileId, prevFinalSize, prevChecksum) := m;
    Le64(streamId) + (Le64(seqNo) + (Le64(fileId) + (Counted(name) + (Le64(finalSize) + (Le64(chunkSize) + (
      Le64(chunkCount) + (PutChecksum(fileChecksum, Le64(prevFileId) + (Le64(prevFinalSize) +
        PutChecksum(prevChecksum, t))))))))))
  }

  function PutChunk(m: Message, t: Bytes): Bytes
    requires m.Chunk?
  {
    var Chunk(streamId, seqNo, fileId, chunkIndex, offset, rawLen, compression, algo, checksum, payload) := m;
    Le64(streamId) + (Le64(seqNo) + (Le64(fileId) + (Le64(chunkIndex) + (Le64(offset) + (Le32(rawLen) + (
      Le32(|payload|) + (Le8(compression) + (Le8(algo) + (Counted(checksum) + (Counted(payload) + t))))))))))
  }

  function PutFileCommit(m: Message, t: Bytes): Bytes
    requires m.FileCommit?
  {
    var FileCommit(streamId, seqNo, fileId) := m;
    Le64(streamId) + (Le64(seqNo) + (Le64(fileId) + t))
  }

  function PutHeartbeat(m: Message, t: Bytes): Bytes
    requires m.Heartbeat?
  {
    var Heartbeat(streamId, nextSeq, fileId, offset, durableOffset, window, received, missing) := m;
    Le64(streamId) + (Le64(nextSeq) + (Le64(fileId) + (Le64(offset) + (Le64(durableOffset) + (Le64(window) +
      PutList(PutReceived, received, PutList(PutMissing, missing, t)))))))
  }

  function PutNack(m: Message, t: Bytes): Bytes
    requires m.Nack?
  {
    var Nack(streamId, gotSeq, expectedSeq, fileId, offset, expectedFileId, expectedOffset, reason, detail) := m;
    Le64(streamId) + (Le64(gotSeq) + (Le64(expectedSeq) + (Le64(fileId) + (Le64(offset) + (Le64(expectedFileId) + (
      Le64(expectedOffset) + (Le8(reason) + (Counted(detail) + t))))))))
  }

  function PutBody(m: Message, t: Bytes): Bytes {
    if m.Hello? then PutHello(m, t)
    else if m.Manifest1? then PutManifest1(m, t)
    else if m.Manifest2? then PutManifest2(m, t)
    else if m.Create? then PutCreate(m, t)
    else if m.Data? then PutData(m, t)
    else if m.FileBegin? then PutFileBegin(m, t)
    else if m.Chunk? then PutChunk(m, t)
    else if m.FileCommit? then PutFileCommit(m, t)
    else if m.Heartbeat? then PutHeartbeat(m, t)
    else PutNack(m, t)
  }

  // ---------- Decoding ----------

  function TakeChecksum(s0: Bytes): Parsed<Checksum> {
    var algo :- TakeU8(s0);
    var offset :- TakeU64(algo.rest);
    var len :- TakeU64(offset.rest);
    var content :- TakeBlob(len.rest);
    Got(Checksum(algo.value, offset.value, len.value, content.value), content.rest)
  }

  function TakeEntry(s0: Bytes): Parsed<Entry> {
    var fileId :- TakeU64(s0);
    var seqNo :- TakeU64(fileId.rest);
    var kind :- TakeU8(seqNo.rest);
    var name :- TakeBlob(kind.rest);
    var linkTarget :- TakeBlob(name.rest);
    var size :- TakeU64(linkTarget.rest);
    var checksum :- TakeChecksum(size.rest);
    Got(Entry(fileId.value, seqNo.value, kind.value, name.value, linkTarget.value, size.value, checksum.value),
              checksum.rest)
  }

  function TakeEntryStream(s0: Bytes): Parsed<EntryStream> {
    var streamId :- TakeU64(s0);
    var root :- TakeBlob(streamId.rest);
    var entries :- TakeList(TakeEntry, root.rest);
    Got(EntryStream(streamId.value, root.value, entries.value), entries.rest)
  }

  function TakePlanStream(s0: Bytes): Parsed<PlanStream> {
    var streamId :- TakeU64(s0);
    var action :- TakeU8(streamId.rest);
    var startFileId :- TakeU64(action.rest);
    var startOffset :- TakeU64(startFileId.rest);
    Got(PlanStream(streamId.value, action.value, startFileId.value, startOffset.value), startOffset.rest)
  }

  function TakeReceived(s0: Bytes): Parsed<ReceivedChunk> {
    var seqNo :- TakeU64(s0);
    var fileId :- TakeU64(seqNo.rest);
    var chunkIndex :- TakeU64(fileId.rest);
    Got(ReceivedChunk(seqNo.value, fileId.value, chunkIndex.value), chunkIndex.rest)
  }

  function TakeMissing(s0: Bytes): Parsed<MissingRange> {
    var seqNo :- TakeU64(s0);
    var fileId :- TakeU64(seqNo.rest);
    var first :- TakeU64(fileId.rest);
    var last :- TakeU64(first.rest);
    Got(MissingRange(seqNo.value, fileId.value, first.value, last.value), last.rest)
  }

  function TakeChoices(s0: Bytes): Parsed<(Few<U8>, Few<U8>)> {
    var compressions :- TakeList(TakeU8, s0);
    var checksums :- TakeList(TakeU8, compressions.rest);
    Got((compressions.value, checksums.value), checksums.rest)
  }

  function TakeHello(s0: Bytes): Parsed<Message> {
    var nodeId :- TakeBlob(s0);
    var role :- TakeU8(nodeId.rest);
    var minVersion :- TakeU16(role.rest);
    var maxVersion :- TakeU16(minVersion.rest);
    var features :- TakeU64(maxVersion.rest);
    var required :- TakeU64(features.rest);
    var maxChunk :- TakeU32(required.rest);
    var maxInflight :- TakeU64(maxChunk.rest);
    var choices :- TakeChoices(maxInflight.rest);
    Got(Hello(nodeId.value, role.value, minVersion.value, maxVersion.value, features.value, required.value,
              maxChunk.value, maxInflight.value, choices.value.0, choices.value.1), choices.rest)
  }

  function TakeManifest1(s0: Bytes): Parsed<Message> {
    var manifestId :- TakeU64(s0);
    var streams :- TakeList(TakeEntryStream, manifestId.rest);
    Got(Manifest1(manifestId.value, streams.value), streams.rest)
  }

  function TakeManifest2(s0: Bytes): Parsed<Message> {
    var manifestId :- TakeU64(s0);
    var streams :- TakeList(TakePlanStream, manifestId.rest);
    Got(Manifest2(manifestId.value, streams.value), streams.rest)
  }

  function TakeCreate(s0: Bytes): Parsed<Message> {
    var streamId :- TakeU64(s0);
    var seqNo :- TakeU64(streamId.rest);
    var fileId :- TakeU64(seqNo.rest);
    var kind :- TakeU8(fileId.rest);
    var name :- TakeBlob(kind.rest);
    var linkTarget :- TakeBlob(name.rest);
    var finalSize :- TakeU64(linkTarget.rest);
    var prevFileId :- TakeU64(finalSize.rest);
    var prevFinalSize :- TakeU64(prevFileId.rest);
    var prevChecksum :- TakeChecksum(prevFinalSize.rest);
    Got(Create(streamId.value, seqNo.value, fileId.value, kind.value, name.value, linkTarget.value, finalSize.value,
               prevFileId.value, prevFinalSize.value, prevChecksum.value), prevChecksum.rest)
  }

  function TakeData(s0: Bytes): Parsed<Message> {
    var streamId :- TakeU64(s0);
    var seqNo :- TakeU64(streamId.rest);
    var fileId :- TakeU64(seqNo.rest);
    var offset :- TakeU64(fileId.rest);
    var finalSize :- TakeU64(offset.rest);
    var rawLen :- TakeU32(finalSize.rest);
    var payloadLen :- TakeU32(rawLen.rest);
    var compression :- TakeU8(payloadLen.rest);
    var algo :- TakeU8(compression.rest);
    var checksum :- TakeBlob(algo.rest);
    var payload :- TakeBlob(checksum.rest);
    if |payload.value| != payloadLen.value then Fail
    else Got(Data(streamId.value, seqNo.value, fileId.value, offset.value, finalSize.value, rawLen.value,
                  compression.value, algo.value, checksum.value, payload.value), payload.rest)
  }

  function TakeFileBegin(s0: Bytes): Parsed<Message> {
    var streamId :- TakeU64(s0);
    var seqNo :- TakeU64(streamId.rest);
    var fileId :- TakeU64(seqNo.rest);
    var name :- TakeBlob(fileId.rest);
    var finalSize :- TakeU64(name.rest);
    var chunkSize :- TakeU64(finalSize.rest);
    var chunkCount :- TakeU64(chunkSize.rest);
    var fileChecksum :- TakeChecksum(chunkCount.rest);
    var prevFileId :- TakeU64(fileChecksum.rest);
    var prevFinalSize :- TakeU64(prevFileId.rest);
    var prevChecksum :- TakeChecksum(prevFinalSize.rest);
    Got(FileBegin(streamId.value, seqNo.value, fileId.value, name.value, finalSize.value, chunkSize.value,
                  chunkCount.value, fileChecksum.value,
                  prevFileId.value, prevFinalSize.value, prevChecksum.value), prevChecksum.rest)
  }

  function TakeChunk(s0: Bytes): Parsed<Message> {
    var streamId :- TakeU64(s0);
    var seqNo :- TakeU64(streamId.rest);
    var fileId :- TakeU64(seqNo.rest);
    var chunkIndex :- TakeU64(fileId.rest);
    var offset :- TakeU64(chunkIndex.rest);
    var rawLen :- TakeU32(offset.rest);
    var payloadLen :- TakeU32(rawLen.rest);
    var compression :- TakeU8(payloadLen.rest);
    var algo :- TakeU8(compression.rest);
    var checksum :- TakeBlob(algo.rest);
    var payload :- TakeBlob(checksum.rest);
    if |payload.value| != payloadLen.value then Fail
    else Got(Chunk(streamId.value, seqNo.value, fileId.value, chunkIndex.value, offset.value, rawLen.value,
                   compression.value, algo.value, checksum.value, payload.value), payload.rest)
  }

  function TakeFileCommit(s0: Bytes): Parsed<Message> {
    var streamId :- TakeU64(s0);
    var seqNo :- TakeU64(streamId.rest);
    var fileId :- TakeU64(seqNo.rest);
    Got(FileCommit(streamId.value, seqNo.value, fileId.value), fileId.rest)
  }

  function TakeHeartbeat(s0: Bytes): Parsed<Message> {
    var streamId :- TakeU64(s0);
    var nextSeq :- TakeU64(streamId.rest);
    var fileId :- TakeU64(nextSeq.rest);
    var offset :- TakeU64(fileId.rest);
    var durableOffset :- TakeU64(offset.rest);
    var window :- TakeU64(durableOffset.rest);
    var received :- TakeList(TakeReceived, window.rest);
    var missing :- TakeList(TakeMissing, received.rest);
    Got(Heartbeat(streamId.value, nextSeq.value, fileId.value, offset.value, durableOffset.value, window.value,
                  received.value, missing.value), missing.rest)
  }

  function TakeNack(s0: Bytes): Parsed<Message> {
    var streamId :- TakeU64(s0);
    var gotSeq :- TakeU64(streamId.rest);
    var expectedSeq :- TakeU64(gotSeq.rest);
    var fileId :- TakeU64(expectedSeq.rest);
    var offset :- TakeU64(fileId.rest);
    var expectedFileId :- TakeU64(offset.rest);
    var expectedOffset :- TakeU64(expectedFileId.rest);
    var reason :- TakeU8(expectedOffset.rest);
    var detail :- TakeBlob(reason.rest);
    Got(Nack(streamId.value, gotSeq.value, expectedSeq.value, fileId.value, offset.value, expectedFileId.value,
             expectedOffset.value, reason.value, detail.value), detail.rest)
  }

  function TakeBody(kind: U8, s: Bytes): Parsed<Message> {
    if kind == HELLO then TakeHello(s)
    else if kind == MANIFEST1 then TakeManifest1(s)
    else if kind == MANIFEST2 then TakeManifest2(s)
    else if kind == CREATE then TakeCreate(s)
    else if kind == DATA then TakeData(s)
    else if kind == FILE_BEGIN then TakeFileBegin(s)
    else if kind == CHUNK then TakeChunk(s)
    else if kind == FILE_COMMIT then TakeFileCommit(s)
    else if kind == HEARTBEAT then TakeHeartbeat(s)
    else if kind == NACK then TakeNack(s)
    else Fail
  }

  // ---------- Decoding and encoding undo each other ----------

  lemma FieldsRead()
    ensures forall v: U8, t :: TakeU8(Le8(v) + t) == Got(v, t)
    ensures forall v: U16, t :: TakeU16(Le16(v) + t) == Got(v, t)
    ensures forall v: U32, t :: TakeU32(Le32(v) + t) == Got(v, t)
    ensures forall v: U64, t :: TakeU64(Le64(v) + t) == Got(v, t)
    ensures forall v: Blob, t :: TakeBlob(Counted(v) + t) == Got(v, t)
    ensures forall c, t :: TakeChecksum(PutChecksum(c, t)) == Got(c, t)
  {
    NumbersRead();
    forall v: Blob, t ensures TakeBlob(Counted(v) + t) == Got(v, t) { BlobReads(v, t); }
    hide Le8, TakeU8, Le16, TakeU16, Le32, TakeU32, Le64, TakeU64, Counted, TakeBlob;
  }

  lemma FieldsExact()
    ensures forall s :: TakeU8(s).Got? ==> Le8(TakeU8(s).value) + TakeU8(s).rest == s
    ensures forall s :: TakeU16(s).Got? ==> Le16(TakeU16(s).value) + TakeU16(s).rest == s
    ensures forall s :: TakeU32(s).Got? ==> Le32(TakeU32(s).value) + TakeU32(s).rest == s
    ensures forall s :: TakeU64(s).Got? ==> Le64(TakeU64(s).value) + TakeU64(s).rest == s
    ensures forall s :: TakeBlob(s).Got? ==> Counted(TakeBlob(s).value) + TakeBlob(s).rest == s
    ensures forall s :: TakeChecksum(s).Got? ==> PutChecksum(TakeChecksum(s).value, TakeChecksum(s).rest) == s
  {
    NumbersExact();
    forall s | TakeBlob(s).Got? ensures Counted(TakeBlob(s).value) + TakeBlob(s).rest == s { BlobExact(s); }
    hide Le8, TakeU8, Le16, TakeU16, Le32, TakeU32, Le64, TakeU64, Counted, TakeBlob;
  }

  lemma EntriesRead()
    ensures Reads(PutEntry, TakeEntry)
  {
    FieldsRead();
    hide Le8, TakeU8, Le64, TakeU64, Counted, TakeBlob, PutChecksum, TakeChecksum;
  }

  lemma EntriesExact()
    ensures Exact(PutEntry, TakeEntry)
  {
    FieldsExact();
    hide Le8, TakeU8, Le64, TakeU64, Counted, TakeBlob, PutChecksum, TakeChecksum;
  }

  lemma PartsRead()
    ensures Reads(PutPlanStream, TakePlanStream) && Reads(PutReceived, TakeReceived) && Reads(PutMissing, TakeMissing)
  {
    NumbersRead();
    hide Le8, TakeU8, Le64, TakeU64;
  }

  lemma PartsExact()
    ensures Exact(PutPlanStream, TakePlanStream) && Exact(PutReceived, TakeReceived) && Exact(PutMissing, TakeMissing)
  {
    NumbersExact();
    hide Le8, TakeU8, Le64, TakeU64;
  }

  lemma ChoicesRead()
    ensures forall a: Few<U8>, b: Few<U8>, t :: TakeChoices(PutChoices(a, b, t)) == Got((a, b), t)
  {
    NumbersRead();
    ListReads(PutU8, TakeU8);
    hide TakeU8, PutU8, PutList, TakeList, Reads;
  }

  lemma ChoicesExact()
    ensures forall s :: TakeChoices(s).Got? ==>
                          PutChoices(TakeChoices(s).value.0, TakeChoices(s).value.1, TakeChoices(s).rest) == s
  {
    NumbersExact();
    ListExact(PutU8, TakeU8);
    hide TakeU8, PutU8, PutList, TakeList, Exact;
  }

  lemma StreamsRead()
    ensures Reads(PutEntryStream, TakeEntryStream)
  {
    FieldsRead(); EntriesRead(); ListReads(PutEntry, TakeEntry);
    hide Le64, TakeU64, Counted, TakeBlob, PutList, TakeList, PutEntry, TakeEntry;
  }

  lemma StreamsExact()
    ensures Exact(PutEntryStream, TakeEntryStream)
  {
    FieldsExact(); EntriesExact(); ListExact(PutEntry, TakeEntry);
    hide Le64, TakeU64, Counted, TakeBlob, PutList, TakeList, PutEntry, TakeEntry;
  }

  lemma HelloReads(m: Message, t: Bytes)
    requires m.Hello?
    ensures TakeHello(PutHello(m, t)) == Got(m, t)
  {
    FieldsRead(); ChoicesRead();
    hide Le8, TakeU8, Le16, TakeU16, Le32, TakeU32, Le64, TakeU64, Counted, TakeBlob, PutChoices, TakeChoices;
  }

  lemma HelloExact(s: Bytes)
    requires TakeHello(s).Got?
    ensures TakeHello(s).value.Hello? && PutHello(TakeHello(s).value, TakeHello(s).rest) == s
  {
    FieldsExact(); ChoicesExact();
    hide Le8, TakeU8, Le16, TakeU16, Le32, TakeU32, Le64, TakeU64, Counted, TakeBlob, PutChoices, TakeChoices;
  }

  lemma Manifest1Reads(m: Message, t: Bytes)
    requires m.Manifest1?
    ensures TakeManifest1(PutManifest1(m, t)) == Got(m, t)
  {
    NumbersRead(); StreamsRead(); ListReads(PutEntryStream, TakeEntryStream);
    hide Le8, TakeU8, Le16, TakeU16, Le32, TakeU32, Le64, TakeU64, Counted, TakeBlob, PutList, TakeList;
    hide Reads;
  }

  lemma Manifest1Exact(s: Bytes)
    requires TakeManifest1(s).Got?
    ensures TakeManifest1(s).value.Manifest1? && PutManifest1(TakeManifest1(s).value, TakeManifest1(s).rest) == s
  {
    NumbersExact(); StreamsExact(); ListExact(PutEntryStream, TakeEntryStream);
    hide Le8, TakeU8, Le16, TakeU16, Le32, TakeU32, Le64, TakeU64, Counted, TakeBlob, PutList, TakeList;
    hide Exact;
  }

  lemma Manifest2Reads(m: Message, t: Bytes)
    requires m.Manifest2?
    ensures TakeManifest2(PutManifest2(m, t)) == Got(m, t)
  {
    NumbersRead(); PartsRead(); ListReads(PutPlanStream, TakePlanStream);
    hide Le8, TakeU8, Le16, TakeU16, Le32, TakeU32, Le64, TakeU64, Counted, TakeBlob, PutList, TakeList;
    hide Reads;
  }

  lemma Manifest2Exact(s: Bytes)
    requires TakeManifest2(s).Got?
    ensures TakeManifest2(s).value.Manifest2? && PutManifest2(TakeManifest2(s).value, TakeManifest2(s).rest) == s
  {
    NumbersExact(); PartsExact(); ListExact(PutPlanStream, TakePlanStream);
    hide Le8, TakeU8, Le16, TakeU16, Le32, TakeU32, Le64, TakeU64, Counted, TakeBlob, PutList, TakeList;
    hide Exact;
  }

  lemma CreateReads(m: Message, t: Bytes)
    requires m.Create?
    ensures TakeCreate(PutCreate(m, t)) == Got(m, t)
  {
    FieldsRead();
    hide Le8, TakeU8, Le16, TakeU16, Le32, TakeU32, Le64, TakeU64, Counted, TakeBlob, PutChecksum, TakeChecksum;
  }

  lemma CreateExact(s: Bytes)
    requires TakeCreate(s).Got?
    ensures TakeCreate(s).value.Create? && PutCreate(TakeCreate(s).value, TakeCreate(s).rest) == s
  {
    FieldsExact();
    hide Le8, TakeU8, Le16, TakeU16, Le32, TakeU32, Le64, TakeU64, Counted, TakeBlob, PutChecksum, TakeChecksum;
  }

  lemma DataReads(m: Message, t: Bytes)
    requires m.Data?
    ensures TakeData(PutData(m, t)) == Got(m, t)
  {
    FieldsRead();
    hide Le8, TakeU8, Le16, TakeU16, Le32, TakeU32, Le64, TakeU64, Counted, TakeBlob, PutChecksum, TakeChecksum;
  }

  lemma DataExact(s: Bytes)
    requires TakeData(s).Got?
    ensures TakeData(s).value.Data? && PutData(TakeData(s).value, TakeData(s).rest) == s
  {
    FieldsExact();
    hide Le8, TakeU8, Le16, TakeU16, Le32, TakeU32, Le64, TakeU64, Counted, TakeBlob, PutChecksum, TakeChecksum;
  }

  lemma FileBeginReads(m: Message, t: Bytes)
    requires m.FileBegin?
    ensures TakeFileBegin(PutFileBegin(m, t)) == Got(m, t)
  {
    FieldsRead();
    hide Le8, TakeU8, Le16, TakeU16, Le32, TakeU32, Le64, TakeU64, Counted, TakeBlob, PutChecksum, TakeChecksum;
  }

  lemma FileBeginExact(s: Bytes)
    requires TakeFileBegin(s).Got?
    ensures TakeFileBegin(s).value.FileBegin? && PutFileBegin(TakeFileBegin(s).value, TakeFileBegin(s).rest) == s
  {
    FieldsExact();
    hide Le8, TakeU8, Le16, TakeU16, Le32, TakeU32, Le64, TakeU64, Counted, TakeBlob, PutChecksum, TakeChecksum;
  }

  lemma ChunkReads(m: Message, t: Bytes)
    requires m.Chunk?
    ensures TakeChunk(PutChunk(m, t)) == Got(m, t)
  {
    FieldsRead();
    hide Le8, TakeU8, Le16, TakeU16, Le32, TakeU32, Le64, TakeU64, Counted, TakeBlob, PutChecksum, TakeChecksum;
  }

  lemma ChunkExact(s: Bytes)
    requires TakeChunk(s).Got?
    ensures TakeChunk(s).value.Chunk? && PutChunk(TakeChunk(s).value, TakeChunk(s).rest) == s
  {
    FieldsExact();
    hide Le8, TakeU8, Le16, TakeU16, Le32, TakeU32, Le64, TakeU64, Counted, TakeBlob, PutChecksum, TakeChecksum;
  }

  lemma FileCommitReads(m: Message, t: Bytes)
    requires m.FileCommit?
    ensures TakeFileCommit(PutFileCommit(m, t)) == Got(m, t)
  {
    FieldsRead();
    hide Le8, TakeU8, Le16, TakeU16, Le32, TakeU32, Le64, TakeU64, Counted, TakeBlob, PutChecksum, TakeChecksum;
  }

  lemma FileCommitExact(s: Bytes)
    requires TakeFileCommit(s).Got?
    ensures TakeFileCommit(s).value.FileCommit? && PutFileCommit(TakeFileCommit(s).value, TakeFileCommit(s).rest) == s
  {
    FieldsExact();
    hide Le8, TakeU8, Le16, TakeU16, Le32, TakeU32, Le64, TakeU64, Counted, TakeBlob, PutChecksum, TakeChecksum;
  }

  lemma HeartbeatReads(m: Message, t: Bytes)
    requires m.Heartbeat?
    ensures TakeHeartbeat(PutHeartbeat(m, t)) == Got(m, t)
  {
    NumbersRead(); PartsRead(); ListReads(PutReceived, TakeReceived); ListReads(PutMissing, TakeMissing);
    hide Le8, TakeU8, Le16, TakeU16, Le32, TakeU32, Le64, TakeU64, Counted, TakeBlob, PutList, TakeList;
    hide Reads;
  }

  lemma HeartbeatExact(s: Bytes)
    requires TakeHeartbeat(s).Got?
    ensures TakeHeartbeat(s).value.Heartbeat? && PutHeartbeat(TakeHeartbeat(s).value, TakeHeartbeat(s).rest) == s
  {
    NumbersExact(); PartsExact(); ListExact(PutReceived, TakeReceived); ListExact(PutMissing, TakeMissing);
    hide Le8, TakeU8, Le16, TakeU16, Le32, TakeU32, Le64, TakeU64, Counted, TakeBlob, PutList, TakeList;
    hide Exact;
  }

  lemma NackReads(m: Message, t: Bytes)
    requires m.Nack?
    ensures TakeNack(PutNack(m, t)) == Got(m, t)
  {
    FieldsRead();
    hide Le8, TakeU8, Le16, TakeU16, Le32, TakeU32, Le64, TakeU64, Counted, TakeBlob, PutChecksum, TakeChecksum;
  }

  lemma NackExact(s: Bytes)
    requires TakeNack(s).Got?
    ensures TakeNack(s).value.Nack? && PutNack(TakeNack(s).value, TakeNack(s).rest) == s
  {
    FieldsExact();
    hide Le8, TakeU8, Le16, TakeU16, Le32, TakeU32, Le64, TakeU64, Counted, TakeBlob, PutChecksum, TakeChecksum;
  }

  /** Decoding a body gives back the message it was made from, and leaves what follows it. */
  lemma BodyReads(m: Message, t: Bytes)
    ensures TakeBody(TypeOf(m), PutBody(m, t)) == Got(m, t)
  {
    hide PutHello, PutManifest1, PutManifest2, PutCreate, PutData, PutFileBegin, PutChunk, PutFileCommit, PutHeartbeat, PutNack;
    hide TakeHello, TakeManifest1, TakeManifest2, TakeCreate, TakeData, TakeFileBegin, TakeChunk, TakeFileCommit, TakeHeartbeat, TakeNack;
    if m.Hello? {
      HelloReads(m, t);
    } else if m.Manifest1? {
      Manifest1Reads(m, t);
    } else if m.Manifest2? {
      Manifest2Reads(m, t);
    } else if m.Create? {
      CreateReads(m, t);
    } else if m.Data? {
      DataReads(m, t);
    } else if m.FileBegin? {
      FileBeginReads(m, t);
    } else if m.Chunk? {
      ChunkReads(m, t);
    } else if m.FileCommit? {
      FileCommitReads(m, t);
    } else if m.Heartbeat? {
      HeartbeatReads(m, t);
    } else {
      NackReads(m, t);
    }
  }

  /** A body that decodes is exactly the encoding of the message it decodes to. */
  lemma BodyExact(kind: U8, s: Bytes)
    requires TakeBody(kind, s).Got?
    ensures TypeOf(TakeBody(kind, s).value) == kind
    ensures PutBody(TakeBody(kind, s).value, TakeBody(kind, s).rest) == s
  {
    hide PutHello, PutManifest1, PutManifest2, PutCreate, PutData, PutFileBegin, PutChunk, PutFileCommit, PutHeartbeat, PutNack;
    hide TakeHello, TakeManifest1, TakeManifest2, TakeCreate, TakeData, TakeFileBegin, TakeChunk, TakeFileCommit, TakeHeartbeat, TakeNack;
    if kind == HELLO {
      HelloExact(s);
    } else if kind == MANIFEST1 {
      Manifest1Exact(s);
    } else if kind == MANIFEST2 {
      Manifest2Exact(s);
    } else if kind == CREATE {
      CreateExact(s);
    } else if kind == DATA {
      DataExact(s);
    } else if kind == FILE_BEGIN {
      FileBeginExact(s);
    } else if kind == CHUNK {
      ChunkExact(s);
    } else if kind == FILE_COMMIT {
      FileCommitExact(s);
    } else if kind == HEARTBEAT {
      HeartbeatExact(s);
    } else {
      NackExact(s);
    }
  }
}
