/** One entry from sender to receiver by CREATE and DATA, over lines that lose, repeat and reorder messages:
    src/sender/yisync_append_state.cpp and its callers in src/sender/yisync_sender_app.cpp against
    T_ReceiverStream, on a plan that creates the entry, with the send buffer of src/sender/yisync_send_buffer.cpp and the
    coordinator of src/receiver/yisync_receiver_coordinator.cpp, which makes the heartbeats. Sent messages stay in a set for
    ever, and any of them may arrive at any time, or never. */
module AppendProtocol {
  import opened Wire
  import opened Messages
  import opened Checksums
  import opened ChunkStreams
  import opened AppendStreams
  import opened SendBuffer
  import opened AppendDurability
  import SchedulerSpec

  // ---------- The sender's state ----------

  datatype AppendSend = AppendSend(needsCreate: bool, createSent: bool, createReady: bool, dataSent: bool,
                                   nextOffset: nat, dataLen: nat, seqNo: U64, doneNextSeq: U64)

  function StartPlan(creates: bool, startOffset: nat, seqNo: U64): AppendSend {
    AppendSend(creates, false, !creates, false, startOffset, 0, seqNo, Wrap64(seqNo + 1))
  }

  /** The fields of a heartbeat that the append side reads. */
  datatype Report = Report(nextSeq: U64, fileId: U64, offset: U64, durableOffset: U64)

  function CreateReady(a: AppendSend, h: Report): AppendSend {
    if !a.needsCreate || !a.createSent || a.createReady || (h.nextSeq <= a.seqNo && h.offset != 0) then a
    else a.(createReady := true)
  }

  function DataReady(a: AppendSend, h: Report): AppendSend {
    var target := a.nextOffset + a.dataLen;
    if !a.dataSent || (h.nextSeq <= a.seqNo && h.offset < target && h.durableOffset < target) then a
    else a.(nextOffset := target, dataSent := false, dataLen := 0)
  }

  /** mark_append_create_retransmitted and mark_append_data_retransmitted. */
  function CreateAgain(a: AppendSend): AppendSend { a.(createSent := true) }

  function DataAgain(a: AppendSend, offset: nat, endOffset: nat): AppendSend {
    a.(dataSent := true, dataLen := if endOffset > offset then endOffset - offset else a.dataLen)
  }

  predicate Complete(a: AppendSend, h: Report, kind: U8, sourceSize: nat) {
    !a.dataSent && a.nextOffset >= sourceSize && h.nextSeq >= a.doneNextSeq
    && (kind != REGULAR_FILE || h.durableOffset >= sourceSize)
  }

  /** The state as the sender updates it. */
  class T_AppendSendState {
    var needsCreate: bool
    var createSent: bool
    var createReady: bool
    var dataSent: bool
    var nextOffset: nat
    var dataLen: nat
    var seqNo: U64
    var doneNextSeq: U64

    function Value(): AppendSend reads this {
      AppendSend(needsCreate, createSent, createReady, dataSent, nextOffset, dataLen, seqNo, doneNextSeq)
    }

    /** start_append_plan. */
    constructor (creates: bool, startOffset: nat, taskSeq: U64)
      ensures Value() == StartPlan(creates, startOffset, taskSeq)
    {
      needsCreate, nextOffset, seqNo, doneNextSeq := creates, startOffset, taskSeq, Wrap64(taskSeq + 1);
      createReady, createSent, dataSent, dataLen := !creates, false, false, 0;
    }

    /** A line failed: what was in flight goes out again under a new plan. */
    method ResetInflight()
      modifies this
      ensures Value() == old(Value()).(createSent := false, createReady := false, dataSent := false, dataLen := 0)
    {
      createSent, createReady, dataSent, dataLen := false, false, false, 0;
    }

    method MarkCreateSent()
      modifies this
      ensures Value() == old(Value()).(createSent := true)
    {
      createSent := true;
    }

    method MarkDataSent(len: nat)
      modifies this
      ensures Value() == old(Value()).(dataSent := true, dataLen := len)
    {
      dataSent, dataLen := true, len;
    }

    method MarkDataRetransmitted(offset: nat, endOffset: nat)
      modifies this
      ensures Value() == DataAgain(old(Value()), offset, endOffset)
    {
      dataSent := true;
      if endOffset > offset {
        dataLen := endOffset - offset;
      }
    }

    method MarkCreateReady(h: Report) returns (news: bool)
      modifies this
      ensures Value() == CreateReady(old(Value()), h) && news == (Value() != old(Value()))
    {
      if !needsCreate || !createSent || createReady || (h.nextSeq <= seqNo && h.offset != 0) {
        return false;
      }
      createReady := true;
      return true;
    }

    method MarkDataReady(h: Report) returns (news: bool)
      modifies this
      ensures Value() == DataReady(old(Value()), h) && news == (Value() != old(Value()))
    {
      if !dataSent {
        return false;
      }
      var target := nextOffset + dataLen;
      if h.nextSeq <= seqNo && h.offset < target && h.durableOffset < target {
        return false;
      }
      nextOffset, dataSent, dataLen := target, false, 0;
      return true;
    }
  }

  // ---------- The task and the world ----------

  datatype Task = Task(streamId: U64, seqNo: U64, fileId: U64, kind: U8, name: Blob, linkTarget: Blob, source: Bytes)

  predicate ValidTask(t: Task) {
    && t.kind in [REGULAR_FILE, DIRECTORY, SYMLINK] && 0 < t.seqNo < 0xFFFF_FFFF_FFFF_FFFF
    && |t.source| < 0x1_0000_0000_0000_0000 && (t.kind != REGULAR_FILE ==> t.source == [])
  }

  function NodeOf(t: Task): Node {
    if t.kind == DIRECTORY then Directory else if t.kind == SYMLINK then Symlink(t.linkTarget) else File(t.source)
  }

  datatype World = World(task: Task, sender: AppendSend,
                         /** What the sender may send again. */
                         buffer: Entries,
                         toReceiver: set<Message>, receiver: AppendStream,
                         /** A failed write has left a part of a segment in some file. */
                         torn: bool,
                         /** What the coordinator knows to be durable, and the fsyncs in the disk writer, oldest first. */
                         fields: Fields, fsyncs: seq<Outstanding>,
                         /** How much of the task's file a finished fsync covers. */
                         covered: nat,
                         toSender: set<Report>)

  /** An fsync in the disk writer; a synced one is about to store its goal. */
  datatype Outstanding = Outstanding(fsync: Fsync, synced: bool)

  /** The DATA for a segment of the source. */
  predicate IsSegment(t: Task, m: DataMessage) {
    && m.fileId == t.fileId && m.finalSize == |t.source| && t.kind == REGULAR_FILE
    && m.offset + |m.payload| <= |t.source| && m.rawLen == |m.payload| > 0
    && m.payload == t.source[m.offset..m.offset + |m.payload|]
  }

  predicate IsCreate(t: Task, m: CreateMessage) {
    m.fileId == t.fileId && m.kind == t.kind && m.name == t.name && m.linkTarget == t.linkTarget && m.finalSize == |t.source|
  }

  /** A message about the task's seq is one the sender makes for it, and no other message has its file id. */
  predicate Honest(t: Task, m: Message) {
    if m.Create? && m.streamId == t.streamId then (if m.seqNo == t.seqNo then IsCreate(t, m) else m.fileId != t.fileId)
    else if m.Data? && m.streamId == t.streamId then (if m.seqNo == t.seqNo then IsSegment(t, m) else m.fileId != t.fileId)
    else true
  }

  type AppendMessage = m: Message | m.Create? || m.Data? witness Create(0, 0, 0, 0, [], [], 0, 0, 0, Checksum(0, 0, 0, []))

  /** try_send_buffered_kind's request. */
  function RequestOf(m: AppendMessage, bytes: U64): SchedulerSpec.Send {
    match m
    case Create(streamId, seqNo, fileId, _, _, _, _, _, _, _) =>
      SchedulerSpec.Send(SchedulerSpec.CREATE_SEND, streamId, fileId, seqNo, 0, 0, 0, bytes)
    case Data(streamId, seqNo, fileId, offset, _, rawLen, _, _, _, _) =>
      SchedulerSpec.Send(SchedulerSpec.DATA_SEND, streamId, fileId, seqNo, offset, Wrap64(offset + rawLen), 0, bytes)
  }

  function Remember(buffer: Entries, m: AppendMessage, bytes: U64, now: U64): Entries {
    buffer[KeyOf(RequestOf(m, bytes)) := Buffered(m, RequestOf(m, bytes), now, 0)]
  }

  function BeatOf(t: Task, h: Report): Beat { Heartbeat(t.streamId, h.nextSeq, h.fileId, h.offset, h.durableOffset, 0, [], []) }

  predicate IsOwn(t: Task, k: Key) { k.streamId == t.streamId && k.fileId == t.fileId && k.seqNo == t.seqNo }

  /** mark_task_retransmitted. */
  function Remarked(t: Task, a: AppendSend, request: SchedulerSpec.Send): AppendSend {
    if !IsOwn(t, KeyOf(request)) then a
    else if request.kind == SchedulerSpec.CREATE_SEND then CreateAgain(a)
    else if request.kind == SchedulerSpec.DATA_SEND then DataAgain(a, request.offset, request.endOffset)
    else a
  }

  datatype Step =
    /** CREATE or DATA of another entry. */
    | Other(m: AppendMessage, bytes: U64, now: U64)
    | SendCreate(create: CreateMessage, createBytes: U64, createNow: U64)
    | SendData(data: DataMessage, dataBytes: U64, dataNow: U64)
    /** After a NACK, a timeout or a failed line, anything in the buffer may go out again. */
    | Retransmit(key: Key, againBytes: U64, againNow: U64)
    | ReportArrives(report: Report)
    | CreateArrives(create: CreateMessage, createDisk: CreateDisk)
    | DataArrives(data: DataMessage, fallback: Blob, write: WriteDisk, accepted: bool)
    /** poll_append_fsync. */
    | Polls(pollAccepted: bool)
    /** The disk thread syncs the file of its oldest fsync, or fails to. */
    | Syncs(ok: bool)
    /** It stores what that fsync has completed. */
    | Stores
    /** The chunk receiver of the stream reports one of its files. */
    | ChunkReports(chunk: Report)

  /** What may happen at this point. A file id other than the task's never stands for the task's name. */
  predicate Enabled(w: World, step: Step) {
    match step
    case Other(m, _, _) => m.seqNo != w.task.seqNo && Honest(w.task, m)
    case SendCreate(m, _, _) =>
      w.sender.needsCreate && !w.sender.createSent && m.streamId == w.task.streamId && m.seqNo == w.sender.seqNo && IsCreate(w.task, m)
    case SendData(m, _, _) =>
      && (w.sender.needsCreate ==> w.sender.createReady) && !w.sender.dataSent && w.sender.nextOffset < |w.task.source|
      && m.streamId == w.task.streamId && m.seqNo == w.sender.seqNo && m.offset == w.sender.nextOffset
      && m.payload != [] && IsSegment(w.task, m)
    case Retransmit(k, _, _) => k in w.buffer
    case ReportArrives(h) => h in w.toSender
    case CreateArrives(m, _) => m in w.toReceiver
    case DataArrives(m, fallback, _, _) => m in w.toReceiver && (m.fileId != w.task.fileId ==> fallback != w.task.name)
    case ChunkReports(h) => h.fileId != w.task.fileId && h.nextSeq > 0
    case _ => true
  }

  function ReportOf(r: AppendStream, durable: U64): Report { Report(r.expectedSeq, r.currentFileId, r.currentOffset, durable) }

  /** apply_create reports the offset itself as durable. */
  function AfterCreate(w: World, m: CreateMessage, answer: (AppendStream, Reply)): World {
    var (r, reply) := answer;
    var heard := w.(receiver := r);
    if !reply.Fine? then heard
    else heard.(fields := ResetFor(w.fields, m.fileId, r.current, 0), toSender := w.toSender + {ReportOf(r, r.currentOffset)})
  }

  function Queued(fsyncs: seq<Outstanding>, fsync: Option<Fsync>): seq<Outstanding> {
    if fsync.Some? then fsyncs + [Outstanding(fsync.value, false)] else fsyncs
  }

  /** apply_data. */
  function AfterData(w: World, m: DataMessage, answer: (AppendStream, Reply), torn: bool, accepted: bool): World {
    var (r, reply) := answer;
    var heard := w.(receiver := r, torn := torn);
    if !reply.Fine? then heard
    else
      var (fields, fsync) := MaybeEnqueue(ResetFor(w.fields, m.fileId, r.current, m.offset), r.currentOffset, accepted);
      heard.(fields := fields, fsyncs := Queued(w.fsyncs, fsync), toSender := w.toSender + {ReportOf(r, fields.durable)})
  }

  function AfterPoll(w: World, accepted: bool): World {
    var (fields, fsync) := Polled(w.fields, accepted);
    w.(fields := fields, fsyncs := Queued(w.fsyncs, fsync),
       toSender := if News(w.fields).Some? then w.toSender + {ReportOf(w.receiver, News(w.fields).value)} else w.toSender)
  }

  function AfterSync(w: World, ok: bool): World {
    if w.fsyncs == [] || w.fsyncs[0].synced then w
    else if !ok then w.(fsyncs := w.fsyncs[1..], fields := w.fields.(failed := true))
    else
      var t := w.task;
      var held := if w.fsyncs[0].fsync.path == t.name && t.name in w.receiver.disk then SizeOf(w.receiver.disk[t.name]) else 0;
      w.(fsyncs := w.fsyncs[0 := w.fsyncs[0].(synced := true)], covered := Max(w.covered, held))
  }

  function AfterStore(w: World): World {
    if w.fsyncs == [] || !w.fsyncs[0].synced then w
    else w.(fsyncs := w.fsyncs[1..], fields := w.fields.(completed := w.fsyncs[0].fsync.goal))
  }

  function Next(w: World, step: Step): World {
    match step
    case Other(m, bytes, now) => w.(toReceiver := w.toReceiver + {m}, buffer := Remember(w.buffer, m, bytes, now))
    case SendCreate(m, bytes, now) =>
      w.(toReceiver := w.toReceiver + {m}, sender := w.sender.(createSent := true), buffer := Remember(w.buffer, m, bytes, now))
    case SendData(m, bytes, now) =>
      w.(toReceiver := w.toReceiver + {m}, sender := w.sender.(dataSent := true, dataLen := |m.payload|),
         buffer := Remember(w.buffer, m, bytes, now))
    case Retransmit(k, bytes, now) =>
      if k !in w.buffer then w
      else
        var b := w.buffer[k];
        w.(toReceiver := w.toReceiver + {b.message}, sender := Remarked(w.task, w.sender, b.request),
           buffer := w.buffer[k := b.(request := b.request.(bytes := bytes), lastSentTick := now, retries := b.retries + 1)])
    case ReportArrives(h) =>
      var erased := w.(buffer := Remaining(w.buffer, BeatOf(w.task, h)));
      if h.fileId != w.task.fileId then erased else erased.(sender := DataReady(CreateReady(w.sender, h), h))
    case CreateArrives(m, disk) => AfterCreate(w, m, ApplyCreate(w.receiver, m, disk))
    case DataArrives(m, fallback, write, accepted) =>
      AfterData(w, m, ApplyData(w.receiver, m, fallback, write), w.torn || write.Partly?, accepted)
    case Polls(accepted) => AfterPoll(w, accepted)
    case Syncs(ok) => AfterSync(w, ok)
    case Stores => AfterStore(w)
    case ChunkReports(h) => w.(toSender := w.toSender + {h})
  }

  // ---------- The invariant ----------

  /** The receiver is in the middle of the entry: what it has is a prefix of the source. */
  predicate InProgress(t: Task, r: AppendStream, torn: bool) {
    && r.expectedSeq == t.seqNo && r.currentFileId == t.fileId && r.current == Some(t.name)
    && t.kind == REGULAR_FILE && r.currentKind == REGULAR_FILE
    && t.name in r.disk && r.disk[t.name].File? && r.disk[t.name].content <= t.source
    && r.currentFinalSize == |t.source| && r.currentOffset < |t.source|
    && r.currentOffset <= |r.disk[t.name].content| && (!torn ==> r.currentOffset == |r.disk[t.name].content|)
  }

  /** The entry is there and whole, and nothing can reach it any more. */
  predicate Finished(t: Task, r: AppendStream) {
    && r.expectedSeq > t.seqNo
    && t.name in r.disk && r.disk[t.name] == NodeOf(t)
    && (if r.currentFileId == t.fileId then r.current == Some(t.name) && r.currentOffset == r.currentFinalSize == |t.source|
        else r.current.Some? && r.current != Some(t.name))
  }

  predicate NotCreated(t: Task, r: AppendStream) {
    r.expectedSeq == t.seqNo && r.currentFileId != t.fileId && r.current != Some(t.name) && t.name !in r.disk
  }

  predicate ReceiverInv(t: Task, r: AppendStream, torn: bool) {
    r.streamId == t.streamId && (NotCreated(t, r) || InProgress(t, r, torn) || Finished(t, r))
  }

  /** How far the receiver is with the entry. */
  function Progress(t: Task, r: AppendStream): nat
  {
    if r.expectedSeq > t.seqNo then |t.source| else if r.currentFileId == t.fileId then r.currentOffset else 0
  }

  /** A report about the task's file says no more of its seq and offset than is so. */
  predicate Truthful(t: Task, r: AppendStream, h: Report) {
    0 < h.nextSeq && (h.fileId == t.fileId ==> h.nextSeq <= r.expectedSeq && h.offset <= Progress(t, r))
  }

  predicate SenderInv(t: Task, a: AppendSend) {
    && a.seqNo == t.seqNo && a.doneNextSeq == t.seqNo + 1 && a.needsCreate && a.nextOffset <= |t.source|
    && (a.dataSent ==> a.nextOffset + a.dataLen <= |t.source|)
    && (!a.dataSent ==> a.dataLen == 0)
  }

  /** The coordinator: until the entry is there nothing is known of its file or queued for its name; while it is the current
      one, what is queued is for its name. */
  predicate FieldsInv(t: Task, r: AppendStream, f: Fields, fsyncs: seq<Outstanding>) {
    if r.currentFileId == t.fileId then f.path == Some(t.name)
    else
      NotCreated(t, r) ==>
        && f.path != Some(t.name) && (forall o <- fsyncs :: o.fsync.path != t.name)
        && (f.fileId == t.fileId ==> f.durable == f.target == f.completed == 0 && !f.queued && fsyncs == [])
  }

  /** A buffered send has been sent; one of the task is its CREATE, or DATA that is the segment outstanding. */
  predicate BufferInv(t: Task, a: AppendSend, buffer: Entries, toReceiver: set<Message>) {
    && Filed(buffer) && (forall k <- buffer :: buffer[k].message in toReceiver)
    && forall k <- buffer | IsOwn(t, k) ::
         (k.kind == SchedulerSpec.CREATE_SEND && a.createSent)
         || (k.kind == SchedulerSpec.DATA_SEND && a.dataSent && k.offset == a.nextOffset
             && buffer[k].request.endOffset == a.nextOffset + a.dataLen > k.offset)
  }

  predicate Inv(w: World) {
    && ValidTask(w.task) && ReceiverInv(w.task, w.receiver, w.torn)
    && SenderInv(w.task, w.sender) && FieldsInv(w.task, w.receiver, w.fields, w.fsyncs)
    && BufferInv(w.task, w.sender, w.buffer, w.toReceiver)
    && (forall m <- w.toReceiver :: Honest(w.task, m) && (m.Create? || m.Data?))
    && (forall h <- w.toSender :: Truthful(w.task, w.receiver, h))
  }

  // ---------- The receiver ----------

  predicate Kept(t: Task, r: AppendStream, r': AppendStream, torn: bool) {
    ReceiverInv(t, r', torn) && r'.expectedSeq >= r.expectedSeq && Progress(t, r') >= Progress(t, r)
  }

  lemma CreateKeeps(t: Task, r: AppendStream, torn: bool, m: CreateMessage, disk: CreateDisk)
    requires ValidTask(t) && ReceiverInv(t, r, torn) && Honest(t, m)
    ensures Kept(t, r, ApplyCreate(r, m, disk).0, torn)
  {
  }

  /** A segment that is appended continues the prefix. */
  lemma PrefixGrows(source: Bytes, content: Bytes, data: Bytes)
    requires content <= source && |content| + |data| <= |source| && data == source[|content|..|content| + |data|]
    ensures content + data <= source
  {
    assert source[..|content| + |data|] == source[..|content|] + source[|content|..|content| + |data|];
  }

  lemma SegmentWritten(t: Task, r: AppendStream, torn: bool, m: DataMessage)
    requires ValidTask(t) && r.streamId == t.streamId && InProgress(t, r, torn) && m.seqNo == t.seqNo && IsSegment(t, m)
    requires m.offset == |r.disk[t.name].content|
    ensures Kept(t, r, AfterWrite(r, m, t.name, Written).0, torn)
  {
    hide IsSegment, Wrap64;
    SegmentEnds(t, m);
    var content := r.disk[t.name].content;
    PrefixGrows(t.source, content, m.payload);
    var whole := content + m.payload;
    if |whole| == |t.source| {
      WholePrefix(whole, t.source);
    }
  }

  lemma WholePrefix(a: Bytes, b: Bytes)
    requires a <= b && |a| == |b|
    ensures a == b
  {
  }

  lemma SegmentEnds(t: Task, m: DataMessage)
    requires ValidTask(t) && IsSegment(t, m) && m.seqNo == t.seqNo
    ensures m.rawLen == |m.payload| && Wrap64(m.offset + m.rawLen) == m.offset + |m.payload| <= |t.source|
    ensures m.finalSize == |t.source| && m.payload == t.source[m.offset..m.offset + |m.payload|]
    ensures Wrap64(m.seqNo + 1) == t.seqNo + 1
  {
  }

  lemma FrontOfSlice(source: Bytes, at: nat, slice: Bytes, k: nat)
    requires at + |slice| <= |source| && slice == source[at..at + |slice|] && k <= |slice|
    ensures slice[..k] == source[at..at + k]
  {
  }

  lemma SegmentTorn(t: Task, r: AppendStream, torn: bool, m: DataMessage, n: nat)
    requires ValidTask(t) && r.streamId == t.streamId && InProgress(t, r, torn) && m.seqNo == t.seqNo && IsSegment(t, m)
    requires m.offset == |r.disk[t.name].content|
    ensures Kept(t, r, AfterWrite(r, m, t.name, Partly(n)).0, true)
  {
    var k := Min(n, |m.payload|);
    FrontOfSlice(t.source, m.offset, m.payload, k);
    PrefixGrows(t.source, r.disk[t.name].content, m.payload[..k]);
  }

  lemma OwnDataKeeps(t: Task, r: AppendStream, torn: bool, m: DataMessage, fallback: Blob, write: WriteDisk)
    requires ValidTask(t) && ReceiverInv(t, r, torn) && m.streamId == t.streamId && m.seqNo == t.seqNo && IsSegment(t, m)
    ensures Kept(t, r, ApplyData(r, m, fallback, write).0, torn || write.Partly?)
  {
    if InProgress(t, r, torn) {
      if DataRefusal(r, m, fallback).Fine? {
        if write.Written? {
          SegmentWritten(t, r, torn, m);
        } else if write.Partly? {
          SegmentTorn(t, r, torn, m, write.written);
        }
        hide AfterWrite, InProgress, Finished, Progress;
      } else {
        hide DataRefusal;
      }
    } else {
      hide Crc32cBytes, Append;
    }
  }

  lemma OtherDataKeeps(t: Task, r: AppendStream, torn: bool, m: DataMessage, fallback: Blob, write: WriteDisk)
    requires ValidTask(t) && ReceiverInv(t, r, torn) && (m.streamId != t.streamId || (m.seqNo != t.seqNo && m.fileId != t.fileId))
    requires m.fileId != t.fileId ==> fallback != t.name
    ensures Kept(t, r, ApplyData(r, m, fallback, write).0, torn || write.Partly?)
  {
  }

  // ---------- Every step ----------

  /** What is left behind when the receiver moves on. */
  lemma ReceiverMoves(w: World, r: AppendStream)
    requires Inv(w) && Kept(w.task, w.receiver, r, w.torn)
    ensures forall h <- w.toSender :: Truthful(w.task, r, h)
  {
    hide ReceiverInv, Progress;
  }

  lemma ReportIsTruthful(t: Task, r: AppendStream, torn: bool, durable: U64)
    requires ValidTask(t) && ReceiverInv(t, r, torn)
    ensures Truthful(t, r, ReportOf(r, durable))
  {
  }

  // ---------- The buffer ----------

  lemma SendBuffers(t: Task, a: AppendSend, a': AppendSend, buffer: Entries, toReceiver: set<Message>, m: AppendMessage,
                    bytes: U64, now: U64)
    requires BufferInv(t, a, buffer, toReceiver)
    requires a' == a || (m.Create? && a' == a.(createSent := true))
             || (m.Data? && !a.dataSent && a' == a.(dataSent := true, dataLen := |m.payload|))
    requires m.seqNo == t.seqNo ==>
               && m.streamId == t.streamId && m.fileId == t.fileId
               && (m.Create? ==> a'.createSent)
               && (m.Data? ==> a'.dataSent && m.offset == a.nextOffset && a'.dataLen == m.rawLen > 0
                               && m.offset + m.rawLen < 0x1_0000_0000_0000_0000)
    ensures BufferInv(t, a', Remember(buffer, m, bytes, now), toReceiver + {m})
  {
    var next := Remember(buffer, m, bytes, now);
    forall k <- next ensures KeyOf(next[k].request) == k && next[k].message in toReceiver + {m} {
      assert k in buffer || k == KeyOf(RequestOf(m, bytes));
    }
  }

  /** A heartbeat that moves the sender past a segment has taken that segment out of the buffer. */
  lemma ReportErases(t: Task, a: AppendSend, buffer: Entries, toReceiver: set<Message>, h: Report)
    requires BufferInv(t, a, buffer, toReceiver) && a.seqNo == t.seqNo && 0 < h.nextSeq
    ensures var left := Remaining(buffer, BeatOf(t, h));
      BufferInv(t, if h.fileId == t.fileId then DataReady(CreateReady(a, h), h) else a, left, toReceiver)
  {
  }

  lemma AgainBuffers(t: Task, a: AppendSend, buffer: Entries, toReceiver: set<Message>, k: Key, bytes: U64, now: U64)
    requires BufferInv(t, a, buffer, toReceiver) && k in buffer
    ensures buffer[k].message in toReceiver && Remarked(t, a, buffer[k].request) == a
    ensures var b := buffer[k];
      BufferInv(t, a, buffer[k := b.(request := b.request.(bytes := bytes), lastSentTick := now, retries := b.retries + 1)], toReceiver)
  {
    assert KeyOf(buffer[k].request) == k;
  }

  lemma SendInv(w: World, step: Step)
    requires Inv(w) && Enabled(w, step) && (step.Other? || step.SendCreate? || step.SendData?)
    ensures Inv(Next(w, step)) && Next(w, step).task == w.task
  {
    hide ReceiverInv, Progress, BufferInv, Remember;
    match step
    case Other(m, bytes, now) => SendBuffers(w.task, w.sender, w.sender, w.buffer, w.toReceiver, m, bytes, now);
    case SendCreate(m, bytes, now) =>
      SendBuffers(w.task, w.sender, Next(w, step).sender, w.buffer, w.toReceiver, m, bytes, now);
    case SendData(m, bytes, now) =>
      SendBuffers(w.task, w.sender, Next(w, step).sender, w.buffer, w.toReceiver, m, bytes, now);
  }

  // ---------- The coordinator ----------

  /** A CREATE or DATA that the receiver took: the fields are reset for its file id and the receiver's current path. */
  lemma ResetKeeps(t: Task, r: AppendStream, r': AppendStream, torn: bool, f: Fields, fsyncs: seq<Outstanding>, fileId: U64, offset: U64)
    requires FieldsInv(t, r, f, fsyncs) && ReceiverInv(t, r, torn) && ReceiverInv(t, r', torn)
    requires NotCreated(t, r') ==> NotCreated(t, r) && fileId != t.fileId
    ensures FieldsInv(t, r', ResetFor(f, fileId, r'.current, offset), fsyncs)
  {
  }

  lemma EnqueueKeeps(t: Task, r: AppendStream, f: Fields, fsyncs: seq<Outstanding>, goal: U64, accepted: bool)
    requires FieldsInv(t, r, f, fsyncs) && (NotCreated(t, r) ==> f.fileId != t.fileId || goal <= f.durable)
    ensures var (g, fsync) := MaybeEnqueue(f, goal, accepted); FieldsInv(t, r, g, Queued(fsyncs, fsync))
  {
    hide NotCreated;
  }

  lemma PollKeeps(t: Task, r: AppendStream, f: Fields, fsyncs: seq<Outstanding>, accepted: bool)
    requires FieldsInv(t, r, f, fsyncs)
    ensures var (g, fsync) := Polled(f, accepted); FieldsInv(t, r, g, Queued(fsyncs, fsync))
  {
    hide NotCreated;
  }

  lemma CreateInv(w: World, m: CreateMessage, disk: CreateDisk)
    requires Inv(w) && m in w.toReceiver
    ensures Inv(AfterCreate(w, m, ApplyCreate(w.receiver, m, disk)))
  {
    hide BufferInv, SenderInv, IsCreate, IsSegment, InProgress, Finished;
    CreateKeeps(w.task, w.receiver, w.torn, m, disk);
    var (r, reply) := ApplyCreate(w.receiver, m, disk);
    ReceiverMoves(w, r);
    CreateTells(w.task, w.receiver, w.torn, m, disk);
    hide ApplyCreate, ReceiverInv, Kept, NotCreated;
    if reply.Fine? {
      ResetKeeps(w.task, w.receiver, r, w.torn, w.fields, w.fsyncs, m.fileId, 0);
      ReportIsTruthful(w.task, r, w.torn, r.currentOffset);
      hide FieldsInv, Truthful;
    }
  }

  lemma CreateTells(t: Task, r: AppendStream, torn: bool, m: CreateMessage, disk: CreateDisk)
    requires ValidTask(t) && ReceiverInv(t, r, torn) && Honest(t, m)
    ensures var (r', reply) := ApplyCreate(r, m, disk);
      && (!reply.Fine? ==> r' == r)
      && (reply.Fine? && NotCreated(t, r') ==> NotCreated(t, r) && m.fileId != t.fileId)
  {
  }

  lemma DataTells(t: Task, r: AppendStream, torn: bool, m: DataMessage, fallback: Blob, write: WriteDisk)
    requires ValidTask(t) && ReceiverInv(t, r, torn) && Honest(t, m)
    ensures var (r', reply) := ApplyData(r, m, fallback, write);
      && r'.currentFileId == r.currentFileId && r'.current == r.current
      && (NotCreated(t, r') ==> NotCreated(t, r) && (reply.Fine? ==> m.fileId != t.fileId))
  {
    hide Crc32cBytes;
  }

  lemma DataReceived(t: Task, r: AppendStream, torn: bool, m: DataMessage, fallback: Blob, write: WriteDisk)
    requires ValidTask(t) && ReceiverInv(t, r, torn) && Honest(t, m) && (m.fileId != t.fileId ==> fallback != t.name)
    ensures Kept(t, r, ApplyData(r, m, fallback, write).0, torn || write.Partly?)
  {
    hide ReceiverInv, ApplyData, Kept, IsSegment;
    if m.streamId == t.streamId && m.seqNo == t.seqNo {
      OwnDataKeeps(t, r, torn, m, fallback, write);
    } else {
      OtherDataKeeps(t, r, torn, m, fallback, write);
    }
  }

  lemma DataInv(w: World, m: DataMessage, fallback: Blob, write: WriteDisk, accepted: bool)
    requires Inv(w) && m in w.toReceiver && (m.fileId != w.task.fileId ==> fallback != w.task.name)
    ensures Inv(AfterData(w, m, ApplyData(w.receiver, m, fallback, write), w.torn || write.Partly?, accepted))
  {
    hide BufferInv, SenderInv, IsCreate, IsSegment, InProgress, Finished, ApplyData, MaybeEnqueue, ResetFor;
    var t, torn := w.task, w.torn || write.Partly?;
    DataReceived(t, w.receiver, w.torn, m, fallback, write);
    var (r, reply) := ApplyData(w.receiver, m, fallback, write);
    TornIsWeaker(t, w.receiver, w.torn, torn);
    ReceiverMoves(w.(torn := torn), r);
    DataTells(t, w.receiver, w.torn, m, fallback, write);
    if reply.Fine? {
      ResetKeeps(t, w.receiver, r, torn, w.fields, w.fsyncs, m.fileId, m.offset);
      var f := ResetFor(w.fields, m.fileId, r.current, m.offset);
      assert f.fileId == m.fileId by { ResetNames(w.fields, m.fileId, r.current, m.offset); }
      hide NotCreated;
      EnqueueKeeps(t, r, f, w.fsyncs, r.currentOffset, accepted);
      ReportIsTruthful(t, r, torn, MaybeEnqueue(f, r.currentOffset, accepted).0.durable);
    }
    hide Truthful, ReceiverInv;
  }

  lemma ResetNames(f: Fields, fileId: U64, path: Option<Blob>, offset: U64)
    ensures ResetFor(f, fileId, path, offset).fileId == fileId
  {
  }

  lemma TornIsWeaker(t: Task, r: AppendStream, torn: bool, torn': bool)
    requires ReceiverInv(t, r, torn) && (torn ==> torn')
    ensures ReceiverInv(t, r, torn')
  {
  }

  lemma DiskInv(w: World, step: Step)
    requires Inv(w) && (step.Polls? || step.Syncs? || step.Stores?)
    ensures Inv(Next(w, step)) && Next(w, step).task == w.task
  {
    hide BufferInv, SenderInv, ReceiverInv, Polled;
    if step.Polls? {
      PollKeeps(w.task, w.receiver, w.fields, w.fsyncs, step.pollAccepted);
      if News(w.fields).Some? {
        ReportIsTruthful(w.task, w.receiver, w.torn, News(w.fields).value);
      }
      hide FieldsInv, Truthful;
    } else {
      hide Truthful, NotCreated;
    }
  }

  lemma NextInv(w: World, step: Step)
    requires Inv(w) && Enabled(w, step)
    ensures Inv(Next(w, step)) && Next(w, step).task == w.task
  {
    hide ReceiverInv, ApplyCreate, ApplyData, IsSegment, IsCreate, BufferInv, Remarked, Remember, FieldsInv, AfterPoll,
         AfterSync, AfterStore, Truthful, Remaining;
    match step
    case Retransmit(k, bytes, now) =>
      AgainBuffers(w.task, w.sender, w.buffer, w.toReceiver, k, bytes, now);
      assert w.toReceiver + {w.buffer[k].message} == w.toReceiver;
    case ReportArrives(h) => ReportInv(w, h);
    case CreateArrives(m, disk) => CreateInv(w, m, disk);
    case DataArrives(m, fallback, write, accepted) => DataInv(w, m, fallback, write, accepted);
    case ChunkReports(h) => assert Truthful(w.task, w.receiver, h) by { OthersAreTruthful(w.task, w.receiver, h); }
    case Other(_, _, _) => SendInv(w, step);
    case SendCreate(_, _, _) => SendInv(w, step);
    case SendData(_, _, _) => SendInv(w, step);
    case _ => DiskInv(w, step);
  }

  lemma OthersAreTruthful(t: Task, r: AppendStream, h: Report)
    requires h.fileId != t.fileId && h.nextSeq > 0
    ensures Truthful(t, r, h)
  {
  }

  lemma ReportInv(w: World, h: Report)
    requires Inv(w) && h in w.toSender
    ensures Inv(Next(w, ReportArrives(h)))
  {
    hide ReceiverInv, FieldsInv, Progress, Honest, BufferInv, Remaining;
    assert Truthful(w.task, w.receiver, h);
    ReportErases(w.task, w.sender, w.buffer, w.toReceiver, h);
  }

  // ---------- Every run ----------

  /** A plan that creates the entry, at a receiver that waits for exactly this seq. */
  predicate Starts(w: World) {
    && ValidTask(w.task) && w.sender == StartPlan(true, 0, w.task.seqNo)
    && w.receiver.streamId == w.task.streamId && NotCreated(w.task, w.receiver)
    && !w.torn && w.toReceiver == {} && w.toSender == {} && w.buffer == map[] && w.covered == 0
    && FieldsInv(w.task, w.receiver, w.fields, w.fsyncs)
  }

  lemma StartInv(w: World)
    requires Starts(w)
    ensures Inv(w)
  {
  }

  predicate Reaches(start: World, steps: seq<Step>, w: World)
    decreases |steps|
  {
    if steps == [] then w == start else Enabled(start, steps[0]) && Reaches(Next(start, steps[0]), steps[1..], w)
  }

  lemma {:induction false} ReachedInv(start: World, steps: seq<Step>, w: World)
    requires Inv(start) && Reaches(start, steps, w)
    ensures Inv(w) && w.task == start.task
    decreases |steps|
  {
    if steps != [] {
      NextInv(start, steps[0]);
      hide Inv, Enabled, Next;
      ReachedInv(Next(start, steps[0]), steps[1..], w);
    }
  }

  /** The receiver's file is always a prefix of the source, and exactly as long as the reported offset unless a write was
      torn. */
  lemma ReceiverHoldsAPrefix(start: World, steps: seq<Step>, w: World)
    requires Starts(start) && Reaches(start, steps, w) && start.task.kind == REGULAR_FILE
    ensures var t, r := start.task, w.receiver;
      && (t.name in r.disk ==> r.disk[t.name].File? && r.disk[t.name].content <= t.source)
      && (t.name in r.disk && !w.torn && r.currentFileId == t.fileId ==> r.currentOffset == |r.disk[t.name].content|)
  {
    hide Reaches;
    StartInv(start);
    ReachedInv(start, steps, w);
  }

  /** When a heartbeat completes the entry at the sender, the receiver holds it whole. */
  lemma CompletionIsReal(start: World, steps: seq<Step>, w: World, h: Report)
    requires Starts(start) && Reaches(start, steps, w) && h in w.toSender && h.fileId == start.task.fileId
    requires Complete(DataReady(CreateReady(w.sender, h), h), h, start.task.kind, |start.task.source|)
    ensures start.task.name in w.receiver.disk && w.receiver.disk[start.task.name] == NodeOf(start.task)
  {
    hide Reaches;
    StartInv(start);
    ReachedInv(start, steps, w);
    assert Truthful(w.task, w.receiver, h);
  }

  /** Whatever is sent again, and whenever, is the task's CREATE, its outstanding segment, or about another entry, and
      sending it again changes neither the sender's state nor what has been sent. */
  lemma RetransmissionIsIdle(start: World, steps: seq<Step>, w: World, k: Key, bytes: U64, now: U64)
    requires Starts(start) && Reaches(start, steps, w) && k in w.buffer
    ensures var next := Next(w, Retransmit(k, bytes, now)); next == w.(buffer := next.buffer)
    ensures IsOwn(start.task, k) && k.kind == SchedulerSpec.DATA_SEND ==>
              w.sender.dataSent && k.offset == w.sender.nextOffset
              && w.buffer[k].request.endOffset == w.sender.nextOffset + w.sender.dataLen
    ensures IsOwn(start.task, k) ==> k.kind in [SchedulerSpec.CREATE_SEND, SchedulerSpec.DATA_SEND]
  {
    StartInv(start);
    hide Reaches, ReceiverInv, SenderInv, Remarked;
    ReachedInv(start, steps, w);
    AgainBuffers(w.task, w.sender, w.buffer, w.toReceiver, k, bytes, now);
    assert w.toReceiver + {w.buffer[k].message} == w.toReceiver;
  }
}
