/** Runs of AppendProtocol that late messages lead astray: the conditions of AppendCompletion are needed, for every
    file that fits one DATA. */
module LateMessages {
  import opened Wire
  import opened Messages
  import opened Checksums
  import opened ChunkStreams
  import opened AppendStreams
  import opened SendBuffer
  import opened AppendProtocol
  import opened AppendCompletion
  import AppendDurability
  import SchedulerSpec

  const SMOOTH := CreateDisk(true, true, 0, true, true, true)

  lemma {:induction false} OneMoreStep(start: World, steps: seq<Step>, w: World, step: Step)
    requires Reaches(start, steps, w) && Enabled(w, step)
    ensures Reaches(start, steps + [step], Next(w, step))
    decreases |steps|
  {
    hide Enabled, Next;
    if steps == [] {
      assert [] + [step] == [step] && [step][1..] == [];
      NoSteps(Next(w, step));
    } else {
      assert (steps + [step])[0] == steps[0] && (steps + [step])[1..] == steps[1..] + [step];
      OneMoreStep(Next(start, steps[0]), steps[1..], w, step);
    }
  }

  lemma NoSteps(w: World)
    ensures Reaches(w, [], w)
  {
  }

  function CreateOf(t: Task): CreateMessage
    requires |t.source| < 0x1_0000_0000_0000_0000
  {
    Create(t.streamId, t.seqNo, t.fileId, t.kind, t.name, t.linkTarget, |t.source|, 0, 0, Checksum(0, 0, 0, []))
  }

  function FirstSegment(t: Task): DataMessage
    requires |t.source| < 0x1_0000_0000
  {
    Data(t.streamId, t.seqNo, t.fileId, 0, |t.source|, |t.source|, NO_COMPRESSION, CRC32C, Crc32cBytes(t.source), t.source)
  }

  /** The file has been created, and the sender has heard of it; nothing of it has been sent. */
  predicate Opened(start: World, w: World) {
    var t, r := start.task, w.receiver;
    && w.task == t && r.streamId == t.streamId && InProgress(t, r, false) && r.currentOffset == 0 && r.disk[t.name] == File([])
    && w.sender == StartPlan(true, 0, t.seqNo).(createSent := true, createReady := true)
    && w.fields.fileId == t.fileId && w.fields.path == Some(t.name)
    && w.fields.durable == w.fields.target == w.fields.completed == 0 && !w.fields.failed && !w.fields.queued
    && w.fsyncs == start.fsyncs && w.covered == 0 && !w.torn
    && t.kind == REGULAR_FILE && |t.source| < 0x1_0000_0000_0000_0000 && CreateOf(t) in w.toReceiver
    && KeyOf(RequestOf(CreateOf(t), 0)) in w.buffer
    && (forall k <- w.buffer :: k.kind == SchedulerSpec.CREATE_SEND || k.kind == SchedulerSpec.DATA_SEND)
  }

  /** A plan to create a regular file that is not empty. */
  predicate PlansFile(start: World) {
    Starts(start) && start.task.kind == REGULAR_FILE && 0 < |start.task.source| && start.fields.fileId != start.task.fileId
  }

  /** One that fits a single DATA. */
  predicate Plans(start: World) { PlansFile(start) && |start.task.source| < 0x1_0000_0000 }

  lemma Opens(start: World) returns (steps: seq<Step>, w: World)
    requires PlansFile(start)
    ensures Reaches(start, steps, w) && Opened(start, w)
  {
    var t := start.task;
    var c := CreateOf(t);
    hide Reaches;
    NoSteps(start);
    var w1 := Next(start, SendCreate(c, 0, 0));
    OneMoreStep(start, [], start, SendCreate(c, 0, 0));
    var w2 := Next(w1, CreateArrives(c, SMOOTH));
    OneMoreStep(start, [] + [SendCreate(c, 0, 0)], w1, CreateArrives(c, SMOOTH));
    var h := Report(t.seqNo, t.fileId, 0, 0);
    assert h in w2.toSender;
    steps := [] + [SendCreate(c, 0, 0)] + [CreateArrives(c, SMOOTH)] + [ReportArrives(h)];
    w := Next(w2, ReportArrives(h));
    OneMoreStep(start, [] + [SendCreate(c, 0, 0)] + [CreateArrives(c, SMOOTH)], w2, ReportArrives(h));
  }

  /** The whole file is under way in one DATA. */
  predicate Underway(start: World, w: World) {
    && Opened(start, w.(sender := StartPlan(true, 0, start.task.seqNo).(createSent := true, createReady := true)))
    && |start.task.source| < 0x1_0000_0000 && FirstSegment(start.task) in w.toReceiver
    && w.sender == StartPlan(true, 0, start.task.seqNo).(createSent := true, createReady := true, dataSent := true, dataLen := |start.task.source|)
    && Buffers(w.buffer, start.task)
  }

  function SegmentKey(t: Task): Key
    requires |t.source| < 0x1_0000_0000
  {
    KeyOf(RequestOf(FirstSegment(t), 0))
  }

  predicate Buffers(buffer: Entries, t: Task)
    requires |t.source| < 0x1_0000_0000
  {
    SegmentKey(t) in buffer && buffer[SegmentKey(t)].request == RequestOf(FirstSegment(t), 0)
  }

  lemma GetsUnderway(start: World) returns (steps: seq<Step>, w: World)
    requires Plans(start)
    ensures Reaches(start, steps, w) && Underway(start, w)
  {
    hide Reaches, Crc32cBytes;
    var opening, w0 := Opens(start);
    var t := start.task;
    var d := FirstSegment(t);
    assert t.source[0..|t.source|] == t.source;
    OneMoreStep(start, opening, w0, SendData(d, 0, 0));
    steps, w := opening + [SendData(d, 0, 0)], Next(w0, SendData(d, 0, 0));
  }

  // ---------- A late DATA of an earlier entry ----------

  /** A DATA of an earlier entry of the stream, at an offset not below the size of the task's file. */
  predicate EarlierData(t: Task, m: DataMessage) {
    m.streamId == t.streamId && m.seqNo < t.seqNo && m.fileId != t.fileId && m.offset >= |t.source|
  }

  /** A name other than the task's. */
  function OtherName(t: Task): (name: Blob)
    ensures name != t.name
  {
    if t.name == [] then [0] else []
  }

  lemma LateDataArrives(start: World, w: World, m: DataMessage)
    requires Plans(start) && Underway(start, w) && EarlierData(start.task, m)
    ensures var t := start.task;
      var w1 := Next(w, Other(m, 0, 0));
      var w2 := Next(w1, DataArrives(m, OtherName(t), Written, false));
      && Enabled(w, Other(m, 0, 0)) && Enabled(w1, DataArrives(m, OtherName(t), Written, false))
      && w2 == w1.(fields := w2.fields, toSender := w1.toSender + {Report(t.seqNo, t.fileId, 0, m.offset)})
      && Misdates(w1, DataArrives(m, OtherName(t), Written, false))
  {
    hide Crc32cBytes, Remember;
  }

  lemma OtherStaysBuffered(buffer: Entries, t: Task, m: DataMessage)
    requires |t.source| < 0x1_0000_0000 && Buffers(buffer, t) && m.fileId != t.fileId
    ensures Buffers(Remember(buffer, m, 0, 0), t)
  {
    hide Crc32cBytes;
  }

  /** A heartbeat that calls the whole file durable settles the segment. */
  lemma SegmentSettled(w: World, t: Task, durable: U64)
    requires w.task == t && 0 < |t.source| < 0x1_0000_0000 && Buffers(w.buffer, t) && durable >= |t.source| && t.seqNo > 0
    requires w.sender == StartPlan(true, 0, t.seqNo).(createSent := true, createReady := true, dataSent := true, dataLen := |t.source|)
    ensures var next := Next(w, ReportArrives(Report(t.seqNo, t.fileId, 0, durable)));
      && next.sender.nextOffset == |t.source| && !next.sender.dataSent && SegmentKey(t) !in next.buffer
      && next.receiver == w.receiver
  {
    hide Crc32cBytes;
  }

  /** The report makes the sender count the whole file as delivered and drop it from its buffer, while the receiver has
      nothing of it: nothing of it is left to send, or to send again. */
  lemma LateDataMisleads(start: World, m: DataMessage) returns (steps: seq<Step>, w: World)
    requires Plans(start) && EarlierData(start.task, m)
    ensures Reaches(start, steps, w)
    ensures w.sender.nextOffset == |start.task.source| > 0 && !w.sender.dataSent && SegmentKey(start.task) !in w.buffer
    ensures start.task.name in w.receiver.disk && w.receiver.disk[start.task.name] == File([])
  {
    hide Reaches, Crc32cBytes, Remember, ApplyData, FirstSegment, SegmentKey;
    var t := start.task;
    var w0;
    steps, w0 := GetsUnderway(start);
    LateDataArrives(start, w0, m);
    OtherStaysBuffered(w0.buffer, t, m);
    var h := Report(t.seqNo, t.fileId, 0, m.offset);
    var w1 := Next(w0, Other(m, 0, 0));
    var step := DataArrives(m, OtherName(t), Written, false);
    var w2 := Next(w1, step);
    assert w2.sender == w0.sender && w2.buffer == Remember(w0.buffer, m, 0, 0) && w2.task == t && w2.receiver == w0.receiver;
    hide Buffers;
    SegmentSettled(w2, t, m.offset);
    hide Underway, Next, LateData, AfterData;
    OneMoreStep(start, steps, w0, Other(m, 0, 0));
    OneMoreStep(start, steps + [Other(m, 0, 0)], w1, step);
    OneMoreStep(start, steps + [Other(m, 0, 0)] + [step], w2, ReportArrives(h));
    steps, w := steps + [Other(m, 0, 0)] + [step] + [ReportArrives(h)], Next(w2, ReportArrives(h));
  }

  // ---------- A late fsync of an earlier entry ----------

  /** An fsync that was under way before the entry was created reports its goal for the new file. */
  lemma LateFsyncMisleads(start: World, path: Blob, goal: U64) returns (steps: seq<Step>, w: World)
    requires Plans(start) && start.fsyncs == [Outstanding(AppendDurability.Fsync(path, goal), true)] && goal > 0
    ensures Reaches(start, steps, w)
    ensures OwnReport(w, Report(start.task.seqNo, start.task.fileId, 0, goal))
    ensures start.task.name in w.receiver.disk && w.receiver.disk[start.task.name] == File([])
  {
    hide Reaches, Crc32cBytes;
    var w0;
    steps, w0 := Opens(start);
    var w1 := Next(w0, Stores);
    OneMoreStep(start, steps, w0, Stores);
    OneMoreStep(start, steps + [Stores], w1, Polls(false));
    steps, w := steps + [Stores] + [Polls(false)], Next(w1, Polls(false));
  }

  // ---------- A late CREATE ----------

  lemma WholeFileArrives(start: World, w: World)
    requires Plans(start) && Underway(start, w)
    ensures var t := start.task;
      var step := DataArrives(FirstSegment(t), [], Written, false);
      var next := Next(w, step);
      && Enabled(w, step) && Finished(t, next.receiver) && next.receiver.currentFileId == t.fileId
      && next.receiver.expectedSeq == t.seqNo + 1 && next.receiver.streamId == t.streamId
      && next.task == w.task && next.sender == w.sender && next.toReceiver == w.toReceiver && next.covered == 0 && next.fsyncs == w.fsyncs
  {
    hide Crc32cBytes;
    assert [] + start.task.source == start.task.source;
  }

  /** A repeated CREATE behind the last DATA completes the entry at the sender before anything has been synced. */
  lemma LateCreateCompletes(start: World) returns (steps: seq<Step>, w: World, h: Report)
    requires Plans(start)
    ensures Reaches(start, steps, w) && OwnReport(w, h)
    ensures Complete(DataReady(CreateReady(w.sender, h), h), h, REGULAR_FILE, |start.task.source|)
    ensures w.covered == 0 < |start.task.source| && w.fsyncs == start.fsyncs
  {
    hide Reaches, Crc32cBytes;
    var t := start.task;
    var w0;
    steps, w0 := GetsUnderway(start);
    WholeFileArrives(start, w0);
    var step := DataArrives(FirstSegment(t), [], Written, false);
    var w1 := Next(w0, step);
    OneMoreStep(start, steps, w0, step);
    h := Report(t.seqNo + 1, t.fileId, |t.source|, |t.source|);
    OneMoreStep(start, steps + [step], w1, CreateArrives(CreateOf(t), SMOOTH));
    hide ApplyData;
    steps, w := steps + [step] + [CreateArrives(CreateOf(t), SMOOTH)], Next(w1, CreateArrives(CreateOf(t), SMOOTH));
  }

  // ---------- A report of the chunk receiver ----------

  /** A heartbeat about another file, with a next_seq past the task's, takes the outstanding segment out of the buffer; the
      sender still waits for it. */
  lemma OutstandingLeavesTheBuffer(start: World, fileId: U64) returns (steps: seq<Step>, w: World)
    requires Plans(start) && fileId != start.task.fileId
    ensures Reaches(start, steps, w)
    ensures w.sender.dataSent && SegmentKey(start.task) !in w.buffer
    ensures start.task.name in w.receiver.disk && w.receiver.disk[start.task.name] == File([])
  {
    hide Reaches, Crc32cBytes;
    var w0;
    steps, w0 := GetsUnderway(start);
    var h := Report(start.task.seqNo + 1, fileId, 0, 0);
    OneMoreStep(start, steps, w0, ChunkReports(h));
    var w1 := Next(w0, ChunkReports(h));
    OneMoreStep(start, steps + [ChunkReports(h)], w1, ReportArrives(h));
    steps, w := steps + [ChunkReports(h)] + [ReportArrives(h)], Next(w1, ReportArrives(h));
  }
}
