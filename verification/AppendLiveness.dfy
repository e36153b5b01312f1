/** Runs of AppendProtocol that get through: a file of any size can be created, sent in segments of any size, synced and
    completed. */
module AppendLiveness {
  import opened Wire
  import opened Messages
  import opened Checksums
  import opened ChunkStreams
  import opened AppendStreams
  import opened AppendProtocol
  import opened AppendCompletion
  import opened LateMessages
  import AppendDurability

  /** What one DATA may carry. */
  type Length = n: int | 0 < n < 0x1_0000_0000 witness 1

  /** The first `k` bytes are at the receiver and counted by the sender; nothing is under way, and nothing synced. */
  predicate Delivered(start: World, w: World, k: nat) {
    var t, r, f := start.task, w.receiver, w.fields;
    && w.task == t && r.streamId == t.streamId && t.kind == REGULAR_FILE && k <= |t.source| < 0x1_0000_0000_0000_0000
    && 0 < t.seqNo < 0xFFFF_FFFF_FFFF_FFFF
    && r.current == Some(t.name) && t.name in r.disk && r.disk[t.name] == File(t.source[..k])
    && r.currentFileId == t.fileId && r.currentKind == REGULAR_FILE && r.currentFinalSize == |t.source| && r.currentOffset == k
    && r.expectedSeq == (if k < |t.source| then t.seqNo else t.seqNo + 1)
    && w.sender == StartPlan(true, k, t.seqNo).(createSent := true, createReady := true)
    && f == AppendDurability.Fields(t.fileId, Some(t.name), 0, k, f.activeTarget, false, 0, false)
    && w.fsyncs == [] && w.covered == 0 && !w.torn
  }

  function Segment(t: Task, k: U64, n: Length): DataMessage
    requires k < |t.source| < 0x1_0000_0000_0000_0000
  {
    var len := Min(n, |t.source| - k);
    Data(t.streamId, t.seqNo, t.fileId, k, |t.source|, len, NO_COMPRESSION, CRC32C, Crc32cBytes(t.source[k..k + len]), t.source[k..k + len])
  }

  function After(t: Task, k: nat, n: Length): nat
    requires k < |t.source|
  {
    k + Min(n, |t.source| - k)
  }

  /** A segment has been sent, */
  predicate Underway(start: World, w: World, k: U64, n: Length) {
    && k < |start.task.source| < 0x1_0000_0000_0000_0000
    && Delivered(start, w.(sender := StartPlan(true, k, start.task.seqNo).(createSent := true, createReady := true)), k)
    && Segment(start.task, k, n) in w.toReceiver
    && w.sender == StartPlan(true, k, start.task.seqNo).(createSent := true, createReady := true, dataSent := true,
                                                         dataLen := Min(n, |start.task.source| - k))
  }

  lemma SegmentSent(start: World, w: World, k: U64, n: Length)
    requires Delivered(start, w, k) && k < |start.task.source|
    ensures Enabled(w, SendData(Segment(start.task, k, n), 0, 0))
    ensures Underway(start, Next(w, SendData(Segment(start.task, k, n), 0, 0)), k, n)
  {
    hide Crc32cBytes;
    assert Segment(start.task, k, n).payload != [];
  }

  lemma SegmentTaken(start: World, w: World, k: U64, n: Length)
    requires Underway(start, w, k, n)
    ensures var t, r := start.task, w.receiver;
      var to := After(t, k, n);
      ApplyData(r, Segment(t, k, n), [], Written) ==
      (r.(disk := r.disk[t.name := File(t.source[..to])], currentOffset := to,
          expectedSeq := if to < |t.source| then t.seqNo else t.seqNo + 1), Fine)
  {
    hide Crc32cBytes;
    var t := start.task;
    assert t.source[..k] + t.source[k..After(t, k, n)] == t.source[..After(t, k, n)];
  }

  /** it has arrived, and the report of it is under way, */
  lemma SegmentArrives(start: World, w: World, k: U64, n: Length)
    requires Underway(start, w, k, n)
    ensures var t := start.task;
      var to := After(t, k, n);
      var step := DataArrives(Segment(t, k, n), [], Written, false);
      var next := Next(w, step);
      && Enabled(w, step)
      && next.sender == w.sender
      && Delivered(start, next.(sender := StartPlan(true, to, t.seqNo).(createSent := true, createReady := true)), to)
      && Report(if to < |t.source| then t.seqNo else t.seqNo + 1, t.fileId, to, 0) in next.toSender
  {
    SegmentTaken(start, w, k, n);
    hide ApplyData, Crc32cBytes;
  }

  /** and the sender has counted it. */
  lemma SegmentCounted(start: World, w: World, k: U64, n: Length)
    requires k < |start.task.source| < 0x1_0000_0000_0000_0000
    requires var t := start.task;
      var to := After(t, k, n);
      && Delivered(start, w.(sender := StartPlan(true, to, t.seqNo).(createSent := true, createReady := true)), to)
      && w.sender == StartPlan(true, k, t.seqNo).(createSent := true, createReady := true, dataSent := true, dataLen := to - k)
      && Report(if to < |t.source| then t.seqNo else t.seqNo + 1, t.fileId, to, 0) in w.toSender
    ensures var t := start.task;
      var to := After(t, k, n);
      var step := ReportArrives(Report(if to < |t.source| then t.seqNo else t.seqNo + 1, t.fileId, to, 0));
      Enabled(w, step) && Delivered(start, Next(w, step), to)
  {
  }

  lemma OneSegment(start: World, steps: seq<Step>, w: World, k: U64, n: Length) returns (more: seq<Step>, next: World)
    requires Reaches(start, steps, w) && Delivered(start, w, k) && k < |start.task.source|
    ensures Reaches(start, more, next) && Delivered(start, next, After(start.task, k, n))
  {
    hide Reaches;
    var t := start.task;
    var to := After(t, k, n);
    var s1, s2 := SendData(Segment(t, k, n), 0, 0), DataArrives(Segment(t, k, n), [], Written, false);
    var s3 := ReportArrives(Report(if to < |t.source| then t.seqNo else t.seqNo + 1, t.fileId, to, 0));
    SegmentSent(start, w, k, n);
    var w1 := Next(w, s1);
    SegmentArrives(start, w1, k, n);
    var w2 := Next(w1, s2);
    assert w2.sender.dataLen == to - k;
    hide Next, Enabled, Segment, Delivered;
    SegmentCounted(start, w2, k, n);
    OneMoreStep(start, steps, w, s1);
    OneMoreStep(start, steps + [s1], w1, s2);
    OneMoreStep(start, steps + [s1] + [s2], w2, s3);
    more, next := steps + [s1] + [s2] + [s3], Next(w2, s3);
  }

  lemma {:induction false} AllSegments(start: World, steps: seq<Step>, w: World, k: U64, n: Length) returns (more: seq<Step>, next: World)
    requires Reaches(start, steps, w) && Delivered(start, w, k)
    ensures Reaches(start, more, next) && Delivered(start, next, |start.task.source|)
    decreases |start.task.source| - k
  {
    hide Reaches;
    if k < |start.task.source| {
      more, next := OneSegment(start, steps, w, k, n);
      more, next := AllSegments(start, more, next, After(start.task, k, n), n);
    } else {
      more, next := steps, w;
    }
  }

  /** The poll queues the fsync, the disk thread runs it, and the next poll has the news. */
  lemma GetsSynced(start: World, steps: seq<Step>, w: World) returns (more: seq<Step>, next: World)
    requires Reaches(start, steps, w) && Delivered(start, w, |start.task.source|) && start.task.source != []
    ensures Reaches(start, more, next) && next.receiver == w.receiver && next.sender == w.sender && next.task == w.task
    ensures Report(start.task.seqNo + 1, start.task.fileId, |start.task.source|, |start.task.source|) in next.toSender
    ensures next.covered == |start.task.source|
  {
    hide Reaches;
    var w1 := Next(w, Polls(true));
    var w2 := Next(w1, Step.Syncs(true));
    var w3 := Next(w2, Stores);
    next := Next(w3, Polls(true));
    OneMoreStep(start, steps, w, Polls(true));
    OneMoreStep(start, steps + [Polls(true)], w1, Step.Syncs(true));
    OneMoreStep(start, steps + [Polls(true)] + [Step.Syncs(true)], w2, Stores);
    OneMoreStep(start, steps + [Polls(true)] + [Step.Syncs(true)] + [Stores], w3, Polls(true));
    more := steps + [Polls(true)] + [Step.Syncs(true)] + [Stores] + [Polls(true)];
    assert start.task.source[..|start.task.source|] == start.task.source;
  }

  lemma OpenedIsDelivered(start: World, w: World)
    requires PlansFile(start) && start.fsyncs == [] && Opened(start, w)
    ensures Delivered(start, w, 0)
  {
    hide Crc32cBytes;
  }

  /** Every file that is not empty can be sent in segments of any size, until a heartbeat completes it at the sender and
      the receiver has synced all of it. */
  lemma EveryFileCanComplete(start: World, n: Length) returns (steps: seq<Step>, w: World, h: Report)
    requires PlansFile(start) && start.fsyncs == []
    ensures Reaches(start, steps, w) && OwnReport(w, h)
    ensures Complete(DataReady(CreateReady(w.sender, h), h), h, REGULAR_FILE, |start.task.source|)
    ensures start.task.name in w.receiver.disk && w.receiver.disk[start.task.name] == File(start.task.source)
    ensures w.covered == |start.task.source|
  {
    hide Reaches;
    var w0;
    steps, w0 := Opens(start);
    OpenedIsDelivered(start, w0);
    hide Opened, Starts;
    steps, w := AllSegments(start, steps, w0, 0, n);
    var t := start.task;
    assert t.source[..|t.source|] == t.source;
    var w1 := w;
    steps, w := GetsSynced(start, steps, w1);
    h := Report(t.seqNo + 1, t.fileId, |t.source|, |t.source|);
  }
}
