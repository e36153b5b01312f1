/** Runs of ChunkProtocol that get through: a task can always be acknowledged and committed, and one that the receiver
    waits for can be delivered without a scan, by its own messages alone. */
module ChunkLiveness {
  import opened Wire
  import opened Messages
  import opened ChunkResendSpec
  import opened ChunkStreams
  import opened CommitCoordinator
  import opened Heartbeats
  import opened ChunkProtocol
  import opened ChunkTransfer
  import ChunkContents
  import ChunkFiles
  import ChunkDelivery

  // ---------- Runs, joined ----------

  lemma NoSteps(w: World)
    requires ChunkProtocol.Inv(w)
    ensures ChunkProtocol.Reaches(w, [], w)
  {
  }

  lemma OneStep(w: World, step: ChunkProtocol.Step)
    requires ChunkProtocol.Inv(w) && Enabled(w, step)
    ensures ChunkProtocol.Inv(ChunkProtocol.Next(w, step)) && ChunkProtocol.Reaches(w, [step], ChunkProtocol.Next(w, step))
  {
    ChunkProtocol.NextInv(w, step);
    assert [step][1..] == [];
    NoSteps(ChunkProtocol.Next(w, step));
    hide ChunkProtocol.Inv, ChunkProtocol.Next, Enabled;
  }

  lemma {:induction false} Joins(a: World, s: seq<ChunkProtocol.Step>, b: World, t: seq<ChunkProtocol.Step>, c: World)
    requires ChunkProtocol.Inv(a) && ChunkProtocol.Inv(b)
    requires ChunkProtocol.Reaches(a, s, b) && ChunkProtocol.Reaches(b, t, c)
    ensures ChunkProtocol.Reaches(a, s + t, c)
    decreases |s|
  {
    assert Shaped(a.receiver.chunk) && a.resend.Sized();
    hide ChunkProtocol.Inv, ChunkProtocol.Next, Enabled;
    if s == [] {
      assert s + t == t;
    } else {
      assert (s + t)[0] == s[0] && (s + t)[1..] == s[1..] + t;
      ChunkProtocol.NextInv(a, s[0]);
      Joins(ChunkProtocol.Next(a, s[0]), s[1..], b, t, c);
    }
  }

  // ---------- One chunk, there and back ----------

  /** No heartbeat is held back. */
  predicate Quiet(w: World) { ChunkProtocol.Inv(w) && w.held == map[] }

  /** `next` is `w` once chunk `i` has been sent, taken and acknowledged. */
  predicate RoundTrips(w: World, next: World, chunk: ChunkMessage) {
    && Quiet(next) && next.task == w.task && next.commitSent == w.commitSent
    && next.receiver == w.receiver.(chunk := next.receiver.chunk)
    && w.toReceiver <= next.toReceiver && next.resend.count == w.resend.count == |next.resend.acked| == |w.resend.acked|
    && (forall k :: 0 <= k < w.resend.count ==> (next.resend.acked[k] <==> w.resend.acked[k] || k == chunk.chunkIndex))
  }

  function AckOf(s: ChunkStream, m: ChunkMessage): Ack {
    Ack(m.streamId, s.expectedSeq, m.fileId, 0, 0, WINDOW, [ReceivedChunk(m.seqNo, m.fileId, m.chunkIndex)], [])
  }

  function TripSteps(s: ChunkStream, m: ChunkMessage): seq<ChunkProtocol.Step> {
    [Send(m)] + [ChunkArrives(m, 0, Written, [])] + [Flush(0)] + [HeartbeatArrives(AckOf(s, m))]
  }

  predicate OfTask(t: Task, m: ChunkMessage) { m.streamId == t.streamId && m.seqNo == t.seqNo && m.fileId == t.fileId }

  /** A chunk that is taken without a Nack comes back as an acknowledgement. */
  lemma ChunkComesBack(w: World, m: ChunkMessage, taken: ChunkStream) returns (next: World)
    requires Quiet(w) && OfTask(w.task, m) && Shaped(w.receiver.chunk) && ApplyChunk(w.receiver.chunk, m, Written) == (taken, Fine)
    ensures ChunkProtocol.Reaches(w, TripSteps(taken, m), next)
    ensures RoundTrips(w, next, m) && next.receiver.chunk == taken
  {
    hide ChunkProtocol.Inv, ApplyChunk, ChunkProtocol.Reaches;
    var w1 := SendsChunk(w, m);
    var w2 := ChunkReported(w1, m, taken);
    var w3 := Flushed(w2, AckOf(taken, m));
    next := Heard(w3, m, AckOf(taken, m));
    Joins(w, [Send(m)], w1, [ChunkArrives(m, 0, Written, [])], w2);
    Joins(w, [Send(m)] + [ChunkArrives(m, 0, Written, [])], w2, [Flush(0)], w3);
    Joins(w, [Send(m)] + [ChunkArrives(m, 0, Written, [])] + [Flush(0)], w3, [HeartbeatArrives(AckOf(taken, m))], next);
  }

  lemma SendsChunk(w: World, m: ChunkMessage) returns (next: World)
    requires Quiet(w) && OfTask(w.task, m)
    ensures Quiet(next) && next == w.(toReceiver := w.toReceiver + {m}) && ChunkProtocol.Reaches(w, [Send(m)], next)
  {
    next := w.(toReceiver := w.toReceiver + {m});
    assert Shaped(w.receiver.chunk) && w.resend.Sized();
    hide ChunkProtocol.Inv;
    OneStep(w, Send(m));
  }

  /** It is held on line 0, or on its way when the batch is full. */
  predicate Reported(w: World, ack: Ack) { (w.held == map[] && ack in w.toSender) || w.held == map[0 := ack] }

  lemma ChunkReported(w: World, m: ChunkMessage, taken: ChunkStream) returns (next: World)
    requires Quiet(w) && m in w.toReceiver && Shaped(w.receiver.chunk) && ApplyChunk(w.receiver.chunk, m, Written) == (taken, Fine)
    ensures ChunkProtocol.Inv(next) && Reported(next, AckOf(taken, m))
    ensures next == w.(receiver := w.receiver.(chunk := taken), held := next.held, toSender := next.toSender)
    ensures ChunkProtocol.Reaches(w, [ChunkArrives(m, 0, Written, [])], next)
  {
    assert w.resend.Sized();
    hide ChunkProtocol.Inv, ApplyChunk;
    next := ChunkProtocol.Next(w, ChunkArrives(m, 0, Written, []));
    OneStep(w, ChunkArrives(m, 0, Written, []));
  }

  lemma Flushed(w: World, ack: Ack) returns (next: World)
    requires ChunkProtocol.Inv(w) && Reported(w, ack)
    ensures Quiet(next) && ack in next.toSender && next == w.(held := map[], toSender := next.toSender)
    ensures ChunkProtocol.Reaches(w, [Flush(0)], next)
  {
    assert Shaped(w.receiver.chunk) && w.resend.Sized();
    hide ChunkProtocol.Inv;
    next := ChunkProtocol.Next(w, Flush(0));
    OneStep(w, Flush(0));
  }

  lemma Heard(w: World, m: ChunkMessage, ack: Ack) returns (next: World)
    requires Quiet(w) && ack in w.toSender && OfTask(w.task, m)
    requires ack.streamId == w.task.streamId && ack.received == [ReceivedChunk(m.seqNo, m.fileId, m.chunkIndex)]
    ensures RoundTrips(w, next, m) && next.receiver == w.receiver
    ensures ChunkProtocol.Reaches(w, [HeartbeatArrives(ack)], next)
  {
    assert Shaped(w.receiver.chunk) && w.resend.Sized();
    hide ChunkProtocol.Inv, AckAll;
    next := ChunkProtocol.Next(w, HeartbeatArrives(ack));
    OneStep(w, HeartbeatArrives(ack));
    assert next.held == w.held;
    forall k | 0 <= k < w.resend.count ensures next.resend.acked[k] <==> w.resend.acked[k] || k == m.chunkIndex {
      HeartbeatAcknowledges(w, ack, k);
      assert ack.received[0] in ack.received;
    }
    if w.resend.count > 0 {
      HeartbeatAcknowledges(w, ack, 0);
    }
  }

  // ---------- Every task can be committed ----------

  /** A repeated CHUNK, of which only its place counts. */
  function LateChunk(t: Task, i: U64): ChunkMessage { Chunk(t.streamId, t.seqNo, t.fileId, i, 0, 0, 0, 0, [], []) }

  /** The first `n` chunks are acknowledged, and the receiver is past the file. */
  predicate PastAnd(start: World, w: World, n: nat) {
    && Quiet(w) && w.task == start.task && !w.commitSent && w.receiver.chunk.expectedSeq > w.task.seqNo
    && n <= w.resend.count == |w.resend.acked| == w.task.chunkCount && forall k :: 0 <= k < n ==> w.resend.acked[k]
  }

  lemma {:induction false} LateChunksComeBack(start: World, w: World, n: nat) returns (steps: seq<ChunkProtocol.Step>, next: World)
    requires PastAnd(start, w, 0) && n <= w.task.chunkCount
    ensures ChunkProtocol.Reaches(w, steps, next) && PastAnd(start, next, n)
  {
    hide ChunkProtocol.Reaches;
    if n == 0 {
      NoSteps(w);
      steps, next := [], w;
    } else {
      var before, w1 := LateChunksComeBack(start, w, n - 1);
      var m := LateChunk(start.task, n - 1);
      assert Shaped(w1.receiver.chunk) && w1.receiver.chunk.streamId == w1.task.streamId;
      assert ApplyChunk(w1.receiver.chunk, m, Written) == (w1.receiver.chunk, Fine);
      hide ChunkProtocol.Inv, ApplyChunk;
      next := ChunkComesBack(w1, m, w1.receiver.chunk);
      steps := before + TripSteps(w1.receiver.chunk, m);
      Joins(w, before, w1, TripSteps(w1.receiver.chunk, m), next);
    }
  }

  lemma ScanPasses(start: World) returns (next: World)
    requires Starts(start)
    ensures ChunkProtocol.Inv(start) && PastAnd(start, next, 0)
    ensures ChunkProtocol.Reaches(start, [Rescan(Some(Latest(0, 0, start.task.seqNo)))], next)
  {
    StartInv(start);
    assert Shaped(start.receiver.chunk) && start.resend.Sized();
    hide Owned, ChunkProtocol.Counted, ChunkProtocol.Reaches;
    var step := Rescan(Some(Latest(0, 0, start.task.seqNo)));
    next := ChunkProtocol.Next(start, step);
    OneStep(start, step);
  }

  lemma SendsCommit(w: World) returns (next: World)
    requires Quiet(w) && AllAcked(w.resend) && !w.commitSent
    ensures Quiet(next) && next == w.(toReceiver := w.toReceiver + {ChunkProtocol.CommitOf(w.task)}, commitSent := true)
    ensures ChunkProtocol.Reaches(w, [SendCommit], next)
  {
    assert Shaped(w.receiver.chunk) && w.resend.Sized();
    hide ChunkProtocol.Inv;
    next := ChunkProtocol.Next(w, SendCommit);
    OneStep(w, SendCommit);
  }

  /** From every start some run acknowledges every chunk and sends the FILE_COMMIT. */
  lemma EveryTaskCanCommit(start: World) returns (steps: seq<ChunkProtocol.Step>, w: World)
    requires Starts(start)
    ensures ChunkProtocol.Inv(start) && ChunkProtocol.Reaches(start, steps, w)
    ensures AllAcked(w.resend) && |w.resend.acked| == start.task.chunkCount && ChunkProtocol.CommitOf(start.task) in w.toReceiver
  {
    hide ChunkProtocol.Inv, ChunkProtocol.Reaches, Starts;
    var w1 := ScanPasses(start);
    var scan := [Rescan(Some(Latest(0, 0, start.task.seqNo)))];
    var chunks, w2 := LateChunksComeBack(start, w1, w1.task.chunkCount);
    w := SendsCommit(w2);
    Joins(start, scan, w1, chunks, w2);
    Joins(start, scan + chunks, w2, [SendCommit], w);
    steps := scan + chunks + [SendCommit];
  }

  // ---------- A task that is waited for gets delivered ----------

  predicate Announces(t: Task, x: Sending) {
    && x.Fits() && x.Counted() && x.streamId == t.streamId && x.seqNo == t.seqNo && x.fileId == t.fileId
    && t.finalSize == |x.content| && t.chunkSize == x.size && t.chunkCount == x.count
  }

  /** The receiver expects the task, and is busy with no other. */
  predicate Awaited(start: World, x: Sending) {
    && Starts(start) && Announces(start.task, x)
    && start.receiver.chunk.active == map[] && start.receiver.chunk.expectedSeq == start.task.seqNo && !start.receiver.queued
  }

  /** The step sends nothing but the messages of the file, and no one else changes the directory. */
  predicate Plain(x: Sending, step: ChunkProtocol.Step)
    requires x.Fits()
  {
    && !step.Rescan? && !step.AppendMoves? && !step.AppendReports?
    && (step.Send? ==> step.m == BeginOf(x) ||
                       (step.m.Chunk? && step.m.chunkIndex < x.count && step.m == ChunkOf(x, step.m.chunkIndex)))
  }

  predicate AllPlain(x: Sending, steps: seq<ChunkProtocol.Step>)
    requires x.Fits()
  {
    forall k :: 0 <= k < |steps| ==> Plain(x, steps[k])
  }

  /** The receiver has begun the file, and the first `n` chunks are there and acknowledged. */
  predicate Arrived(w: World, x: Sending, f: ActiveFile, log: ChunkFiles.Payloads, n: nat)
    requires x.Fits()
  {
    && Quiet(w) && Announces(w.task, x) && !w.commitSent && !w.receiver.queued
    && Receiving(w.receiver.chunk, x, f, log) && |f.received| == x.count == w.resend.count == |w.resend.acked|
    && n <= x.count && forall k :: 0 <= k < n ==> w.resend.acked[k] && f.received[k]
  }

  const SMOOTH := BeginDisk(true, 0, true, true, false, true)

  lemma BeginSent(start: World, x: Sending) returns (next: World)
    requires Awaited(start, x)
    ensures ChunkProtocol.Inv(start) && Quiet(next) && next == start.(toReceiver := {BeginOf(x)}) && !next.commitSent
    ensures ChunkProtocol.Reaches(start, [Send(BeginOf(x))], next)
  {
    StartInv(start);
    assert Shaped(start.receiver.chunk) && start.resend.Sized();
    hide ChunkProtocol.Inv, ChunkProtocol.Reaches, FullChecksum;
    next := ChunkProtocol.Next(start, Send(BeginOf(x)));
    OneStep(start, Send(BeginOf(x)));
  }

  lemma BeginHeard(w: World, x: Sending) returns (next: World)
    requires Quiet(w) && Announces(w.task, x) && BeginOf(x) in w.toReceiver && !w.commitSent && !w.receiver.queued
    requires w.receiver.chunk.active == map[] && w.receiver.chunk.expectedSeq == w.task.seqNo
    ensures Arrived(next, x, NewFile(BeginOf(x)), map[], 0)
    ensures ChunkProtocol.Reaches(w, [BeginArrives(BeginOf(x), 0, SMOOTH)], next)
  {
    assert Shaped(w.receiver.chunk) && w.receiver.chunk.streamId == w.task.streamId;
    assert w.resend.Sized() && w.resend.count == w.task.chunkCount;
    BeginTaken(w.receiver.chunk, x);
    hide ChunkProtocol.Inv, ChunkProtocol.Reaches, FullChecksum, ApplyBegin, Receiving;
    next := ChunkProtocol.Next(w, BeginArrives(BeginOf(x), 0, SMOOTH));
    OneStep(w, BeginArrives(BeginOf(x), 0, SMOOTH));
    assert next.held == map[];
  }

  lemma ChunkFine(s: ChunkStream, x: Sending, f: ActiveFile, log: ChunkFiles.Payloads, i: U64)
    requires x.Fits() && Receiving(s, x, f, log) && i < x.count
    ensures Shaped(s) && ApplyChunk(s, ChunkOf(x, i), Written).1 == Fine
  {
    ChunkPasses(s, x, f, log, i);
    assert FileShaped(f);
    hide Refusal, BadPayload, WriteAt, ChunkCount, ChunkFiles.SoundFile, ChunkContents.FromSource, FullChecksum, Wrap64, ChunkContents.Slice;
  }

  lemma NextChunkArrives(w: World, x: Sending, f: ActiveFile, log: ChunkFiles.Payloads, n: nat)
      returns (steps: seq<ChunkProtocol.Step>, next: World, g: ActiveFile, logged: ChunkFiles.Payloads)
    requires x.Fits() && Arrived(w, x, f, log, n) && n < x.count
    ensures ChunkProtocol.Reaches(w, steps, next) && AllPlain(x, steps) && next.task == w.task
    ensures Arrived(next, x, g, logged, n + 1)
  {
    hide ChunkProtocol.Inv, ChunkProtocol.Reaches, FullChecksum, ApplyChunk, Receiving, ChunkContents.Slice;
    var m := ChunkOf(x, n);
    ChunkFine(w.receiver.chunk, x, f, log, n);
    g, logged := ChunkTaken(w.receiver.chunk, x, f, log, n);
    var taken := ApplyChunk(w.receiver.chunk, m, Written).0;
    next := ChunkComesBack(w, m, taken);
    steps := TripSteps(taken, m);
  }

  lemma {:induction false} ChunksArrive(w: World, x: Sending, f: ActiveFile, log: ChunkFiles.Payloads, n: nat)
      returns (steps: seq<ChunkProtocol.Step>, next: World, g: ActiveFile, logged: ChunkFiles.Payloads)
    requires x.Fits() && Arrived(w, x, f, log, 0) && n <= x.count
    ensures ChunkProtocol.Reaches(w, steps, next) && AllPlain(x, steps) && next.task == w.task
    ensures Arrived(next, x, g, logged, n)
  {
    hide ChunkProtocol.Inv, ChunkProtocol.Reaches, Receiving, Announces, Plain;
    if n == 0 {
      NoSteps(w);
      steps, next, g, logged := [], w, f, log;
    } else {
      var before, w1, f1, log1 := ChunksArrive(w, x, f, log, n - 1);
      var more;
      more, next, g, logged := NextChunkArrives(w1, x, f1, log1, n - 1);
      Joins(w, before, w1, more, next);
      steps := before + more;
    }
  }

  function CommitSteps(x: Sending): seq<ChunkProtocol.Step> {
    [CommitArrives(ChunkTransfer.CommitOf(x), 0, false, 0, true)] + [ChunkProtocol.Step.TaskEnds(true)] + [ChunkProtocol.Step.Poll(0, true)]
  }

  lemma CommitAnswered(c: Context, x: Sending, f: ActiveFile, log: ChunkFiles.Payloads)
    requires x.Fits() && 0 < x.seqNo < 0xFFFF_FFFF_FFFF_FFFF
    requires !c.queued && Receiving(c.chunk, x, f, log) && f.receivedCount == f.chunkCount
    ensures ApplyCommit(c, ChunkTransfer.CommitOf(x), false, 0, true).1 == Queued
    ensures var (done, action) := PollCommit(EndTask(ApplyCommit(c, ChunkTransfer.CommitOf(x), false, 0, true).0, true));
      && done.chunk.expectedSeq == x.seqNo + 1
      && action == SendHeartbeat(x.seqNo + 1, x.fileId, |x.content|, |x.content|)
  {
    hide FullChecksum, ChunkCount, ChunkFiles.SoundFile, ChunkContents.FromSource;
  }

  lemma CommitHeard(w: World, x: Sending) returns (next: World)
    requires Quiet(w) && ChunkTransfer.CommitOf(x) in w.toReceiver
    requires ApplyCommit(w.receiver, ChunkTransfer.CommitOf(x), false, 0, true).1 == Queued
    ensures Quiet(next) && next == w.(receiver := ApplyCommit(w.receiver, ChunkTransfer.CommitOf(x), false, 0, true).0)
    ensures ChunkProtocol.Reaches(w, [CommitArrives(ChunkTransfer.CommitOf(x), 0, false, 0, true)], next)
  {
    StillSized(w);
    hide ChunkProtocol.Inv, ChunkProtocol.Reaches, ApplyCommit;
    OneStep(w, CommitArrives(ChunkTransfer.CommitOf(x), 0, false, 0, true));
    next := ChunkProtocol.Next(w, CommitArrives(ChunkTransfer.CommitOf(x), 0, false, 0, true));
  }

  lemma TaskEndsWell(w: World) returns (next: World)
    requires Quiet(w)
    ensures Quiet(next) && next == w.(receiver := EndTask(w.receiver, true))
    ensures ChunkProtocol.Reaches(w, [ChunkProtocol.Step.TaskEnds(true)], next)
  {
    StillSized(w);
    hide ChunkProtocol.Inv, ChunkProtocol.Reaches, EndTask;
    OneStep(w, ChunkProtocol.Step.TaskEnds(true));
    next := ChunkProtocol.Next(w, ChunkProtocol.Step.TaskEnds(true));
  }

  lemma PollReports(w: World, nextSeq: U64, fileId: U64, size: U64) returns (next: World, ack: Ack)
    requires Quiet(w) && PollCommit(w.receiver).1 == SendHeartbeat(nextSeq, fileId, size, size)
    ensures ChunkProtocol.Reaches(w, [ChunkProtocol.Step.Poll(0, true)], next)
    ensures next == w.(receiver := PollCommit(w.receiver).0, toSender := w.toSender + {ack}) && ack.nextSeq == nextSeq
  {
    StillSized(w);
    hide ChunkProtocol.Inv, ChunkProtocol.Reaches, PollCommit;
    OneStep(w, ChunkProtocol.Step.Poll(0, true));
    next := ChunkProtocol.Next(w, ChunkProtocol.Step.Poll(0, true));
    ack := Ack(w.task.streamId, nextSeq, fileId, size, size, WINDOW, [], []);
  }

  lemma CommitDelivers(w: World, x: Sending, f: ActiveFile, log: ChunkFiles.Payloads) returns (next: World, ack: Ack)
    requires x.Fits() && Quiet(w) && Announces(w.task, x) && ChunkTransfer.CommitOf(x) in w.toReceiver && !w.receiver.queued
    requires Receiving(w.receiver.chunk, x, f, log) && f.receivedCount == f.chunkCount
    ensures ChunkProtocol.Reaches(w, CommitSteps(x), next) && next.resend == w.resend && next.toReceiver == w.toReceiver
    ensures next.receiver.chunk.expectedSeq == x.seqNo + 1 && ack in next.toSender && ack.nextSeq == x.seqNo + 1
  {
    assert 0 < x.seqNo < 0xFFFF_FFFF_FFFF_FFFF by {
      assert x.seqNo == w.receiver.chunk.expectedSeq;
    }
    CommitAnswered(w.receiver, x, f, log);
    hide ChunkProtocol.Inv, ChunkProtocol.Reaches, Receiving, ApplyCommit, PollCommit, EndTask, Announces;
    var w1 := CommitHeard(w, x);
    var w2 := TaskEndsWell(w1);
    next, ack := PollReports(w2, x.seqNo + 1, x.fileId, |x.content|);
    var arrives := [CommitArrives(ChunkTransfer.CommitOf(x), 0, false, 0, true)];
    Joins(w, arrives, w1, [ChunkProtocol.Step.TaskEnds(true)], w2);
    Joins(w, arrives + [ChunkProtocol.Step.TaskEnds(true)], w2, [ChunkProtocol.Step.Poll(0, true)], next);
  }

  lemma StillSized(w: World)
    requires ChunkProtocol.Inv(w)
    ensures w.resend.Sized() && Shaped(w.receiver.chunk)
  {
  }

  /** A task that the receiver waits for can be carried through: by its own messages alone every chunk is acknowledged,
      the file committed, and the sender told that the receiver expects the next seq. */
  lemma AwaitedTaskIsDelivered(start: World, x: Sending)
      returns (steps: seq<ChunkProtocol.Step>, w: World, ack: Ack)
    requires Awaited(start, x)
    ensures ChunkProtocol.Inv(start) && ChunkProtocol.Reaches(start, steps, w) && AllPlain(x, steps)
    ensures AllAcked(w.resend) && |w.resend.acked| == x.count && ChunkProtocol.CommitOf(start.task) in w.toReceiver
    ensures w.receiver.chunk.expectedSeq == x.seqNo + 1 && ack in w.toSender && ack.nextSeq == x.seqNo + 1
  {
    hide ChunkProtocol.Inv, ChunkProtocol.Reaches, Receiving, Starts, FullChecksum;
    var w1 := BeginSent(start, x);
    var w2 := BeginHeard(w1, x);
    Joins(start, [Send(BeginOf(x))], w1, [BeginArrives(BeginOf(x), 0, SMOOTH)], w2);
    var chunks, w3, f, log := ChunksArrive(w2, x, NewFile(BeginOf(x)), map[], x.count);
    var begun := [Send(BeginOf(x))] + [BeginArrives(BeginOf(x), 0, SMOOTH)];
    Joins(start, begun, w2, chunks, w3);
    var w4 := SendsCommit(w3);
    Joins(start, begun + chunks, w3, [SendCommit], w4);
    AllReceived(w3.receiver.chunk, x, f, log);
    w, ack := CommitDelivers(w4, x, f, log);
    Joins(start, begun + chunks + [SendCommit], w4, CommitSteps(x), w);
    steps := begun + chunks + [SendCommit] + CommitSteps(x);
  }

  lemma AllReceived(s: ChunkStream, x: Sending, f: ActiveFile, log: ChunkFiles.Payloads)
    requires x.Fits() && Receiving(s, x, f, log) && forall k :: 0 <= k < |f.received| ==> f.received[k]
    ensures f.receivedCount == f.chunkCount
  {
    ChunkFiles.CountBounds(f.received);
    hide ChunkContents.FromSource, FullChecksum, ChunkCount;
  }

  // ---------- With the bytes ----------

  /** A run by the file's own messages is allowed where the payloads are recorded. */
  lemma {:induction false} PlainRunsDeliver(d: ChunkDelivery.Delivery, x: Sending, steps: seq<ChunkProtocol.Step>, w: World)
      returns (end: ChunkDelivery.Delivery)
    requires ChunkDelivery.Inv(d) && ChunkProtocol.Inv(d.world) && ChunkProtocol.Reaches(d.world, steps, w)
    requires x.Fits() && AllPlain(x, steps) && Announces(d.world.task, x) && x.content == d.source
    ensures ChunkDelivery.Reaches(d, steps, end) && end.world == w
    decreases |steps|
  {
    hide ChunkProtocol.Inv, ChunkDelivery.Inv, ChunkProtocol.Next, Enabled, FullChecksum, ChunkContents.Slice, ChunkDelivery.Accepted;
    if steps == [] {
      end := d;
    } else {
      ChunkDelivery.HeardIn(d);
      assert Plain(x, steps[0]);
      assert ChunkDelivery.Allowed(d, steps[0]);
      ChunkDelivery.NextInv(d, steps[0]);
      ChunkProtocol.NextInv(d.world, steps[0]);
      NextTask(d.world, steps[0]);
      end := PlainRunsDeliver(ChunkDelivery.Next(d, steps[0]), x, steps[1..], w);
    }
  }

  /** And the file that it leaves under the task's name is the source. */
  lemma AwaitedSourceArrives(start: ChunkDelivery.Delivery, x: Sending)
      returns (steps: seq<ChunkProtocol.Step>, end: ChunkDelivery.Delivery)
    requires ChunkDelivery.StartsDelivery(start) && Awaited(start.world, x) && x.content == start.source
    ensures ChunkDelivery.Inv(start) && ChunkDelivery.Reaches(start, steps, end)
    ensures end.final == Some(start.source) && AllAcked(end.world.resend)
    ensures end.world.receiver.chunk.expectedSeq == start.world.task.seqNo + 1
    ensures exists ack <- end.world.toSender :: ack.nextSeq > start.world.task.seqNo
  {
    ChunkDelivery.StartHolds(start);
    hide ChunkProtocol.Inv, ChunkProtocol.Reaches, ChunkDelivery.Inv, ChunkDelivery.Reaches, Starts, ChunkDelivery.StartsDelivery, AllPlain;
    var w, ack;
    steps, w, ack := AwaitedTaskIsDelivered(start.world, x);
    end := PlainRunsDeliver(start, x, steps, w);
    ChunkDelivery.CompletionMeansDelivered(start, steps, end, ack);
  }
}
