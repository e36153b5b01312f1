/** A chunked file from sender to receiver over lines that lose, repeat and reorder messages: the transitions of
    src/sender/yisync_sender_app.cpp, the coordinator of src/receiver/yisync_receiver_coordinator.cpp and the batched
    heartbeats of src/network/yisync_network.cpp, for one task of one stream while the receiver is not restarted.
    Sent messages stay in a set for ever, and any of them may arrive at any time, or never. */
module ChunkProtocol {
  import opened Wire
  import opened Messages
  import opened ChunkResendSpec
  import opened ChunkStreams
  import opened CommitCoordinator
  import opened Heartbeats
  import ChunkFiles

  /** What the sender announces for its file. */
  datatype Task = Task(streamId: U64, seqNo: U64, fileId: U64, finalSize: U64, chunkSize: U64, chunkCount: U64)

  datatype World = World(
    task: Task, resend: Resend, commitSent: bool,
    toReceiver: set<Message>,
    receiver: Context,
    /** expected_seq of the stream's append receiver. */
    appendSeq: U64,
    batchSize: U64, held: map<U32, Ack>,
    toSender: set<Ack>)

  /** A message of the stream about the task's seq is one the sender makes for the task. */
  predicate Honest(t: Task, m: Message) {
    match m
    case FileBegin(streamId, seqNo, fileId, _, finalSize, chunkSize, chunkCount, _, _, _, _) =>
      streamId == t.streamId && seqNo == t.seqNo ==>
        fileId == t.fileId && finalSize == t.finalSize && chunkSize == t.chunkSize && chunkCount == t.chunkCount
    case Chunk(streamId, seqNo, fileId, _, _, _, _, _, _, _) =>
      streamId == t.streamId && seqNo == t.seqNo ==> fileId == t.fileId
    case FileCommit(streamId, seqNo, fileId) =>
      streamId == t.streamId && seqNo == t.seqNo ==> fileId == t.fileId
    case _ => true
  }

  function CommitOf(t: Task): CommitMessage { FileCommit(t.streamId, t.seqNo, t.fileId) }

  predicate AllAcked(r: Resend) { forall i :: 0 <= i < |r.acked| ==> r.acked[i] }

  // ---------- Steps ----------

  datatype Step =
    /** The sender sends a FILE_BEGIN or CHUNK, of this task or of another file. */
    | Send(m: Message)
    | SendCommit
    /** The line that carried the FILE_COMMIT failed. */
    | CommitLost
    /** A send is marked, a loss reported, or the whole file reset for a new round. */
    | Resending(op: Op)
    | HeartbeatArrives(ack: Ack)
    | BeginArrives(begin: BeginMessage, lineId: U32, beginDisk: BeginDisk)
    | ChunkArrives(chunk: ChunkMessage, lineId: U32, writeDisk: WriteDisk, gaps: seq<MissingRange>)
    | CommitArrives(commit: CommitMessage, lineId: U32, finalExists: bool, infoSize: U64, accepted: bool)
    /** The append side of the stream changed the directory. */
    | Rescan(latest: Option<Latest>)
    /** The append receiver's expected_seq changes. */
    | AppendMoves(seqNo: U64)
    /** It reports a CREATE, a DATA or a finished fsync. */
    | AppendReports(lineId: U32, fileId: U64, offset: U64, durableOffset: U64, flush: bool)
    | TaskEnds(ok: bool)
    /** The heartbeat of a finished commit is dropped when its line has closed. */
    | Poll(lineId: U32, lineOpen: bool)
    | Flush(lineId: U32)

  /** What may happen at this point. The append receiver stays within what the chunk receiver has seen, because the
      coordinator lets that one look at the directory before a report of the append side leaves. */
  predicate Enabled(w: World, step: Step) {
    match step
    case Send(m) => (m.FileBegin? || m.Chunk?) && Honest(w.task, m)
    case SendCommit => AllAcked(w.resend) && !w.commitSent
    case Resending(op) => op.Reset? || op.Sent? || op.Lost?
    case HeartbeatArrives(ack) => ack in w.toSender
    case BeginArrives(m, _, _) => m in w.toReceiver
    case ChunkArrives(m, _, _, _) => m in w.toReceiver
    case CommitArrives(m, _, _, _, _) => m in w.toReceiver || m.streamId != w.task.streamId || m.seqNo != w.task.seqNo
    case AppendMoves(seqNo) => seqNo <= w.receiver.chunk.expectedSeq
    case _ => true
  }

  /** on_heartbeat's loop over the received chunks. */
  function AckAll(r: Resend, t: Task, received: seq<ReceivedChunk>): (next: Resend)
    requires r.Sized()
    ensures next.Sized() && next.count == r.count
    decreases |received|
  {
    if received == [] then r
    else
      var c := received[0];
      AckAll(if c.seqNo == t.seqNo && c.fileId == t.fileId then Acknowledge(r, c.chunkIndex) else r, t, received[1..])
  }

  function FlushLine(w: World, lineId: U32): (r: World)
    ensures r == w.(held := r.held, toSender := r.toSender)
  {
    if lineId in w.held then w.(held := w.held - {lineId}, toSender := w.toSender + {w.held[lineId]}) else w
  }

  function Queue(w: World, lineId: U32, ack: Ack, flush: bool): (r: World)
    ensures r == w.(held := r.held, toSender := r.toSender)
  {
    var merged := if lineId in w.held then Merge(w.held[lineId], ack) else ack;
    var queued := w.(held := w.held[lineId := merged]);
    if flush || (w.batchSize != 0 && |merged.received| >= w.batchSize) then FlushLine(queued, lineId) else queued
  }

  /** A heartbeat of the coordinator, or nothing. */
  function Report(w: World, lineId: U32, action: Action, window: U64): (r: World)
    ensures r == w.(held := r.held, toSender := r.toSender)
  {
    match action
    case SendHeartbeat(nextSeq, fileId, offset, durableOffset) =>
      Queue(w, lineId, Ack(w.task.streamId, nextSeq, fileId, offset, durableOffset, window, [], []), true)
    case _ => w
  }

  const WINDOW: U64 := 1024

  function Next(w: World, step: Step): World
    requires Shaped(w.receiver.chunk) && w.resend.Sized()
  {
    match step
    case Send(m) => w.(toReceiver := w.toReceiver + {m})
    case SendCommit => w.(toReceiver := w.toReceiver + {CommitOf(w.task)}, commitSent := true)
    case CommitLost => w.(commitSent := false)
    case Resending(op) => w.(resend := Apply(w.resend, op), commitSent := w.commitSent && !op.Reset?)
    case HeartbeatArrives(ack) =>
      if ack.streamId != w.task.streamId then w
      else w.(resend := ApplyHints(AckAll(w.resend, w.task, ack.received), w.task.seqNo, w.task.fileId, ack.missing))
    case BeginArrives(m, lineId, disk) =>
      var (chunk, reply) := ApplyBegin(w.receiver.chunk, m, disk);
      var heard := w.(receiver := w.receiver.(chunk := chunk));
      if !reply.Fine? then heard
      else Queue(heard, lineId, Ack(m.streamId, chunk.expectedSeq, m.fileId, 0, 0, WINDOW, [], []), true)
    case ChunkArrives(m, lineId, disk, gaps) =>
      var (chunk, reply) := ApplyChunk(w.receiver.chunk, m, disk);
      var heard := w.(receiver := w.receiver.(chunk := chunk));
      if !reply.Fine? then heard
      else Queue(heard, lineId, Ack(m.streamId, chunk.expectedSeq, m.fileId, 0, 0, WINDOW,
                                    [ReceivedChunk(m.seqNo, m.fileId, m.chunkIndex)], gaps), false)
    case CommitArrives(m, lineId, finalExists, infoSize, accepted) =>
      var (receiver, action) := ApplyCommit(w.receiver, m, finalExists, infoSize, accepted);
      Report(w.(receiver := receiver), lineId, action, WINDOW)
    case Rescan(latest) => w.(receiver := w.receiver.(chunk := Refresh(w.receiver.chunk, latest)))
    case AppendMoves(seqNo) => w.(appendSeq := seqNo)
    case AppendReports(lineId, fileId, offset, durableOffset, flush) =>
      Queue(w, lineId, Ack(w.task.streamId, w.appendSeq, fileId, offset, durableOffset, WINDOW, [], []), flush)
    case TaskEnds(ok) => w.(receiver := EndTask(w.receiver, ok))
    case Poll(lineId, lineOpen) =>
      var (receiver, action) := PollCommit(w.receiver);
      if lineOpen then Report(w.(receiver := receiver), lineId, action, WINDOW) else w.(receiver := receiver)
    case Flush(lineId) => FlushLine(w, lineId)
  }

  // ---------- What a heartbeat does ----------

  /** The heartbeat lists chunk `i` of the task. */
  predicate Listed(t: Task, received: seq<ReceivedChunk>, i: nat) {
    exists c <- received :: c.seqNo == t.seqNo && c.fileId == t.fileId && c.chunkIndex == i
  }

  /** One of its ranges reaches chunk `i`. */
  predicate Asked(t: Task, missing: seq<MissingRange>, i: nat) {
    exists r <- missing :: r.seqNo == t.seqNo && r.fileId == t.fileId && r.first <= i <= r.last
  }

  lemma {:induction false} AckAllMeans(r: Resend, t: Task, received: seq<ReceivedChunk>, i: nat)
    requires r.Sized() && i < r.count
    ensures var next, listed := AckAll(r, t, received), Listed(t, received, i);
      && next.acked[i] == (r.acked[i] || listed) && next.sent[i] == (r.sent[i] || listed)
      && next.priority[i] == (r.priority[i] && !listed) && next.line[i] == (if listed then 0 else r.line[i])
      && next.sendTick == r.sendTick && next.attempts == r.attempts && next.order == r.order
    decreases |received|
  {
    if received != [] {
      var c := received[0];
      assert received == [c] + received[1..];
      AckAllMeans(if c.seqNo == t.seqNo && c.fileId == t.fileId then Acknowledge(r, c.chunkIndex) else r, t, received[1..], i);
    }
  }

  /** A heartbeat of the stream acknowledges exactly the chunks that it lists; of the chunks still missing, those in its
      ranges go first. A heartbeat of another stream changes nothing. */
  lemma HeartbeatAcknowledges(w: World, ack: Ack, i: nat)
    requires Shaped(w.receiver.chunk) && w.resend.Sized() && i < w.resend.count
    ensures var r, next := w.resend, Next(w, HeartbeatArrives(ack));
      && next == w.(resend := next.resend) && next.resend.Sized() && next.resend.count == r.count && next.resend.order == r.order
      && var ours := ack.streamId == w.task.streamId;
      && var listed := ours && exists c <- ack.received ::
           c.seqNo == w.task.seqNo && c.fileId == w.task.fileId && c.chunkIndex == i;
      && var asked := ours && exists m <- ack.missing ::
           m.seqNo == w.task.seqNo && m.fileId == w.task.fileId && m.first <= i <= m.last;
      && (next.resend.acked[i] <==> r.acked[i] || listed)
      && (next.resend.sent[i] <==> r.sent[i] || listed)
      && (next.resend.priority[i] <==> (r.priority[i] && !listed) || (asked && !next.resend.acked[i]))
      && next.resend.line[i] == (if listed then 0 else r.line[i])
      && next.resend.sendTick == r.sendTick && next.resend.attempts == r.attempts
  {
    AckAllMeans(w.resend, w.task, ack.received, i);
    hide AckAll;
    assert Listed(w.task, ack.received, i) <==> exists c <- ack.received ::
        c.seqNo == w.task.seqNo && c.fileId == w.task.fileId && c.chunkIndex == i;
    assert Asked(w.task, ack.missing, i) <==> Hinted(ack.missing, w.task.seqNo, w.task.fileId, w.resend.count, i);
  }

  // ---------- What the receiver answers ----------

  /** A heartbeat with this news is held for the line, or on its way; what was held stays in it. */
  ghost predicate Tells(w: World, next: World, lineId: U32, nextSeq: U64, fileId: U64, received: seq<ReceivedChunk>,
                        missing: seq<MissingRange>, sent: bool) {
    exists ack ::
      && (if sent then ack in next.toSender else lineId in next.held && next.held[lineId] == ack)
      && ack.nextSeq == nextSeq && ack.fileId == fileId && ack.missing == missing
      && ack.received == (if lineId in w.held then w.held[lineId].received else []) + received
  }

  /** A FILE_BEGIN that is taken, or was taken before, is answered at once with what the receiver expects; another one with a
      Nack alone. */
  lemma BeginIsAnswered(w: World, m: BeginMessage, lineId: U32, disk: BeginDisk)
    requires Shaped(w.receiver.chunk) && w.resend.Sized()
    ensures var next := Next(w, BeginArrives(m, lineId, disk));
      if ApplyBegin(w.receiver.chunk, m, disk).1.Fine? then
        Tells(w, next, lineId, next.receiver.chunk.expectedSeq, m.fileId, [], [], true) && lineId !in next.held
      else next.held == w.held && next.toSender == w.toSender
  {
    hide ApplyBegin;
    var next := Next(w, BeginArrives(m, lineId, disk));
    var ack := Ack(m.streamId, next.receiver.chunk.expectedSeq, m.fileId, 0, 0, WINDOW, [], []);
    if lineId in w.held {
      ack := Merge(w.held[lineId], ack);
    }
    assert ApplyBegin(w.receiver.chunk, m, disk).1.Fine? ==> ack in next.toSender;
  }

  /** A CHUNK that is stored, or was stored before, is listed in what the line holds, or in what leaves with it once enough
      chunks are listed. */
  lemma ChunkIsAnswered(w: World, m: ChunkMessage, lineId: U32, disk: WriteDisk, gaps: seq<MissingRange>)
    requires Shaped(w.receiver.chunk) && w.resend.Sized()
    ensures var next := Next(w, ChunkArrives(m, lineId, disk, gaps));
      if ApplyChunk(w.receiver.chunk, m, disk).1.Fine? then
        var count := 1 + if lineId in w.held then |w.held[lineId].received| else 0;
        Tells(w, next, lineId, next.receiver.chunk.expectedSeq, m.fileId, [ReceivedChunk(m.seqNo, m.fileId, m.chunkIndex)], gaps,
              0 < w.batchSize <= count)
      else next.held == w.held && next.toSender == w.toSender
  {
    hide ApplyChunk;
    var next := Next(w, ChunkArrives(m, lineId, disk, gaps));
    var ack := Ack(m.streamId, next.receiver.chunk.expectedSeq, m.fileId, 0, 0, WINDOW,
                   [ReceivedChunk(m.seqNo, m.fileId, m.chunkIndex)], gaps);
    if lineId in w.held {
      ack := Merge(w.held[lineId], ack);
    }
    assert ApplyChunk(w.receiver.chunk, m, disk).1.Fine? ==> ack in next.toSender || (lineId in next.held && next.held[lineId] == ack);
  }

  /** A FILE_COMMIT of a file that the receiver is past is answered at once, when no commit is under way. */
  lemma LateCommitIsAnswered(w: World, m: CommitMessage, lineId: U32, finalExists: bool, infoSize: U64, accepted: bool)
    requires Shaped(w.receiver.chunk) && w.resend.Sized()
    requires m.streamId == w.receiver.chunk.streamId && m.seqNo < w.receiver.chunk.expectedSeq && !w.receiver.queued
    ensures var next := Next(w, CommitArrives(m, lineId, finalExists, infoSize, accepted));
      Tells(w, next, lineId, w.receiver.chunk.expectedSeq, m.fileId, [], [], true) && next.receiver == w.receiver
  {
    var next := Next(w, CommitArrives(m, lineId, finalExists, infoSize, accepted));
    var ack := Ack(w.task.streamId, w.receiver.chunk.expectedSeq, m.fileId, infoSize, infoSize, WINDOW, [], []);
    if lineId in w.held {
      ack := Merge(w.held[lineId], ack);
    }
    assert ack in next.toSender;
  }

  // ---------- One stream's part of the heartbeat queue ----------

  /** `held` is what the queue holds for the stream, by line. */
  ghost predicate Projects(held: map<U32, Ack>, pending: Pending, streamId: U64) {
    && (forall l <- held :: Key(l, streamId) in pending && pending[Key(l, streamId)] == held[l])
    && (forall k <- pending :: k.streamId == streamId ==> k.lineId in held)
  }

  /** The stream's heartbeats among those that leave with a line. */
  function Leaving(pending: Pending, lineId: U32, streamId: U64): set<Ack> {
    set k | k in pending && k == Key(lineId, streamId) :: pending[k]
  }

  /** flush_heartbeats, for the stream. */
  lemma FlushProjects(w: World, pending: Pending, lineId: U32)
    requires Projects(w.held, pending, w.task.streamId)
    ensures Projects(FlushLine(w, lineId).held, WithoutLine(pending, lineId), w.task.streamId)
    ensures FlushLine(w, lineId).toSender == w.toSender + Leaving(pending, lineId, w.task.streamId)
  {
  }

  /** What leaves with a line, in any order that lists it, holds exactly one heartbeat of the stream, or none. */
  lemma LeavingIsSent(order: seq<Key>, pending: Pending, lineId: U32, streamId: U64, ack: Ack)
    requires ListsLine(order, pending, lineId)
    ensures ack in Leaving(pending, lineId, streamId) <==>
              exists i :: 0 <= i < |order| && order[i].streamId == streamId && order[i] in pending && pending[order[i]] == ack
  {
    if ack in Leaving(pending, lineId, streamId) {
      assert Key(lineId, streamId) in order;
    }
    forall i | 0 <= i < |order| ensures order[i] in pending && order[i].lineId == lineId {
      assert order[i] in order;
    }
  }

  /** queue_heartbeat and, for `flush`, flush_heartbeats behind it: the stream sees what `Queue` does. */
  lemma QueueProjects(w: World, pending: Pending, lineId: U32, ack: Ack, flush: bool)
    requires Projects(w.held, pending, w.task.streamId) && ack.streamId == w.task.streamId
    ensures var next, merged := Queue(w, lineId, ack, flush), Merging(pending, lineId, ack);
      if flush || FullBatch(w.batchSize, pending, lineId, ack) then
        && Projects(next.held, WithoutLine(merged, lineId), w.task.streamId)
        && next.toSender == w.toSender + Leaving(merged, lineId, w.task.streamId)
      else Projects(next.held, merged, w.task.streamId) && next.toSender == w.toSender
  {
    var queued := w.(held := w.held[lineId := if lineId in w.held then Merge(w.held[lineId], ack) else ack]);
    assert Projects(queued.held, Merging(pending, lineId, ack), w.task.streamId);
    FlushProjects(queued, Merging(pending, lineId, ack), lineId);
    hide FlushLine;
  }

  /** A heartbeat of another stream leaves the stream's part as it is, unless its batch is full. */
  lemma OtherProjects(w: World, pending: Pending, lineId: U32, ack: Ack)
    requires Projects(w.held, pending, w.task.streamId) && ack.streamId != w.task.streamId
    ensures Projects(w.held, Merging(pending, lineId, ack), w.task.streamId)
  {
  }

  // ---------- The invariant ----------

  /** The receiver has the chunk, or is past the file. */
  predicate Stored(t: Task, s: ChunkStream, i: nat) {
    t.seqNo < s.expectedSeq ||
    (t.seqNo in s.active && s.active[t.seqNo].fileId == t.fileId && i < |s.active[t.seqNo].received|
     && s.active[t.seqNo].received[i])
  }

  /** The heartbeat reports only stored chunks of the task, and no seq beyond the receiver's. */
  predicate Truthful(t: Task, s: ChunkStream, ack: Ack) {
    && ack.nextSeq <= s.expectedSeq
    && forall c <- ack.received :: c.seqNo == t.seqNo && c.fileId == t.fileId ==> Stored(t, s, c.chunkIndex)
  }

  /** What the receiver keeps about its active files. */
  predicate Counted(t: Task, s: ChunkStream) {
    forall k <- s.active ::
      var f := s.active[k];
      && FileShaped(f) && f.seqNo == k <= s.expectedSeq
      && f.receivedCount == ChunkFiles.CountTrue(f.received)
      && (k == t.seqNo ==> f.fileId == t.fileId && f.chunkCount == t.chunkCount)
  }

  predicate AcksStored(t: Task, s: ChunkStream, r: Resend) {
    forall i :: 0 <= i < |r.acked| && r.acked[i] ==> Stored(t, s, i)
  }

  predicate Inv(w: World) {
    var t, s := w.task, w.receiver.chunk;
    && s.streamId == t.streamId && t.seqNo < 0xFFFF_FFFF_FFFF_FFFF && Owned(w.receiver) && Counted(t, s)
    && w.appendSeq <= s.expectedSeq
    && w.resend.Sized() && w.resend.count == t.chunkCount > 0
    && (forall m <- w.toReceiver :: Honest(t, m))
    && AcksStored(t, s, w.resend)
    && (forall l <- w.held :: Truthful(t, s, w.held[l]))
    && (forall a <- w.toSender :: Truthful(t, s, a))
    && (w.commitSent || CommitOf(t) in w.toReceiver ==> forall i :: 0 <= i < t.chunkCount ==> Stored(t, s, i))
  }

  // ---------- The receiver only gains ----------

  /** expected_seq does not go back, and the task's file keeps its chunks until expected_seq passes it. */
  predicate Grows(t: Task, s: ChunkStream, s': ChunkStream) {
    && s'.streamId == s.streamId && s.expectedSeq <= s'.expectedSeq
    && (t.seqNo in s.active && t.seqNo >= s'.expectedSeq ==>
          && t.seqNo in s'.active
          && var f, g := s.active[t.seqNo], s'.active[t.seqNo];
             g.fileId == f.fileId && |g.received| == |f.received|
             && forall i :: 0 <= i < |f.received| && f.received[i] ==> g.received[i])
  }

  lemma GrowsKeeps(w: World, s': ChunkStream)
    requires Inv(w) && Grows(w.task, w.receiver.chunk, s')
    ensures AcksStored(w.task, s', w.resend)
    ensures forall l <- w.held :: Truthful(w.task, s', w.held[l])
    ensures forall a <- w.toSender :: Truthful(w.task, s', a)
    ensures (forall i :: 0 <= i < w.task.chunkCount ==> Stored(w.task, w.receiver.chunk, i)) ==>
              forall i :: 0 <= i < w.task.chunkCount ==> Stored(w.task, s', i)
  {
    hide Owned, Counted, Honest;
    forall i | Stored(w.task, w.receiver.chunk, i) ensures Stored(w.task, s', i) {}
  }

  lemma BeginGrows(t: Task, s: ChunkStream, m: BeginMessage, disk: BeginDisk)
    requires Counted(t, s) && Honest(t, m) && s.streamId == t.streamId
    ensures Counted(t, ApplyBegin(s, m, disk).0) && Grows(t, s, ApplyBegin(s, m, disk).0)
  {
    hide ChunkCount;
    ChunkFiles.CountNone(NewFile(m).received);
    hide ChunkFiles.CountTrue;
  }

  /** A CHUNK answered without a Nack is stored afterwards. */
  lemma ChunkGrows(t: Task, s: ChunkStream, m: ChunkMessage, disk: WriteDisk)
    requires Counted(t, s) && Shaped(s) && Honest(t, m) && s.streamId == t.streamId
    ensures var (s', reply) := ApplyChunk(s, m, disk);
      && Counted(t, s') && Grows(t, s, s')
      && (reply.Fine? && m.seqNo == t.seqNo && m.fileId == t.fileId ==> Stored(t, s', m.chunkIndex))
  {
    hide BadPayload, WriteAt, ExpectedLen;
    if m.seqNo in s.active && m.chunkIndex < |s.active[m.seqNo].received| && !s.active[m.seqNo].received[m.chunkIndex] {
      ChunkFiles.CountSet(s.active[m.seqNo].received, m.chunkIndex);
    }
    hide ChunkFiles.CountTrue;
  }

  lemma CommitGrows(t: Task, c: Context, m: CommitMessage, finalExists: bool, infoSize: U64, accepted: bool)
    requires Counted(t, c.chunk) && Owned(c)
    ensures var (c', action) := ApplyCommit(c, m, finalExists, infoSize, accepted);
      && Counted(t, c'.chunk) && Grows(t, c.chunk, c'.chunk)
      && (action.SendHeartbeat? ==> action.nextSeq <= c'.chunk.expectedSeq)
  {
    hide ChunkFiles.CountTrue, Prepare;
    PreparedFile(c.chunk, m, finalExists);
  }

  lemma PollGrows(t: Task, c: Context)
    requires Counted(t, c.chunk) && Owned(c) && t.seqNo < 0xFFFF_FFFF_FFFF_FFFF
    ensures var (c', action) := PollCommit(c);
      && Counted(t, c'.chunk) && Grows(t, c.chunk, c'.chunk)
      && (action.SendHeartbeat? ==> action.nextSeq <= c'.chunk.expectedSeq)
  {
    hide ChunkFiles.CountTrue;
  }

  // ---------- Every step keeps the invariant ----------

  lemma {:induction false} AckAllStored(t: Task, s: ChunkStream, r: Resend, received: seq<ReceivedChunk>)
    requires r.Sized() && AcksStored(t, s, r)
    requires forall c <- received :: c.seqNo == t.seqNo && c.fileId == t.fileId ==> Stored(t, s, c.chunkIndex)
    ensures AcksStored(t, s, AckAll(r, t, received))
    decreases |received|
  {
    hide Stored;
    if received != [] {
      var c := received[0];
      var next := if c.seqNo == t.seqNo && c.fileId == t.fileId then Acknowledge(r, c.chunkIndex) else r;
      assert c in received;
      AckAllStored(t, s, next, received[1..]);
    }
  }

  /** Only the receiver has moved, and only forward. */
  lemma ReceiverMoves(w: World, c: Context)
    requires Inv(w) && Owned(c) && Counted(w.task, c.chunk) && Grows(w.task, w.receiver.chunk, c.chunk)
    ensures Inv(w.(receiver := c))
  {
    GrowsKeeps(w, c.chunk);
    hide Owned, Counted, Stored, Honest, Truthful;
  }

  lemma MergeTruthful(t: Task, s: ChunkStream, held: Ack, later: Ack)
    requires Truthful(t, s, held) && Truthful(t, s, later)
    ensures Truthful(t, s, Merge(held, later))
  {
    hide Stored;
  }

  lemma QueueKeeps(w: World, lineId: U32, ack: Ack, flush: bool)
    requires Inv(w) && Truthful(w.task, w.receiver.chunk, ack)
    ensures Inv(Queue(w, lineId, ack, flush))
  {
    if lineId in w.held {
      MergeTruthful(w.task, w.receiver.chunk, w.held[lineId], ack);
    }
    hide Owned, Counted, Stored, Honest, Truthful, AcksStored, Merge;
  }

  lemma BeginArrivesInv(w: World, m: BeginMessage, lineId: U32, disk: BeginDisk)
    requires Inv(w) && m in w.toReceiver
    ensures Inv(Next(w, BeginArrives(m, lineId, disk)))
  {
    BeginGrows(w.task, w.receiver.chunk, m, disk);
    BeginOwned(w.receiver, m, disk);
    hide ApplyBegin, Owned, Counted, Grows, Honest, Stored, Queue;
    var (chunk, reply) := ApplyBegin(w.receiver.chunk, m, disk);
    ReceiverMoves(w, w.receiver.(chunk := chunk));
    if reply.Fine? {
      QueueKeeps(w.(receiver := w.receiver.(chunk := chunk)), lineId,
                 Ack(m.streamId, chunk.expectedSeq, m.fileId, 0, 0, WINDOW, [], []), true);
    }
  }

  lemma ChunkArrivesInv(w: World, m: ChunkMessage, lineId: U32, disk: WriteDisk, gaps: seq<MissingRange>)
    requires Inv(w) && m in w.toReceiver
    ensures Inv(Next(w, ChunkArrives(m, lineId, disk, gaps)))
  {
    ChunkGrows(w.task, w.receiver.chunk, m, disk);
    ChunkOwned(w.receiver, m, disk);
    hide ApplyChunk, Owned, Counted, Grows, Honest, Stored, Queue;
    var (chunk, reply) := ApplyChunk(w.receiver.chunk, m, disk);
    ReceiverMoves(w, w.receiver.(chunk := chunk));
    if reply.Fine? {
      var ack := Ack(m.streamId, chunk.expectedSeq, m.fileId, 0, 0, WINDOW,
                     [ReceivedChunk(m.seqNo, m.fileId, m.chunkIndex)], gaps);
      assert forall c <- ack.received :: c == ReceivedChunk(m.seqNo, m.fileId, m.chunkIndex);
      QueueKeeps(w.(receiver := w.receiver.(chunk := chunk)), lineId, ack, false);
    }
  }

  lemma ReportKeeps(w: World, lineId: U32, action: Action)
    requires Inv(w) && (action.SendHeartbeat? ==> action.nextSeq <= w.receiver.chunk.expectedSeq)
    ensures Inv(Report(w, lineId, action, WINDOW))
  {
    hide Inv, Queue;
    if action.SendHeartbeat? {
      QueueKeeps(w, lineId, Ack(w.task.streamId, action.nextSeq, action.fileId, action.offset, action.durableOffset, WINDOW, [], []), true);
    }
  }

  lemma CommitArrivesInv(w: World, m: CommitMessage, lineId: U32, finalExists: bool, infoSize: U64, accepted: bool)
    requires Inv(w)
    ensures Inv(Next(w, CommitArrives(m, lineId, finalExists, infoSize, accepted)))
  {
    CommitGrows(w.task, w.receiver, m, finalExists, infoSize, accepted);
    CommitOwned(w.receiver, m, finalExists, infoSize, accepted);
    hide ApplyCommit, Owned, Counted, Grows, Report;
    var (receiver, action) := ApplyCommit(w.receiver, m, finalExists, infoSize, accepted);
    ReceiverMoves(w, receiver);
    ReportKeeps(w.(receiver := receiver), lineId, action);
  }

  lemma PollInv(w: World, lineId: U32, lineOpen: bool)
    requires Inv(w)
    ensures Inv(Next(w, Poll(lineId, lineOpen)))
  {
    PollGrows(w.task, w.receiver);
    PollOwned(w.receiver);
    hide PollCommit, Owned, Counted, Grows, Report;
    var (receiver, action) := PollCommit(w.receiver);
    ReceiverMoves(w, receiver);
    ReportKeeps(w.(receiver := receiver), lineId, action);
  }

  lemma HeartbeatArrivesInv(w: World, ack: Ack)
    requires Inv(w) && ack in w.toSender
    ensures Inv(Next(w, HeartbeatArrives(ack)))
  {
    assert Truthful(w.task, w.receiver.chunk, ack);
    AckAllStored(w.task, w.receiver.chunk, w.resend, ack.received);
    hide Owned, Counted, Stored, Honest, AckAll;
  }

  lemma OwnedMoves(c: Context, latest: Option<Latest>, ok: bool)
    requires Owned(c)
    ensures Owned(c.(chunk := Refresh(c.chunk, latest))) && Owned(EndTask(c, ok))
  {
  }

  lemma SenderInv(w: World, step: Step)
    requires Inv(w) && Enabled(w, step) && (step.Send? || step.SendCommit? || step.CommitLost? || step.Resending?)
    ensures Inv(Next(w, step))
  {
    hide Owned, Counted, Stored, Truthful;
  }

  lemma ReceiverInv(w: World, step: Step)
    requires Inv(w) && Enabled(w, step) && (step.Rescan? || step.AppendMoves? || step.TaskEnds? || step.Flush?)
    ensures Inv(Next(w, step))
  {
    hide Owned, Counted, Stored, Honest, Truthful;
    match step
    case Rescan(latest) =>
      OwnedMoves(w.receiver, latest, true);
      LooksAgain(w, latest);
    case TaskEnds(ok) =>
      OwnedMoves(w.receiver, None, ok);
      Ends(w, ok);
    case _ =>
  }

  lemma LooksAgain(w: World, latest: Option<Latest>)
    requires Inv(w) && Owned(w.receiver.(chunk := Refresh(w.receiver.chunk, latest)))
    ensures Inv(Next(w, Rescan(latest)))
  {
    hide Owned, Stored;
    ReceiverMoves(w, w.receiver.(chunk := Refresh(w.receiver.chunk, latest)));
  }

  lemma Ends(w: World, ok: bool)
    requires Inv(w) && Owned(EndTask(w.receiver, ok))
    ensures Inv(Next(w, Step.TaskEnds(ok)))
  {
    hide Owned, Stored;
    ReceiverMoves(w, EndTask(w.receiver, ok));
  }

  lemma NextInv(w: World, step: Step)
    requires Inv(w) && Enabled(w, step)
    ensures Inv(Next(w, step))
  {
    hide Owned, Counted, Stored, Honest, Truthful, Queue, Report, FlushLine;
    match step
    case HeartbeatArrives(ack) => HeartbeatArrivesInv(w, ack);
    case BeginArrives(m, lineId, disk) => BeginArrivesInv(w, m, lineId, disk);
    case ChunkArrives(m, lineId, disk, gaps) => ChunkArrivesInv(w, m, lineId, disk, gaps);
    case CommitArrives(m, lineId, finalExists, infoSize, accepted) =>
      CommitArrivesInv(w, m, lineId, finalExists, infoSize, accepted);
    case AppendReports(lineId, fileId, offset, durableOffset, flush) =>
      AppendReportsInv(w, lineId, fileId, offset, durableOffset, flush);
    case Poll(lineId, lineOpen) => PollInv(w, lineId, lineOpen);
    case Send(_) => SenderInv(w, step);
    case SendCommit => SenderInv(w, step);
    case CommitLost => SenderInv(w, step);
    case Resending(_) => SenderInv(w, step);
    case _ => ReceiverInv(w, step);
  }

  lemma AppendReportsInv(w: World, lineId: U32, fileId: U64, offset: U64, durableOffset: U64, flush: bool)
    requires Inv(w)
    ensures Inv(Next(w, AppendReports(lineId, fileId, offset, durableOffset, flush)))
  {
    hide Owned, Counted, Stored, Honest, Queue;
    var ack := Ack(w.task.streamId, w.appendSeq, fileId, offset, durableOffset, WINDOW, [], []);
    QueueKeeps(w, lineId, ack, flush);
  }

  // ---------- Every run ----------

  /** The task begins: nothing is sent or held, and no other file is active under its seq. */
  predicate Starts(w: World) {
    && w.receiver.chunk.streamId == w.task.streamId && w.task.seqNo < 0xFFFF_FFFF_FFFF_FFFF && w.task.chunkCount > 0
    && Owned(w.receiver) && Counted(w.task, w.receiver.chunk) && w.task.seqNo !in w.receiver.chunk.active
    && w.resend.count == w.task.chunkCount && w.resend == Fresh(w.resend.count, w.resend.order)
    && w.appendSeq <= w.receiver.chunk.expectedSeq
    && !w.commitSent && w.toReceiver == {} && w.held == map[] && w.toSender == {}
  }

  /** `w` after `steps`, each enabled where it is taken. */
  predicate Reaches(start: World, steps: seq<Step>, w: World)
    requires Inv(start)
    decreases |steps|
  {
    if steps == [] then w == start
    else Enabled(start, steps[0]) && (NextInv(start, steps[0]); Reaches(Next(start, steps[0]), steps[1..], w))
  }

  lemma NextTask(w: World, step: Step)
    requires Shaped(w.receiver.chunk) && w.resend.Sized()
    ensures Next(w, step).task == w.task
  {
  }

  lemma {:induction false} ReachedInv(start: World, steps: seq<Step>, w: World)
    requires Inv(start) && Reaches(start, steps, w)
    ensures Inv(w) && w.task == start.task
    decreases |steps|
  {
    if steps != [] {
      NextInv(start, steps[0]);
      NextTask(start, steps[0]);
      hide Inv, Enabled, Next;
      ReachedInv(Next(start, steps[0]), steps[1..], w);
    }
  }

  lemma StartInv(w: World)
    requires Starts(w)
    ensures Inv(w)
  {
    hide Owned, Counted;
  }

  /** The refusals that a FILE_COMMIT sent after all acknowledgements must never meet. */
  const EARLY := ["future seq", "commit received before FILE_BEGIN", "commit file_id mismatch", "commit already pending",
                  "not all chunks have been received"]

  /** A chunk that the sender holds as acknowledged is stored by the receiver, or the receiver is past the file. */
  lemma AcknowledgedIsStored(start: World, steps: seq<Step>, w: World, i: nat)
    requires Starts(start)
    ensures Inv(start)
    ensures Reaches(start, steps, w) && i < |w.resend.acked| && w.resend.acked[i] ==> Stored(start.task, w.receiver.chunk, i)
  {
    StartInv(start);
    if Reaches(start, steps, w) {
      ReachedInv(start, steps, w);
    }
    hide Inv, Reaches, Owned, Counted;
  }

  lemma StoredAllowsCommit(t: Task, c: Context, finalExists: bool, infoSize: U64, accepted: bool)
    requires Owned(c) && Counted(t, c.chunk) && c.chunk.streamId == t.streamId && t.chunkCount > 0
    requires forall i :: 0 <= i < t.chunkCount ==> Stored(t, c.chunk, i)
    ensures var action := ApplyCommit(c, CommitOf(t), finalExists, infoSize, accepted).1;
      action.SendNack? ==> action.reply.detail !in EARLY
  {
    assert Stored(t, c.chunk, 0);
    if t.seqNo >= c.chunk.expectedSeq {
      var f := c.chunk.active[t.seqNo];
      forall i | 0 <= i < t.chunkCount ensures f.received[i] {
        assert Stored(t, c.chunk, i);
      }
      ChunkFiles.CountBounds(f.received);
    }
    hide ChunkFiles.CountTrue, Counted, Stored;
  }

  /** Whenever and however often it arrives, a FILE_COMMIT of the task is not refused as early, incomplete or misdirected. */
  lemma CommitIsNeverEarly(start: World, steps: seq<Step>, w: World, finalExists: bool, infoSize: U64, accepted: bool)
    requires Starts(start)
    ensures Inv(start)
    ensures Reaches(start, steps, w) && CommitOf(start.task) in w.toReceiver ==>
              var action := ApplyCommit(w.receiver, CommitOf(start.task), finalExists, infoSize, accepted).1;
              action.SendNack? ==> action.reply.detail !in EARLY
  {
    StartInv(start);
    hide Reaches, ApplyCommit, Owned, Counted, Stored, Truthful, Honest, AcksStored;
    if Reaches(start, steps, w) && CommitOf(start.task) in w.toReceiver {
      ReachedInv(start, steps, w);
      StoredAllowsCommit(start.task, w.receiver, finalExists, infoSize, accepted);
    }
  }

  /** When a heartbeat makes the sender move on to its next task, the receiver has moved past the file. */
  lemma CompletionIsReal(start: World, steps: seq<Step>, w: World, ack: Ack)
    requires Starts(start)
    ensures Inv(start)
    ensures Reaches(start, steps, w) && ack in w.toSender && ack.nextSeq > start.task.seqNo ==>
              w.receiver.chunk.expectedSeq > start.task.seqNo
  {
    StartInv(start);
    if Reaches(start, steps, w) && ack in w.toSender {
      ReachedInv(start, steps, w);
      assert Truthful(w.task, w.receiver.chunk, ack);
    }
  }
}
