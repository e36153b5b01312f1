/** What completion means for the file: the protocol of a chunked task, joined with what the temp file holds, when the
    sender's chunks are those of its source. */
module ChunkDelivery {
  import opened Wire
  import opened Messages
  import opened ChunkResendSpec
  import opened ChunkStreams
  import opened ChunkContents
  import opened ChunkProtocol
  import ChunkFiles
  import CommitCoordinator
  import opened Heartbeats

  /** The world, the source, the payloads accepted so far, and what the disk thread has renamed to the task's name. */
  datatype Delivery = Delivery(world: World, source: Bytes, log: ChunkFiles.Payloads, final: Option<Bytes>)

  /** A chunk of the task carries the bytes of the source with its index. */
  predicate HonestChunk(d: Delivery, m: Message) {
    m.Chunk? && m.streamId == d.world.task.streamId && m.seqNo == d.world.task.seqNo ==>
      m.payload == Slice(d.source, d.world.task.chunkSize, m.chunkIndex)
  }

  /** No one else makes the task's entry: until the file has its name a scan ends below the task's seq. */
  predicate Allowed(d: Delivery, step: Step) {
    && Enabled(d.world, step)
    && (step.Send? ==> HonestChunk(d, step.m))
    && (step.Rescan? && step.latest.Some? && d.final.None? ==> step.latest.value.seqNo < d.world.task.seqNo)
  }

  /** The write behind a CHUNK, or the new file behind a FILE_BEGIN, as an event of the stream. */
  function Accepted(w: World, log: ChunkFiles.Payloads, step: Step): ChunkFiles.Payloads
    requires Shaped(w.receiver.chunk)
  {
    match step
    case BeginArrives(m, _, disk) => ChunkFiles.Record(w.receiver.chunk, log, ChunkFiles.OnBegin(m, disk))
    case ChunkArrives(m, _, disk, _) => ChunkFiles.Record(w.receiver.chunk, log, ChunkFiles.OnChunk(m, disk))
    case _ => log
  }

  /** The disk thread ends the task's commit well: the temp file has the task's name. */
  predicate Renames(w: World, step: Step) {
    step.TaskEnds? && step.ok && w.receiver.queued && w.receiver.completion.Running? && w.receiver.seqNo == w.task.seqNo
    && w.task.seqNo in w.receiver.chunk.active
  }

  function Next(d: Delivery, step: Step): Delivery
    requires Shaped(d.world.receiver.chunk) && d.world.resend.Sized()
  {
    Delivery(ChunkProtocol.Next(d.world, step), d.source, Accepted(d.world, d.log, step),
             if Renames(d.world, step) then Some(d.world.receiver.chunk.active[d.world.task.seqNo].temp) else d.final)
  }

  // ---------- The invariant ----------

  predicate Announced(t: Task, s: ChunkStream) {
    t.seqNo in s.active ==>
      s.active[t.seqNo].finalSize == t.finalSize && s.active[t.seqNo].chunkSize == t.chunkSize
  }

  /** The file has its name where the receiver is past it, or is about to be. */
  predicate NamedWhenPast(t: Task, c: CommitCoordinator.Context, final: Option<Bytes>, source: Bytes) {
    && (final.Some? ==> final.value == source)
    && (c.chunk.expectedSeq > t.seqNo ==> final.Some?)
    && (c.queued && c.seqNo == t.seqNo && c.completion.Completed? ==> final.Some?)
  }

  predicate Inv(d: Delivery) {
    var t, c := d.world.task, d.world.receiver;
    && ChunkProtocol.Inv(d.world)
    && |d.source| == t.finalSize && ChunkFiles.Exact(t.finalSize, t.chunkSize)
    && (forall m <- d.world.toReceiver :: HonestChunk(d, m))
    && ChunkFiles.Sound(c.chunk, d.log) && FromSource(d.log, t.seqNo, d.source, t.chunkSize)
    && Announced(t, c.chunk)
    && NamedWhenPast(t, c, d.final, d.source)
  }

  // ---------- The temp file ----------

  /** The accepted payloads stay those of the source, and the files stay sound. */
  predicate Holding(t: Task, s: ChunkStream, log: ChunkFiles.Payloads, source: Bytes) {
    ChunkFiles.Sound(s, log) && FromSource(log, t.seqNo, source, t.chunkSize) && Announced(t, s)
  }

  /** A FILE_BEGIN adds a file or changes nothing. */
  lemma BeginAdds(s: ChunkStream, m: BeginMessage, disk: BeginDisk)
    ensures var next := ApplyBegin(s, m, disk).0;
      next == s || (m.streamId == s.streamId && m.seqNo !in s.active && next == s.(active := s.active[m.seqNo := NewFile(m)]))
  {
    hide ChunkCount;
  }

  lemma BeginHolds(t: Task, s: ChunkStream, log: ChunkFiles.Payloads, source: Bytes, m: BeginMessage, disk: BeginDisk)
    requires Holding(t, s, log, source) && Honest(t, m) && s.streamId == t.streamId
    ensures Shaped(s)
    ensures Holding(t, ApplyBegin(s, m, disk).0, ChunkFiles.Record(s, log, ChunkFiles.OnBegin(m, disk)), source)
  {
    hide ChunkFiles.Sound, ApplyBegin, Slice;
    BeginAdds(s, m, disk);
    ChunkFiles.NextSound(s, log, ChunkFiles.OnBegin(m, disk));
  }

  lemma ChunkHolds(t: Task, s: ChunkStream, log: ChunkFiles.Payloads, source: Bytes, m: ChunkMessage, disk: WriteDisk)
    requires Holding(t, s, log, source) && s.streamId == t.streamId
    requires m.streamId == t.streamId && m.seqNo == t.seqNo ==> m.payload == Slice(source, t.chunkSize, m.chunkIndex)
    ensures Shaped(s)
    ensures Holding(t, ApplyChunk(s, m, disk).0, ChunkFiles.Record(s, log, ChunkFiles.OnChunk(m, disk)), source)
  {
    ChunkFiles.NextSound(s, log, ChunkFiles.OnChunk(m, disk));
    hide ChunkFiles.Sound, Slice, WriteAt, BadPayload, Refusal;
    ChunkKeepsSizes(s, m, disk);
  }

  /** A CHUNK changes no announced size. */
  lemma ChunkKeepsSizes(s: ChunkStream, m: ChunkMessage, disk: WriteDisk)
    requires Shaped(s)
    ensures ApplyChunk(s, m, disk).0.active.Keys == s.active.Keys
    ensures forall k <- s.active :: var f, g := s.active[k], ApplyChunk(s, m, disk).0.active[k];
                                    g.finalSize == f.finalSize && g.chunkSize == f.chunkSize
  {
    hide WriteAt, BadPayload, ExpectedLen;
  }

  lemma PendingHolds(t: Task, s: ChunkStream, log: ChunkFiles.Payloads, source: Bytes, m: CommitMessage, finalExists: bool)
    requires Holding(t, s, log, source)
    ensures Holding(t, AfterPrepare(s, Prepare(s, m, finalExists), m), log, source)
  {
    ChunkFiles.PrepareSound(s, log, m, finalExists);
    hide ChunkFiles.Sound, FromSource, Prepare;
  }

  lemma AbortHolds(t: Task, s: ChunkStream, log: ChunkFiles.Payloads, source: Bytes, seqNo: U64)
    requires Holding(t, s, log, source)
    ensures Holding(t, SetPending(s, seqNo, false), log, source)
  {
    ChunkFiles.AbortSound(s, log, seqNo);
    hide ChunkFiles.Sound, FromSource;
  }

  lemma CommitHolds(t: Task, c: CommitCoordinator.Context, log: ChunkFiles.Payloads, source: Bytes, m: CommitMessage,
                    finalExists: bool, infoSize: U64, accepted: bool)
    requires Holding(t, c.chunk, log, source)
    ensures Holding(t, CommitCoordinator.ApplyCommit(c, m, finalExists, infoSize, accepted).0.chunk, log, source)
  {
    hide Holding, Prepare;
    PendingHolds(t, c.chunk, log, source, m, finalExists);
    AbortHolds(t, AfterPrepare(c.chunk, Prepare(c.chunk, m, finalExists), m), log, source, m.seqNo);
  }

  lemma PollHolds(t: Task, c: CommitCoordinator.Context, log: ChunkFiles.Payloads, source: Bytes)
    requires Holding(t, c.chunk, log, source)
    ensures Holding(t, CommitCoordinator.PollCommit(c).0.chunk, log, source)
  {
    AbortHolds(t, c.chunk, log, source, c.seqNo);
    ChunkFiles.FinishSound(c.chunk, log, CommitResult(c.chunk.streamId, c.seqNo, c.fileId));
    hide ChunkFiles.Sound, FromSource, SetPending;
  }

  lemma HoldingKept(d: Delivery, step: Step)
    requires Inv(d) && Allowed(d, step)
    ensures Holding(d.world.task, Next(d, step).world.receiver.chunk, Next(d, step).log, d.source)
  {
    hide ChunkProtocol.Inv, ChunkFiles.Sound, FromSource, Announced, CommitCoordinator.ApplyCommit, CommitCoordinator.PollCommit,
         ApplyBegin, ApplyChunk, ChunkFiles.Record, Report, Queue, FlushLine, Slice, AckAll, Apply;
    Heard(d.world);
    var t, c := d.world.task, d.world.receiver;
    match step
    case BeginArrives(m, _, disk) => BeginHolds(t, c.chunk, d.log, d.source, m, disk);
    case ChunkArrives(m, _, disk, _) => ChunkHolds(t, c.chunk, d.log, d.source, m, disk);
    case CommitArrives(m, _, finalExists, infoSize, accepted) =>
      CommitHolds(t, c, d.log, d.source, m, finalExists, infoSize, accepted);
    case Poll(_, _) => PollHolds(t, c, d.log, d.source);
    case _ =>
      OthersKeepActive(d.world, step);
      SameActive(t, c.chunk, Next(d, step).world.receiver.chunk, d.log, d.source);
  }

  lemma SameActive(t: Task, s: ChunkStream, s': ChunkStream, log: ChunkFiles.Payloads, source: Bytes)
    requires Holding(t, s, log, source) && s'.active == s.active
    ensures Holding(t, s', log, source)
  {
    hide FromSource;
  }

  lemma OthersKeepActive(w: World, step: Step)
    requires Shaped(w.receiver.chunk) && w.resend.Sized()
    requires !step.BeginArrives? && !step.ChunkArrives? && !step.CommitArrives? && !step.Poll?
    ensures ChunkProtocol.Next(w, step).receiver.chunk.active == w.receiver.chunk.active
  {
  }

  lemma Heard(w: World)
    requires ChunkProtocol.Inv(w)
    ensures Shaped(w.receiver.chunk) && w.resend.Sized() && w.receiver.chunk.streamId == w.task.streamId
    ensures w.task.seqNo < 0xFFFF_FFFF_FFFF_FFFF
    ensures forall m <- w.toReceiver :: Honest(w.task, m)
  {
  }

  // ---------- The name ----------

  /** A pending file of the task is complete, and holds the source. */
  lemma PendingIsSource(d: Delivery)
    requires Inv(d) && d.world.receiver.queued && d.world.receiver.seqNo == d.world.task.seqNo
    ensures var t, s := d.world.task, d.world.receiver.chunk; t.seqNo in s.active && s.active[t.seqNo].temp == d.source
  {
    var t, s := d.world.task, d.world.receiver.chunk;
    QueuedIsPending(d.world);
    hide ChunkProtocol.Inv, NamedWhenPast;
    CompleteIsSource(s.active[t.seqNo], d.log, d.source);
  }

  lemma QueuedIsPending(w: World)
    requires ChunkProtocol.Inv(w) && w.receiver.queued
    ensures w.receiver.seqNo in w.receiver.chunk.active && w.receiver.chunk.active[w.receiver.seqNo].commitPending
    ensures w.receiver.seqNo <= w.receiver.chunk.expectedSeq && w.receiver.chunk.active[w.receiver.seqNo].seqNo == w.receiver.seqNo
  {
  }

  lemma CommitNames(t: Task, c: CommitCoordinator.Context, final: Option<Bytes>, source: Bytes, m: CommitMessage,
                    finalExists: bool, infoSize: U64, accepted: bool)
    requires NamedWhenPast(t, c, final, source)
    ensures NamedWhenPast(t, CommitCoordinator.ApplyCommit(c, m, finalExists, infoSize, accepted).0, final, source)
  {
    hide Prepare;
  }

  lemma PollNames(t: Task, c: CommitCoordinator.Context, final: Option<Bytes>, source: Bytes)
    requires NamedWhenPast(t, c, final, source) && t.seqNo < 0xFFFF_FFFF_FFFF_FFFF
    requires c.queued ==> c.seqNo in c.chunk.active && c.chunk.active[c.seqNo].seqNo == c.seqNo <= c.chunk.expectedSeq
    ensures NamedWhenPast(t, CommitCoordinator.PollCommit(c).0, final, source)
  {
  }

  /** A scan that ends below the task's seq does not pass it. */
  lemma RescanNames(t: Task, c: CommitCoordinator.Context, latest: Option<Latest>, final: Option<Bytes>, source: Bytes)
    requires NamedWhenPast(t, c, final, source)
    requires latest.Some? && final.None? ==> latest.value.seqNo < t.seqNo
    ensures NamedWhenPast(t, c.(chunk := Refresh(c.chunk, latest)), final, source)
  {
  }

  lemma TaskEndsNames(d: Delivery, ok: bool)
    requires Inv(d)
    ensures Shaped(d.world.receiver.chunk) && d.world.resend.Sized()
    ensures var next := Next(d, Step.TaskEnds(ok)); NamedWhenPast(d.world.task, next.world.receiver, next.final, d.source)
  {
    HeardIn(d);
    if d.world.receiver.queued {
      QueuedIsPending(d.world);
    }
    if Renames(d.world, Step.TaskEnds(ok)) {
      PendingIsSource(d);
    }
    hide ChunkProtocol.Inv, ChunkFiles.Sound, FromSource, Announced, ChunkFiles.Exact, HonestChunk;
  }

  /** A FILE_BEGIN or a CHUNK moves neither the commit nor expected_seq. */
  lemma BeginNames(s: ChunkStream, m: BeginMessage, disk: BeginDisk)
    ensures ApplyBegin(s, m, disk).0.expectedSeq == s.expectedSeq
  {
    hide ChunkCount;
  }

  lemma ChunkNames(s: ChunkStream, m: ChunkMessage, disk: WriteDisk)
    requires Shaped(s)
    ensures ApplyChunk(s, m, disk).0.expectedSeq == s.expectedSeq
  {
    hide Refusal, BadPayload, WriteAt;
  }

  lemma SameNames(t: Task, c: CommitCoordinator.Context, chunk: ChunkStream, final: Option<Bytes>, source: Bytes)
    requires NamedWhenPast(t, c, final, source) && chunk.expectedSeq == c.chunk.expectedSeq
    ensures NamedWhenPast(t, c.(chunk := chunk), final, source)
  {
  }

  lemma NamesKept(d: Delivery, step: Step)
    requires Inv(d) && Allowed(d, step)
    ensures NamedWhenPast(d.world.task, Next(d, step).world.receiver, Next(d, step).final, d.source)
  {
    Heard(d.world);
    hide ChunkProtocol.Inv, ChunkFiles.Sound, FromSource, Announced, ChunkFiles.Exact, CommitCoordinator.ApplyCommit,
         CommitCoordinator.PollCommit, ApplyBegin, ApplyChunk, ChunkFiles.Record, Queue, FlushLine, Slice, AckAll, Apply,
         HonestChunk, Honest, Report, Refresh, NamedWhenPast, CommitCoordinator.EndTask;
    var t, c := d.world.task, d.world.receiver;
    match step
    case BeginArrives(m, _, disk) =>
      BeginNames(c.chunk, m, disk);
      SameNames(t, c, ApplyBegin(c.chunk, m, disk).0, d.final, d.source);
    case ChunkArrives(m, _, disk, _) =>
      ChunkNames(c.chunk, m, disk);
      SameNames(t, c, ApplyChunk(c.chunk, m, disk).0, d.final, d.source);
    case CommitArrives(m, _, finalExists, infoSize, accepted) =>
      CommitNames(t, c, d.final, d.source, m, finalExists, infoSize, accepted);
    case Poll(_, _) =>
      if c.queued { QueuedIsPending(d.world); }
      PollNames(t, c, d.final, d.source);
    case Rescan(latest) => RescanNames(t, c, latest, d.final, d.source);
    case TaskEnds(ok) => TaskEndsNames(d, ok);
    case _ =>
  }

  // ---------- Every run ----------

  lemma NextInv(d: Delivery, step: Step)
    requires Inv(d) && Allowed(d, step)
    ensures Inv(Next(d, step))
  {
    ChunkProtocol.NextInv(d.world, step);
    NextTask(d.world, step);
    HoldingKept(d, step);
    NamesKept(d, step);
    SentHonest(d, step);
    hide ChunkProtocol.Inv, ChunkFiles.Sound, FromSource, Announced, ChunkFiles.Exact, ChunkProtocol.Next, NamedWhenPast, HonestChunk;
  }

  lemma SentHonest(d: Delivery, step: Step)
    requires Inv(d) && Allowed(d, step)
    ensures forall m <- Next(d, step).world.toReceiver :: HonestChunk(d, m)
  {
    hide ChunkProtocol.Inv, ChunkFiles.Sound, FromSource, Announced, ChunkFiles.Exact, Slice, Queue;
    Heard(d.world);
    forall m <- Next(d, step).world.toReceiver ensures HonestChunk(d, m) {
      Sent(d.world, step, m);
    }
  }

  lemma Sent(w: World, step: Step, m: Message)
    requires Shaped(w.receiver.chunk) && w.resend.Sized() && m in ChunkProtocol.Next(w, step).toReceiver
    ensures m in w.toReceiver || step == Send(m) || m.FileCommit?
  {
  }

  /** The task begins, and nothing has been accepted for it. */
  predicate StartsDelivery(d: Delivery) {
    && Starts(d.world) && d.world.receiver.chunk.expectedSeq <= d.world.task.seqNo
    && |d.source| == d.world.task.finalSize && ChunkFiles.Exact(d.world.task.finalSize, d.world.task.chunkSize)
    && ChunkFiles.Sound(d.world.receiver.chunk, d.log) && (forall k <- d.log :: k.0 != d.world.task.seqNo) && d.final.None?
  }

  lemma StartHolds(d: Delivery)
    requires StartsDelivery(d)
    ensures Inv(d)
  {
    StartInv(d.world);
    hide ChunkProtocol.Inv, ChunkFiles.Sound, ChunkFiles.Exact;
  }

  predicate Reaches(start: Delivery, steps: seq<Step>, d: Delivery)
    requires Inv(start)
    decreases |steps|
  {
    if steps == [] then d == start
    else Allowed(start, steps[0]) && (NextInv(start, steps[0]); Reaches(Next(start, steps[0]), steps[1..], d))
  }

  lemma {:induction false} ReachedInv(start: Delivery, steps: seq<Step>, d: Delivery)
    requires Inv(start) && Reaches(start, steps, d)
    ensures Inv(d) && d.source == start.source && d.world.task == start.world.task
    decreases |steps|
  {
    if steps != [] {
      hide Inv, Allowed, ChunkProtocol.Next;
      NextInv(start, steps[0]);
      HeardIn(start);
      NextTask(start.world, steps[0]);
      ReachedInv(Next(start, steps[0]), steps[1..], d);
    }
  }

  lemma HeardIn(d: Delivery)
    requires Inv(d)
    ensures Shaped(d.world.receiver.chunk) && d.world.resend.Sized()
  {
    Heard(d.world);
  }

  /** When any heartbeat of the stream makes the sender move on, the file under the task's name is the source. */
  lemma CompletionMeansDelivered(start: Delivery, steps: seq<Step>, d: Delivery, ack: Ack)
    requires StartsDelivery(start)
    ensures Inv(start)
    ensures Reaches(start, steps, d) && ack in d.world.toSender && ack.nextSeq > start.world.task.seqNo ==>
              d.final == Some(start.source)
  {
    StartHolds(start);
    hide Reaches, StartsDelivery;
    if Reaches(start, steps, d) && ack in d.world.toSender {
      ReachedInv(start, steps, d);
      AckIsTruthful(d.world, ack);
    }
    hide ChunkProtocol.Inv;
  }

  lemma AckIsTruthful(w: World, ack: Ack)
    requires ChunkProtocol.Inv(w) && ack in w.toSender
    ensures ack.nextSeq <= w.receiver.chunk.expectedSeq
  {
    assert Truthful(w.task, w.receiver.chunk, ack);
  }
}
