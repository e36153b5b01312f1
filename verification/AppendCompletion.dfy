/** When what the coordinator reports as durable can be relied on: the bound on what the sender counts as delivered, and what
    completion means for the disk, over the runs of AppendProtocol. */
module AppendCompletion {
  import opened Wire
  import opened Messages
  import opened Checksums
  import opened ChunkStreams
  import opened AppendStreams
  import opened SendBuffer
  import opened AppendProtocol
  import AppendDurability
  import SchedulerSpec

  /** The task's entry is the one that the receiver's session is at. */
  predicate Current(w: World) { w.receiver.currentFileId == w.task.fileId }

  predicate OwnReport(w: World, h: Report) { h in w.toSender && h.fileId == w.task.fileId }

  // ---------- What is reported as durable, and what the sender counts ----------

  predicate FieldsBounded(t: Task, r: AppendStream, f: AppendDurability.Fields) {
    r.currentFileId == t.fileId ==> f.durable <= r.currentOffset && f.target <= r.currentOffset && f.completed <= r.currentOffset
  }

  predicate ReportsBounded(t: Task, reports: set<Report>) {
    forall h <- reports :: h.fileId == t.fileId ==> h.durableOffset <= h.offset
  }

  /** Nothing durable is beyond the offset, neither known nor reported, and the sender counts no byte that is not there. */
  predicate Bounded(w: World) {
    && FieldsBounded(w.task, w.receiver, w.fields) && ReportsBounded(w.task, w.toSender)
    && w.sender.nextOffset <= Progress(w.task, w.receiver)
  }

  /** A repeated DATA of another entry, which resets the coordinator's fields although the session stays at the task's. */
  predicate LateData(w: World, m: DataMessage) {
    && m.streamId == w.task.streamId && m.seqNo < w.receiver.expectedSeq
    && Current(w) && m.fileId != w.task.fileId && m.fileId != w.fields.fileId
  }

  /** An fsync about to store its goal while the session is at the task's entry. */
  predicate StoresGoal(w: World, step: Step) { step.Stores? && w.fsyncs != [] && w.fsyncs[0].synced && Current(w) }

  /** The steps that report too much: a late DATA at an offset beyond the session's, and a late fsync of more than the
      session's file holds. */
  predicate Misdates(w: World, step: Step) {
    || (step.DataArrives? && LateData(w, step.data) && step.data.offset > w.receiver.currentOffset)
    || (StoresGoal(w, step) && w.fsyncs[0].fsync.goal > w.receiver.currentOffset)
  }

  /** What a CREATE does to the session that is at the task's entry, or comes to it. */
  lemma CreateMoves(t: Task, r: AppendStream, torn: bool, m: CreateMessage, disk: CreateDisk)
    requires ValidTask(t) && ReceiverInv(t, r, torn) && Honest(t, m)
    ensures var (r', reply) := ApplyCreate(r, m, disk);
      && Kept(t, r, r', torn)
      && (!reply.Fine? ==> r' == r)
      && (reply.Fine? && r'.currentFileId == t.fileId ==>
            r' == r || (NotCreated(t, r) && m.fileId == t.fileId && r'.currentOffset == 0))
  {
    CreateKeeps(t, r, torn, m, disk);
  }

  /** What a DATA does to it. */
  lemma DataMoves(t: Task, r: AppendStream, torn: bool, m: DataMessage, fallback: Blob, write: WriteDisk)
    requires ValidTask(t) && ReceiverInv(t, r, torn) && Honest(t, m) && r.currentFileId == t.fileId
    ensures var (r', reply) := ApplyData(r, m, fallback, write);
      && r'.currentOffset >= r.currentOffset
      && (reply.Fine? && m.fileId == t.fileId ==> m.offset < r'.currentOffset && m.offset < |t.source|)
      && (m.fileId != t.fileId ==> r' == r && (reply.Fine? <==> m.streamId == r.streamId && m.seqNo < r.expectedSeq))
  {
    hide Crc32cBytes, Append;
  }

  /** Resetting the fields for a file id other than theirs sets them to the message's offset. */
  lemma ResetBounded(t: Task, r: AppendStream, f: AppendDurability.Fields, fileId: U64, path: Option<Blob>, offset: U64)
    requires r.currentFileId == t.fileId && FieldsBounded(t, r, f)
    ensures FieldsBounded(t, r, AppendDurability.ResetFor(f, fileId, path, offset)) <==> f.fileId == fileId || offset <= r.currentOffset
  {
  }

  lemma EnqueueBounded(t: Task, r: AppendStream, f: AppendDurability.Fields, accepted: bool)
    requires r.currentFileId == t.fileId
    ensures FieldsBounded(t, r, AppendDurability.MaybeEnqueue(f, r.currentOffset, accepted).0) <==> FieldsBounded(t, r, f)
    ensures AppendDurability.MaybeEnqueue(f, r.currentOffset, accepted).0.durable == f.durable
  {
  }

  lemma OffsetGrows(t: Task, r: AppendStream, r': AppendStream, f: AppendDurability.Fields)
    requires FieldsBounded(t, r, f) && r.currentFileId == r'.currentFileId && r.currentOffset <= r'.currentOffset
    ensures FieldsBounded(t, r', f)
  {
  }

  lemma CreateBounded(w: World, m: CreateMessage, disk: CreateDisk)
    requires Inv(w) && Bounded(w) && m in w.toReceiver
    ensures Bounded(AfterCreate(w, m, ApplyCreate(w.receiver, m, disk)))
  {
    hide BufferInv, IsCreate, IsSegment, InProgress, Finished;
    CreateMoves(w.task, w.receiver, w.torn, m, disk);
    hide ApplyCreate, ReceiverInv, NotCreated;
  }

  lemma DataBounded(w: World, m: DataMessage, fallback: Blob, write: WriteDisk, accepted: bool)
    requires Inv(w) && Bounded(w) && Enabled(w, DataArrives(m, fallback, write, accepted))
    ensures Bounded(Next(w, DataArrives(m, fallback, write, accepted))) <==> !(LateData(w, m) && m.offset > w.receiver.currentOffset)
  {
    hide BufferInv, FieldsInv, IsCreate, IsSegment, InProgress, Finished, ApplyData, FieldsBounded, AppendDurability.MaybeEnqueue;
    var t := w.task;
    var (r, reply) := ApplyData(w.receiver, m, fallback, write);
    DataReceived(t, w.receiver, w.torn, m, fallback, write);
    DataTells(t, w.receiver, w.torn, m, fallback, write);
    hide ReceiverInv, Progress;
    if Current(w) {
      DataMoves(t, w.receiver, w.torn, m, fallback, write);
      OffsetGrows(t, w.receiver, r, w.fields);
      if reply.Fine? {
        var f := AppendDurability.ResetFor(w.fields, m.fileId, r.current, m.offset);
        ResetBounded(t, r, w.fields, m.fileId, r.current, m.offset);
        EnqueueBounded(t, r, f, accepted);
        DurableBounded(t, r, f);
      }
    } else {
      NothingBounded(t, r, Next(w, DataArrives(m, fallback, write, accepted)).fields);
    }
  }

  lemma NothingBounded(t: Task, r: AppendStream, f: AppendDurability.Fields)
    requires r.currentFileId != t.fileId
    ensures FieldsBounded(t, r, f)
  {
  }

  lemma DurableBounded(t: Task, r: AppendStream, f: AppendDurability.Fields)
    ensures FieldsBounded(t, r, f) && r.currentFileId == t.fileId ==> f.durable <= r.currentOffset
  {
  }

  lemma PollBounded(t: Task, r: AppendStream, f: AppendDurability.Fields, accepted: bool)
    requires FieldsBounded(t, r, f)
    ensures FieldsBounded(t, r, AppendDurability.Polled(f, accepted).0)
    ensures AppendDurability.News(f).Some? && r.currentFileId == t.fileId ==> AppendDurability.News(f).value <= r.currentOffset
  {
  }

  lemma DiskBounded(w: World, step: Step)
    requires Inv(w) && Bounded(w) && (step.Polls? || step.Syncs? || step.Stores?)
    ensures Bounded(Next(w, step)) <==> !Misdates(w, step)
  {
    hide Inv, Progress;
    if step.Polls? {
      PollBounded(w.task, w.receiver, w.fields, step.pollAccepted);
      hide FieldsBounded, AppendDurability.Polled;
    }
  }

  lemma ReportBounded(w: World, h: Report)
    requires Inv(w) && Bounded(w) && h in w.toSender
    ensures Bounded(Next(w, ReportArrives(h)))
  {
    hide ReceiverInv, FieldsInv, BufferInv, Remaining, FieldsBounded, Honest;
    assert Truthful(w.task, w.receiver, h);
  }

  lemma SenderBounded(w: World, step: Step)
    requires Inv(w) && Bounded(w) && Enabled(w, step)
    requires step.Other? || step.SendCreate? || step.SendData? || step.Retransmit? || step.ChunkReports?
    ensures Bounded(Next(w, step))
  {
    hide ReceiverInv, FieldsInv, FieldsBounded, Honest, Progress, Remember, IsSegment, IsCreate;
    if step.Retransmit? {
      AgainBuffers(w.task, w.sender, w.buffer, w.toReceiver, step.key, step.againBytes, step.againNow);
    }
    hide BufferInv, Remarked;
  }

  /** The bound is kept by exactly the steps that do not misdate. */
  lemma BoundedKept(w: World, step: Step)
    requires Inv(w) && Bounded(w) && Enabled(w, step)
    ensures Bounded(Next(w, step)) <==> !Misdates(w, step)
  {
    hide Inv, Bounded, LateData, AfterPoll, AfterSync, AfterStore, ApplyCreate, ApplyData, Remaining, Honest;
    match step
    case ReportArrives(h) => ReportBounded(w, h);
    case CreateArrives(m, disk) => CreateBounded(w, m, disk);
    case DataArrives(m, fallback, write, accepted) => DataBounded(w, m, fallback, write, accepted);
    case Polls(_) => DiskBounded(w, step);
    case Syncs(_) => DiskBounded(w, step);
    case Stores => DiskBounded(w, step);
    case _ => SenderBounded(w, step);
  }

  // ---------- What completion says about the disk ----------

  /** What is queued for the task's name reaches its end only when the whole file is there. */
  predicate FsyncsVouched(w: World) {
    Current(w) ==>
      forall o <- w.fsyncs :: o.fsync.path == w.task.name && o.fsync.goal >= |w.task.source| ==>
        w.receiver.expectedSeq > w.task.seqNo && (o.synced ==> w.covered >= |w.task.source|)
  }

  predicate FieldsVouched(w: World) {
    Current(w) && Max(w.fields.durable, w.fields.completed) >= |w.task.source| ==> w.covered >= |w.task.source|
  }

  /** Where all of the task's file is said to be durable, a finished fsync covers it. */
  predicate Vouched(w: World) {
    FieldsVouched(w) && FsyncsVouched(w) && ReportsVouched(w.task, w.toSender, w.covered)
  }

  predicate ReportsVouched(t: Task, reports: set<Report>, covered: nat) {
    forall h <- reports :: h.fileId == t.fileId && h.durableOffset >= |t.source| ==> covered >= |t.source|
  }

  /** A repeated CREATE, which reports the session's offset as durable. */
  predicate LateCreate(w: World, m: CreateMessage) {
    m.streamId == w.task.streamId && m.seqNo < w.receiver.expectedSeq && Current(w)
  }

  /** The steps that call the whole file durable before a finished fsync covers it: a late DATA at its end or beyond, a late
      CREATE when it is all there, and a late fsync of another file. */
  predicate Unvouched(w: World, step: Step) {
    && w.covered < |w.task.source|
    && (|| (step.DataArrives? && LateData(w, step.data) && step.data.offset >= |w.task.source|)
        || (step.CreateArrives? && LateCreate(w, step.create) && w.receiver.currentOffset >= |w.task.source|)
        || (StoresGoal(w, step) && w.fsyncs[0].fsync.path != w.task.name && w.fsyncs[0].fsync.goal >= |w.task.source|))
  }

  lemma WholeThere(t: Task, r: AppendStream, torn: bool)
    requires ReceiverInv(t, r, torn) && r.currentFileId == t.fileId
    ensures r.currentOffset <= |t.source|
    ensures r.currentOffset >= |t.source| <==> r.expectedSeq > t.seqNo
    ensures r.expectedSeq > t.seqNo ==> t.name in r.disk && r.disk[t.name] == NodeOf(t)
  {
  }

  lemma EnqueueVouched(w: World, f: AppendDurability.Fields, goal: U64, accepted: bool)
    requires FsyncsVouched(w) && ReceiverInv(w.task, w.receiver, w.torn)
    requires Current(w) ==> goal <= w.receiver.currentOffset && FieldsBounded(w.task, w.receiver, f)
    ensures var (g, fsync) := AppendDurability.MaybeEnqueue(f, goal, accepted);
      FsyncsVouched(w.(fields := g, fsyncs := Queued(w.fsyncs, fsync)))
  {
    if Current(w) {
      WholeThere(w.task, w.receiver, w.torn);
    }
    hide ReceiverInv;
  }

  lemma PollVouched(w: World, accepted: bool)
    requires Inv(w) && Bounded(w) && Vouched(w)
    ensures Vouched(AfterPoll(w, accepted))
  {
    hide Inv, Bounded;
    assert ReceiverInv(w.task, w.receiver, w.torn) && FieldsBounded(w.task, w.receiver, w.fields) by { Known(w); }
    PollBounded(w.task, w.receiver, w.fields, accepted);
    PollQueues(w, accepted);
    hide ReceiverInv, FieldsBounded, FsyncsVouched;
  }

  lemma Known(w: World)
    requires Inv(w) && Bounded(w)
    ensures ValidTask(w.task) && ReceiverInv(w.task, w.receiver, w.torn) && FieldsBounded(w.task, w.receiver, w.fields)
  {
  }

  lemma PollQueues(w: World, accepted: bool)
    requires FsyncsVouched(w) && ReceiverInv(w.task, w.receiver, w.torn) && FieldsBounded(w.task, w.receiver, w.fields)
    ensures FsyncsVouched(AfterPoll(w, accepted))
  {
    var f := w.fields;
    if !f.failed {
      var seen := f.(durable := Max(f.durable, f.completed));
      var freed := if seen.queued && seen.completed >= seen.activeTarget then seen.(queued := false, activeTarget := 0) else seen;
      EnqueueVouched(w, freed, freed.target, accepted);
    }
    hide ReceiverInv, AppendDurability.MaybeEnqueue;
  }

  lemma SyncVouched(w: World, ok: bool)
    requires Inv(w) && Vouched(w)
    ensures Vouched(AfterSync(w, ok))
  {
    assert ValidTask(w.task) && ReceiverInv(w.task, w.receiver, w.torn);
    if Current(w) {
      WholeThere(w.task, w.receiver, w.torn);
    }
    hide Inv, ReceiverInv;
  }

  lemma StoreVouched(w: World)
    requires Inv(w) && Vouched(w)
    ensures Vouched(AfterStore(w)) <==> !Unvouched(w, Stores)
  {
    hide Inv;
  }

  lemma CreateVouched(w: World, m: CreateMessage, disk: CreateDisk)
    requires Inv(w) && Bounded(w) && Vouched(w) && m in w.toReceiver
    ensures Vouched(AfterCreate(w, m, ApplyCreate(w.receiver, m, disk))) <==> !Unvouched(w, CreateArrives(m, disk))
  {
    hide BufferInv, IsCreate, IsSegment, InProgress, Finished;
    CreateMoves(w.task, w.receiver, w.torn, m, disk);
    if Current(w) {
      CreateLate(w.task, w.receiver, w.torn, m, disk);
    }
    hide ApplyCreate, ReceiverInv;
  }

  /** Exactly the repeated CREATEs are taken while the session stays at the entry. */
  lemma CreateLate(t: Task, r: AppendStream, torn: bool, m: CreateMessage, disk: CreateDisk)
    requires ValidTask(t) && ReceiverInv(t, r, torn) && Honest(t, m) && r.currentFileId == t.fileId
    ensures var (r', reply) := ApplyCreate(r, m, disk);
      reply.Fine? && r'.currentFileId == t.fileId <==> m.streamId == t.streamId && m.seqNo < r.expectedSeq
  {
  }

  /** What the task's own name and size say does not change when only the receiver grows. */
  lemma FsyncsStay(w: World, r: AppendStream, f: AppendDurability.Fields)
    requires FsyncsVouched(w) && r.currentFileId == w.receiver.currentFileId && r.expectedSeq >= w.receiver.expectedSeq
    ensures FsyncsVouched(w.(receiver := r, fields := f))
  {
  }

  lemma ResetVouched(w: World, f: AppendDurability.Fields, fileId: U64, path: Option<Blob>, offset: U64)
    requires FieldsVouched(w) && w.fields == f
    ensures FieldsVouched(w.(fields := AppendDurability.ResetFor(f, fileId, path, offset))) <==>
              !(Current(w) && fileId != f.fileId && offset >= |w.task.source| > w.covered)
  {
  }

  lemma EnqueueKeepsDurable(f: AppendDurability.Fields, goal: U64, accepted: bool)
    ensures var g := AppendDurability.MaybeEnqueue(f, goal, accepted).0; g.durable == f.durable && g.completed == f.completed
  {
  }

  lemma DataVouched(w: World, m: DataMessage, fallback: Blob, write: WriteDisk, accepted: bool)
    requires Inv(w) && Bounded(w) && Vouched(w) && Enabled(w, DataArrives(m, fallback, write, accepted))
    requires !Misdates(w, DataArrives(m, fallback, write, accepted))
    ensures Vouched(Next(w, DataArrives(m, fallback, write, accepted))) <==> !Unvouched(w, DataArrives(m, fallback, write, accepted))
  {
    hide BufferInv, FieldsInv, IsCreate, IsSegment, InProgress, Finished, ApplyData, AppendDurability.MaybeEnqueue,
         AppendDurability.ResetFor, FsyncsVouched;
    var t := w.task;
    assert w.receiver.streamId == t.streamId;
    var (r, reply) := ApplyData(w.receiver, m, fallback, write);
    DataReceived(t, w.receiver, w.torn, m, fallback, write);
    DataTells(t, w.receiver, w.torn, m, fallback, write);
    FsyncsStay(w, r, w.fields);
    var torn := w.torn || write.Partly?;
    var heard := w.(receiver := r, torn := torn);
    FsyncsIgnore(w.(receiver := r), torn, w.toSender, w.fields);
    if Current(w) {
      DataMoves(t, w.receiver, w.torn, m, fallback, write);
    }
    if reply.Fine? {
      var f := AppendDurability.ResetFor(w.fields, m.fileId, r.current, m.offset);
      ResetVouched(heard, w.fields, m.fileId, r.current, m.offset);
      EnqueueKeepsDurable(f, r.currentOffset, accepted);
      if Current(w) {
        OffsetGrows(t, w.receiver, r, w.fields);
        ResetBounded(t, r, w.fields, m.fileId, r.current, m.offset);
      }
      hide FieldsBounded, ReceiverInv, Progress;
      FsyncsStay(heard, r, f);
      EnqueueVouched(heard.(fields := f), f, r.currentOffset, accepted);
      var (g, fsync) := AppendDurability.MaybeEnqueue(f, r.currentOffset, accepted);
      FsyncsIgnore(heard.(fields := g, fsyncs := Queued(w.fsyncs, fsync)), torn, w.toSender + {ReportOf(r, g.durable)}, g);
      var next := Next(w, DataArrives(m, fallback, write, accepted));
      assert next == heard.(fields := g, fsyncs := Queued(w.fsyncs, fsync), toSender := w.toSender + {ReportOf(r, g.durable)});
      OneMoreReport(next, w.toSender, ReportOf(r, g.durable));
    }
  }

  lemma OneMoreReport(w: World, reports: set<Report>, h: Report)
    requires w.toSender == reports + {h} && ReportsVouched(w.task, reports, w.covered)
    requires h.fileId == w.receiver.currentFileId && h.durableOffset == w.fields.durable
    ensures FieldsVouched(w) ==> ReportsVouched(w.task, w.toSender, w.covered)
  {
  }

  lemma FsyncsIgnore(w: World, torn: bool, reports: set<Report>, f: AppendDurability.Fields)
    ensures FsyncsVouched(w.(torn := torn, toSender := reports, fields := f)) <==> FsyncsVouched(w)
  {
  }

  lemma SenderVouched(w: World, step: Step)
    requires Inv(w) && Vouched(w) && Enabled(w, step)
    requires step.Other? || step.SendCreate? || step.SendData? || step.Retransmit? || step.ChunkReports? || step.ReportArrives?
    ensures Vouched(Next(w, step))
  {
    hide Inv, Honest, Remember, IsSegment, IsCreate, Remaining, Remarked;
  }

  /** What is said to be durable is kept true by exactly the steps that do not call it so too early. */
  lemma VouchedKept(w: World, step: Step)
    requires Inv(w) && Bounded(w) && Vouched(w) && Enabled(w, step) && !Misdates(w, step)
    ensures Vouched(Next(w, step)) <==> !Unvouched(w, step)
  {
    hide Inv, Bounded, Vouched, LateData, LateCreate, AfterPoll, AfterSync, AfterStore, ApplyCreate, ApplyData, Remaining, Honest;
    match step
    case CreateArrives(m, disk) => CreateVouched(w, m, disk);
    case DataArrives(m, fallback, write, accepted) => DataVouched(w, m, fallback, write, accepted);
    case Polls(accepted) => PollVouched(w, accepted);
    case Syncs(ok) => SyncVouched(w, ok);
    case Stores => StoreVouched(w);
    case _ => SenderVouched(w, step);
  }

  // ---------- Every run without such steps ----------

  /** A run in which no step misdates and, for `vouched`, none calls bytes durable too early. */
  predicate ReachesTimely(start: World, steps: seq<Step>, w: World, vouched: bool)
    decreases |steps|
  {
    if steps == [] then w == start
    else
      && Enabled(start, steps[0]) && !Misdates(start, steps[0]) && (vouched ==> !Unvouched(start, steps[0]))
      && ReachesTimely(Next(start, steps[0]), steps[1..], w, vouched)
  }

  lemma {:induction false} TimelyInv(start: World, steps: seq<Step>, w: World, vouched: bool)
    requires Inv(start) && Bounded(start) && (vouched ==> Vouched(start)) && ReachesTimely(start, steps, w, vouched)
    ensures Inv(w) && Bounded(w) && (vouched ==> Vouched(w)) && w.task == start.task
    decreases |steps|
  {
    if steps != [] {
      hide Inv, Enabled, Next, Bounded, Vouched, Misdates, Unvouched;
      NextInv(start, steps[0]);
      BoundedKept(start, steps[0]);
      if vouched {
        VouchedKept(start, steps[0]);
      }
      TimelyInv(Next(start, steps[0]), steps[1..], w, vouched);
    }
  }

  lemma StartTimely(w: World)
    requires Starts(w)
    ensures Inv(w) && Bounded(w) && Vouched(w)
  {
    StartInv(w);
  }

  /** In a run without misdating steps nothing is reported as durable beyond its offset, and the sender never counts a byte as
      delivered that the receiver does not have. */
  lemma SenderNeverOvercounts(start: World, steps: seq<Step>, w: World)
    requires Starts(start) && ReachesTimely(start, steps, w, false) && start.task.kind == REGULAR_FILE
    ensures var t, r := start.task, w.receiver;
      && (w.sender.nextOffset > 0 ==> t.name in r.disk && r.disk[t.name].File? && w.sender.nextOffset <= |r.disk[t.name].content|)
      && (forall h <- w.toSender :: h.fileId == t.fileId ==> h.durableOffset <= h.offset)
  {
    hide ReachesTimely;
    StartTimely(start);
    TimelyInv(start, steps, w, false);
  }

  /** When a heartbeat completes the task's file at the sender, in a run without either kind of step, a finished fsync covers
      all of it. */
  lemma CompletionIsDurable(start: World, steps: seq<Step>, w: World, h: Report)
    requires Starts(start) && ReachesTimely(start, steps, w, true) && OwnReport(w, h) && start.task.kind == REGULAR_FILE
    requires Complete(DataReady(CreateReady(w.sender, h), h), h, start.task.kind, |start.task.source|)
    ensures w.covered >= |start.task.source|
  {
    hide ReachesTimely;
    StartTimely(start);
    TimelyInv(start, steps, w, true);
    hide Inv, Bounded;
  }
}
