/** One round of scan, difference, plan and transfer brings the receiver's directory to the sender's: the scan order and
    diff_stream of src/core/yisync_sync.cpp with both receivers of src/receiver/yisync_receiver.cpp and their coordinator,
    when every message of the round arrives, those of a task behind those of the task before it, and every write succeeds. */
module Convergence {
  import opened Wire
  import opened Messages
  import opened Checksums
  import opened ChunkStreams
  import opened AppendStreams
  import opened ManifestSync
  import opened DirectoryScans
  import opened ChunkTransfer
  import opened ChunkContents
  import CommitCoordinator
  import ChunkResendSpec
  import SendPlans

  // ---------- The transfer ----------

  function CreateOf(streamId: U64, item: Item, seqNo: U64): CreateMessage
    requires Sized(item)
  {
    Create(streamId, seqNo, IdOf(item), KindOf(item.node), item.name,
           if item.node.Symlink? then item.node.target else [], if item.node.File? then |item.node.content| else 0,
           0, 0, Checksum(0, 0, 0, []))
  }

  function DataOf(streamId: U64, item: Item, seqNo: U64, offset: nat, size: Segment): DataMessage
    requires Sized(item) && item.node.File? && offset < |item.node.content|
  {
    var content := item.node.content;
    var payload: Blob := content[offset..offset + Min(size, |content| - offset)];
    Data(streamId, seqNo, IdOf(item), offset, |content|, |payload|, NO_COMPRESSION, CRC32C, Crc32cBytes(payload), payload)
  }

  const SMOOTH := CreateDisk(true, true, 0, true, true, true)

  /** What a stream's context holds: its directory, and the two receivers, which exist once a message asked for them. */
  datatype Receiver = Receiver(streamId: U64, disk: map<Blob, Node>, append: Option<AppendStream>,
                               commits: Option<CommitCoordinator.Context>)

  /** Some listing of the directory can be scanned. */
  ghost predicate HasScan(disk: map<Blob, Node>) { exists items :: Lists(disk, items) && Scannable(items) }

  /** The scan of a directory, which is the same for all its listings (RescanKeepsOrder). Names whose ids collide have
      none; no such directory comes up below. */
  ghost function EntriesOf(disk: map<Blob, Node>): seq<Entry> {
    if HasScan(disk) then
      var items :| Lists(disk, items) && Scannable(items);
      Scan(items)
    else []
  }

  /** The append receiver behind a scan: reset_session_from_disk from 1, refresh_committed_from_disk from where it is. */
  function AppendBehind(streamId: U64, disk: map<Blob, Node>, entries: seq<Entry>, expectedSeq: U64): AppendStream {
    if entries == [] then AppendStream(streamId, expectedSeq, 0, 0, 0, REGULAR_FILE, None, disk)
    else
      var latest := entries[|entries| - 1];
      AppendStream(streamId, Max(expectedSeq, Wrap64(latest.seqNo + 1)), latest.fileId, latest.size, latest.size,
                   latest.kind, Some(latest.name), disk)
  }

  function LatestOf(entries: seq<Entry>): Option<Latest> {
    if entries == [] then None
    else
      var latest := entries[|entries| - 1];
      Some(Latest(latest.fileId, latest.size, latest.seqNo))
  }

  /** append_receiver_for and chunk_receiver_for. */
  ghost function AppendFor(r: Receiver): AppendStream {
    match r.append
    case None => AppendBehind(r.streamId, r.disk, EntriesOf(r.disk), 1)
    case Some(a) => a.(disk := r.disk)
  }

  ghost function CommitsFor(r: Receiver): CommitCoordinator.Context {
    match r.commits
    case None => CommitCoordinator.NewContext(r.streamId, LatestOf(EntriesOf(r.disk)))
    case Some(c) => c
  }

  predicate ShapedReceiver(r: Receiver) { r.commits.Some? ==> Shaped(r.commits.value.chunk) }

  /** The append receiver has answered; when it took the message, the chunk receiver looks at the directory again. */
  ghost function AfterAppend(r: Receiver, answer: (AppendStream, Reply)): Receiver {
    var disk := answer.0.disk;
    var commits :=
      if answer.1.Fine? && r.commits.Some? then
        Some(r.commits.value.(chunk := Refresh(r.commits.value.chunk, LatestOf(EntriesOf(disk)))))
      else r.commits;
    Receiver(r.streamId, disk, Some(answer.0), commits)
  }

  ghost function OnCreate(r: Receiver, m: CreateMessage): (t: Receiver)
    ensures ShapedReceiver(r) ==> ShapedReceiver(t)
  {
    AfterAppend(r, ApplyCreate(AppendFor(r), m, SMOOTH))
  }

  ghost function OnData(r: Receiver, m: DataMessage, fallback: Blob): (t: Receiver)
    ensures ShapedReceiver(r) ==> ShapedReceiver(t)
  {
    AfterAppend(r, ApplyData(AppendFor(r), m, fallback, Written))
  }

  ghost function SendSegments(r: Receiver, item: Item, seqNo: U64, offset: nat, size: Segment): (t: Receiver)
    requires Sized(item) && item.node.File? && ShapedReceiver(r)
    ensures ShapedReceiver(t)
    decreases |item.node.content| - offset
  {
    if offset >= |item.node.content| then r
    else
      SendSegments(OnData(r, DataOf(r.streamId, item, seqNo, offset, size), item.name), item, seqNo,
                   offset + Min(size, |item.node.content| - offset), size)
  }

  predicate Chunked(item: Item) { item.node.File? && |item.node.content| > CHUNK_MODE_THRESHOLD }

  /** The sizes of chunked files stay below 2^64 when rounded up to whole chunks. */
  predicate Transferable(items: seq<Item>, size: Segment) {
    forall x <- items :: Chunked(x) ==> |x.node.content| + size - 1 < 0x1_0000_0000_0000_0000
  }

  /** For each number of chunks, an order that sends every chunk, some perhaps more than once. */
  ghost predicate Covering(orders: nat -> seq<nat>) {
    forall n :: AllBelow(orders(n), n) && ChunkResendSpec.Covers(orders(n), n)
  }

  function SendingOf(streamId: U64, item: Item, seqNo: U64, size: Segment): Sending
    requires Sized(item) && Chunked(item)
  {
    Sending(streamId, seqNo, IdOf(item), item.name, item.node.content, size, ChunkCount(|item.node.content|, size))
  }

  /** A file goes in chunks; when it has been committed, an append receiver looks at the directory again. */
  ghost function SendInChunks(r: Receiver, x: Sending, order: seq<nat>): (t: Receiver)
    requires ShapedReceiver(r) && x.Fits() && AllBelow(order, x.count)
    ensures ShapedReceiver(t)
  {
    var (commits, disk) := SendFile(CommitsFor(r), r.disk, x, order);
    var append :=
      match r.append
      case None => None
      case Some(a) => Some(if disk == r.disk then a else AppendBehind(a.streamId, disk, EntriesOf(disk), a.expectedSeq));
    Receiver(r.streamId, disk, append, Some(commits))
  }

  /** Item `i` is sent whole: by CREATE and DATA, or, above the threshold, in chunks. */
  ghost function RunTask(r: Receiver, s: seq<Item>, i: nat, size: Segment, orders: nat -> seq<nat>): (t: Receiver)
    requires Ordered(s) && Transferable(s, size) && Covering(orders) && i < |s| && ShapedReceiver(r)
    ensures ShapedReceiver(t)
  {
    var item := s[i];
    assert item in s;
    if Chunked(item) then
      var x := SendingOf(r.streamId, item, i + 1, size);
      SendInChunks(r, x, orders(x.count))
    else
      var created := OnCreate(r, CreateOf(r.streamId, item, i + 1));
      if item.node.File? then SendSegments(created, item, i + 1, 0, size) else created
  }

  ghost function RunTasks(r: Receiver, s: seq<Item>, i: nat, size: Segment, orders: nat -> seq<nat>): Receiver
    requires Ordered(s) && Transferable(s, size) && Covering(orders) && i <= |s| && ShapedReceiver(r)
    decreases |s| - i
  {
    if i == |s| then r else RunTasks(RunTask(r, s, i, size, orders), s, i + 1, size, orders)
  }

  /** The sender's tasks, one per item. */
  function TasksOf(s: seq<Item>): (tasks: seq<SendPlans.Task>)
    ensures |tasks| == |s|
  {
    seq(|s|, i requires 0 <= i < |s| =>
      SendPlans.Task(IdOf(s[i]), Chunked(s[i])))
  }

  /** The tasks that the applied plan leads to. */
  ghost function Round(r: Receiver, s: seq<Item>, plan: (SendPlans.StreamState, SendPlans.Applied), size: Segment,
                       orders: nat -> seq<nat>): Receiver
    requires Ordered(s) && Transferable(s, size) && Covering(orders) && ShapedReceiver(r)
  {
    var k, applied := plan.0.current, plan.1;
    if (!applied.StartAppend? && !applied.StartChunk?) || k >= |s| then r
    else
      assert s[k] in s;
      if !applied.start.resumes then RunTasks(r, s, k, size, orders)
      else if s[k].node.File? then
        RunTasks(SendSegments(r, s[k], k + 1, applied.start.offset, size), s, k + 1, size, orders)
      else r
  }

  /** What the difference of the two scans makes the sender do. */
  function Planned(streamId: U64, s: seq<Item>, d: Difference): (SendPlans.StreamState, SendPlans.Applied)
    requires !d.Conflict?
  {
    SendPlans.ApplyPlan(SendPlans.StreamState(streamId, TasksOf(s), 0, false, false, false), [SendPlans.PlanOf(streamId, d)])
  }

  /** No commit is pending and no file is active. */
  predicate Quiet(c: CommitCoordinator.Context, streamId: U64, expectedSeq: U64) {
    !c.queued && c.chunk.streamId == streamId && c.chunk.active == map[] && c.chunk.expectedSeq == expectedSeq
  }

  /** Exactly the first `i` items are there, and each receiver that exists expects the next one. */
  predicate At(r: Receiver, s: seq<Item>, i: nat)
    requires i <= |s| < 0xFFFF_FFFF
  {
    && r.disk == DiskOf(s[..i])
    && (r.append.Some? ==> r.append.value.streamId == r.streamId && r.append.value.expectedSeq == i + 1)
    && (r.commits.Some? ==> Quiet(r.commits.value, r.streamId, i + 1))
  }

  /** The receiver will take the segment at `offset` of the item. */
  predicate Ready(r: AppendStream, item: Item, seqNo: U64, offset: nat)
    requires Sized(item) && item.node.File?
  {
    var content := item.node.content;
    && seqNo < 0xFFFF_FFFF_FFFF && offset <= |content|
    && r.current == Some(item.name) && r.currentFileId == IdOf(item) && r.currentKind == REGULAR_FILE
    && item.name in r.disk && r.disk[item.name] == File(content[..offset])
    && (if offset < |content| then
          r.currentOffset == offset
          && (r.expectedSeq == seqNo || r.expectedSeq == seqNo + 1)
          && (r.currentFinalSize == |content| || (r.expectedSeq == seqNo + 1 && r.currentFinalSize == offset))
        else r.expectedSeq == seqNo + 1)
  }

  lemma SegmentAppended(r: AppendStream, item: Item, seqNo: U64, offset: nat, size: Segment)
    requires Sized(item) && item.node.File? && offset < |item.node.content| && Ready(r, item, seqNo, offset)
    ensures var r' := ApplyData(r, DataOf(r.streamId, item, seqNo, offset, size), item.name, Written).0;
      var next := offset + Min(size, |item.node.content| - offset);
      && r'.streamId == r.streamId && r'.disk == r.disk[item.name := File(item.node.content[..next])]
      && Ready(r', item, seqNo, next)
  {
    hide IdOf, Crc32cBytes;
    var content := item.node.content;
    var m := DataOf(r.streamId, item, seqNo, offset, size);
    var next := offset + |m.payload|;
    assert content[..offset] + m.payload == content[..next];
    assert m.seqNo < r.expectedSeq ==> ResumesCurrent(r, m);
    assert DataRefusal(r, m, item.name).Fine?;
    hide DataRefusal, ResumesCurrent, DataOf;
  }

  // ---------- The directory while tasks run ----------

  lemma DiskStep(s: seq<Item>, i: nat)
    requires Distinct(s) && i < |s|
    ensures DiskOf(s[..i + 1]) == DiskOf(s[..i])[s[i].name := s[i].node]
    ensures s[i].name !in DiskOf(s[..i])
  {
    hide IdOf;
    assert s[..i + 1][..i] == s[..i] && s[..i + 1][i] == s[i];
    assert Distinct(s[..i]);
    DiskLists(s[..i]);
    forall x <- s[..i] ensures x.name != s[i].name {
      var j :| 0 <= j < i && s[j] == x;
    }
  }

  // ---------- The tasks ----------

  /** The scan of the first `k` items and a short file. */
  lemma EntriesAre(s: seq<Item>, k: nat, short: Option<Bytes>)
    requires Ordered(s) && k <= |s| && IsShort(s, k, short)
    ensures Scannable(Has(s, k, short)) && EntriesOf(DiskOf(Has(s, k, short))) == Numbered(Has(s, k, short))
  {
    hide Before, IdOf, Sort, Lists, DiskOf, Numbered, Scan, Has;
    var h := Has(s, k, short);
    HasOrdered(s, k, short);
    DiskLists(h);
    var disk := DiskOf(h);
    assert HasScan(disk);
    var items :| Lists(disk, items) && Scannable(items) && EntriesOf(disk) == Scan(items);
    ListsSame(disk, items, h);
    RescanKeepsOrder(s, k, short, items);
  }

  /** The directory while item `i` is being written: its first bytes are `p`. */
  lemma WritingDisk(s: seq<Item>, i: nat, p: Bytes) returns (k: nat, short: Option<Bytes>)
    requires Ordered(s) && i < |s| && s[i].node.File? && p <= s[i].node.content
    ensures k <= |s| && IsShort(s, k, short) && |Has(s, k, short)| == i + 1
    ensures DiskOf(s[..i])[s[i].name := File(p)] == DiskOf(Has(s, k, short))
  {
    hide Before, IdOf;
    if p == s[i].node.content {
      k, short := i + 1, None;
      DiskStep(s, i);
      assert Has(s, k, short) == s[..i + 1];
    } else {
      k, short := i, Some(p);
      var h := Has(s, k, short);
      assert h[..i] == s[..i] && h[i] == Item(s[i].name, File(p));
    }
  }

  /** The chunk receiver's second look, at a directory with `n` entries. */
  lemma LooksAgain(c: CommitCoordinator.Context, streamId: U64, s: seq<Item>, k: nat, short: Option<Bytes>, n: nat)
    requires Ordered(s) && k <= |s| && IsShort(s, k, short) && |Has(s, k, short)| == n > 0
    requires Quiet(c, streamId, n) || Quiet(c, streamId, n + 1)
    ensures Quiet(c.(chunk := Refresh(c.chunk, LatestOf(EntriesOf(DiskOf(Has(s, k, short)))))), streamId, n + 1)
  {
    hide Before, IdOf, DiskOf, Has;
    EntriesAre(s, k, short);
    hide EntriesOf, RangeChecksum;
  }

  /** The scan when a task starts. */
  lemma ScanAt(s: seq<Item>, i: nat)
    requires Ordered(s) && i <= |s|
    ensures var entries := EntriesOf(DiskOf(s[..i])); |entries| == i && (i > 0 ==> entries[i - 1].seqNo == i)
  {
    hide Before, IdOf, DiskOf, EntriesOf, RangeChecksum;
    EntriesAre(s, i, None);
    WholeItems(s, i);
  }

  /** What the two receivers are then, made now or before. */
  lemma ReceiversStart(r: Receiver, s: seq<Item>, i: nat)
    requires Ordered(s) && i <= |s| && At(r, s, i)
    ensures var a := AppendFor(r); a.streamId == r.streamId && a.expectedSeq == i + 1 && a.disk == DiskOf(s[..i])
    ensures Quiet(CommitsFor(r), r.streamId, i + 1)
  {
    hide Before, IdOf, DiskOf, EntriesOf, Ordered;
    FewItems(s);
    ScanAt(s, i);
  }

  lemma CreateTaken(a: AppendStream, s: seq<Item>, i: nat)
    requires Ordered(s) && i < |s| && a.expectedSeq == i + 1 && a.disk == DiskOf(s[..i]) && Sized(s[i])
    ensures var (b, reply) := ApplyCreate(a, CreateOf(a.streamId, s[i], i + 1), SMOOTH);
      && reply.Fine? && b.streamId == a.streamId
      && (if s[i].node.File? then b.disk == a.disk[s[i].name := File([])] && Ready(b, s[i], i + 1, 0)
          else b.disk == DiskOf(s[..i + 1]) && b.expectedSeq == i + 2)
  {
    hide IdOf, Before;
    DiskStep(s, i);
    hide DiskOf;
    var m := CreateOf(a.streamId, s[i], i + 1);
    assert CreateRefusal(a, m, SMOOTH).Fine?;
    hide CreateRefusal;
  }

  /** Item `i` is being appended to: its first `offset` bytes are there, and the next segment will be taken. */
  ghost predicate InFile(r: Receiver, s: seq<Item>, i: nat, offset: nat)
    requires i < |s| && Sized(s[i])
  {
    && i < 0xFFFF_FFFF && s[i].node.File? && offset <= |s[i].node.content|
    && r.disk == DiskOf(s[..i])[s[i].name := File(s[i].node.content[..offset])]
    && AppendFor(r).streamId == r.streamId && Ready(AppendFor(r), s[i], i + 1, offset)
    && (r.commits.Some? ==> Quiet(r.commits.value, r.streamId, i + 2))
  }

  lemma Created(r: Receiver, s: seq<Item>, i: nat)
    requires Ordered(s) && i < |s| && At(r, s, i) && Sized(s[i])
    ensures var t := OnCreate(r, CreateOf(r.streamId, s[i], i + 1));
      t.streamId == r.streamId && if s[i].node.File? then InFile(t, s, i, 0) else At(t, s, i + 1)
  {
    hide IdOf, Before, DiskOf, Ready, ApplyCreate, CreateOf, Has, EntriesOf, LatestOf;
    ReceiversStart(r, s, i);
    CreateTaken(AppendFor(r), s, i);
    if r.commits.Some? {
      if s[i].node.File? {
        var k, short := WritingDisk(s, i, []);
        LooksAgain(r.commits.value, r.streamId, s, k, short, i + 1);
      } else {
        assert Has(s, i + 1, None) == s[..i + 1] by { WholeItems(s, i + 1); }
        LooksAgain(r.commits.value, r.streamId, s, i + 1, None, i + 1);
      }
    }
    hide Quiet, Refresh;
    assert s[i].node.File? ==> s[i].node.content[..0] == [];
  }

  lemma WholeItems(s: seq<Item>, k: nat)
    requires k <= |s|
    ensures Has(s, k, None) == s[..k]
  {
  }

  lemma SegmentTaken(r: Receiver, s: seq<Item>, i: nat, offset: nat, size: Segment)
    requires Ordered(s) && i < |s| && Sized(s[i]) && InFile(r, s, i, offset) && offset < |s[i].node.content|
    ensures var t := OnData(r, DataOf(r.streamId, s[i], i + 1, offset, size), s[i].name);
      t.streamId == r.streamId && InFile(t, s, i, offset + Min(size, |s[i].node.content| - offset))
  {
    hide IdOf, Before, DiskOf, Ready, ApplyData, DataOf, Has, EntriesOf, LatestOf;
    var a := AppendFor(r);
    var next := offset + Min(size, |s[i].node.content| - offset);
    SegmentAppended(a, s[i], i + 1, offset, size);
    var t := OnData(r, DataOf(r.streamId, s[i], i + 1, offset, size), s[i].name);
    assert AppendFor(t) == ApplyData(a, DataOf(r.streamId, s[i], i + 1, offset, size), s[i].name, Written).0;
    assert t.disk == DiskOf(s[..i])[s[i].name := File(s[i].node.content[..next])];
    if r.commits.Some? {
      var k, short := WritingDisk(s, i, s[i].node.content[..next]);
      LooksAgain(r.commits.value, r.streamId, s, k, short, i + 1);
    }
    hide Quiet, Refresh;
  }

  /** DATA from any offset completes the item. */
  lemma {:induction false} SegmentsComplete(r: Receiver, s: seq<Item>, i: nat, offset: nat, size: Segment)
    requires Ordered(s) && i < |s| && Sized(s[i]) && s[i].node.File? && InFile(r, s, i, offset) && ShapedReceiver(r)
    ensures var t := SendSegments(r, s[i], i + 1, offset, size); t.streamId == r.streamId && At(t, s, i + 1)
    decreases |s[i].node.content| - offset
  {
    hide IdOf, Before, OnData, DataOf, InFile, At;
    var content := s[i].node.content;
    assert offset <= |content| by { Within(r, s, i, offset); }
    if offset < |content| {
      SegmentTaken(r, s, i, offset, size);
      SegmentsComplete(OnData(r, DataOf(r.streamId, s[i], i + 1, offset, size), s[i].name), s, i,
                       offset + Min(size, |content| - offset), size);
    } else {
      FileDone(r, s, i);
    }
  }

  lemma Within(r: Receiver, s: seq<Item>, i: nat, offset: nat)
    requires i < |s| && Sized(s[i]) && s[i].node.File? && InFile(r, s, i, offset)
    ensures offset <= |s[i].node.content|
  {
  }

  lemma FileDone(r: Receiver, s: seq<Item>, i: nat)
    requires Ordered(s) && i < |s| && Sized(s[i]) && s[i].node.File? && InFile(r, s, i, |s[i].node.content|)
    ensures At(r, s, i + 1)
  {
    hide IdOf, Before, DiskOf;
    var content := s[i].node.content;
    assert content[..|content|] == content;
    DiskStep(s, i);
  }

  /** A file sent in chunks arrives as a whole. */
  lemma ChunksComplete(r: Receiver, s: seq<Item>, i: nat, size: Segment, order: seq<nat>)
    requires Ordered(s) && i < |s| && Sized(s[i]) && Chunked(s[i]) && At(r, s, i) && ShapedReceiver(r)
    requires var x := SendingOf(r.streamId, s[i], i + 1, size);
      x.Fits() && AllBelow(order, x.count) && ChunkResendSpec.Covers(order, x.count)
    ensures var t := SendInChunks(r, SendingOf(r.streamId, s[i], i + 1, size), order); t.streamId == r.streamId && At(t, s, i + 1)
  {
    hide IdOf, Before, DiskOf, SendFile, ChunkCount, Has, EntriesOf;
    var x := SendingOf(r.streamId, s[i], i + 1, size);
    ReceiversStart(r, s, i);
    DiskStep(s, i);
    FileArrives(CommitsFor(r), r.disk, x, order);
    WholeItems(s, i + 1);
    EntriesAre(s, i + 1, None);
    hide CommitsFor, LatestOf;
  }

  /** One task adds exactly its item. */
  lemma TaskAdds(r: Receiver, s: seq<Item>, i: nat, size: Segment, orders: nat -> seq<nat>)
    requires Ordered(s) && Transferable(s, size) && Covering(orders) && i < |s| && At(r, s, i) && ShapedReceiver(r)
    ensures var t := RunTask(r, s, i, size, orders); At(t, s, i + 1) && t.streamId == r.streamId
  {
    hide IdOf, Before, OnCreate, SendSegments, SendInChunks, InFile, At, CreateOf, ChunkCount;
    assert s[i] in s;
    if Chunked(s[i]) {
      var x := SendingOf(r.streamId, s[i], i + 1, size);
      assert AllBelow(orders(x.count), x.count);
      ChunksComplete(r, s, i, size, orders(x.count));
    } else {
      Created(r, s, i);
      if s[i].node.File? {
        SegmentsComplete(OnCreate(r, CreateOf(r.streamId, s[i], i + 1)), s, i, 0, size);
      }
    }
  }

  lemma {:induction false} TasksAddAll(r: Receiver, s: seq<Item>, i: nat, size: Segment, orders: nat -> seq<nat>)
    requires Ordered(s) && Transferable(s, size) && Covering(orders) && i <= |s| && At(r, s, i) && ShapedReceiver(r)
    ensures At(RunTasks(r, s, i, size, orders), s, |s|)
    decreases |s| - i
  {
    hide RunTask, At, Ordered, Transferable, Covering;
    assert |s| < 0xFFFF_FFFF by { FewItems(s); }
    if i < |s| {
      TaskAdds(r, s, i, size, orders);
      TasksAddAll(RunTask(r, s, i, size, orders), s, i + 1, size, orders);
    }
  }

  lemma FewItems(s: seq<Item>)
    requires Ordered(s)
    ensures |s| < 0xFFFF_FFFF
  {
  }

  // ---------- One round ----------

  /** A stream that no message has reached yet. */
  function NewReceiver(streamId: U64, disk: map<Blob, Node>): Receiver { Receiver(streamId, disk, None, None) }

  /** Where it starts: at item `k`, or inside it. */
  lemma SessionStarts(streamId: U64, s: seq<Item>, k: nat, short: Option<Bytes>)
    requires Ordered(s) && k <= |s| && IsShort(s, k, short)
    ensures var r := NewReceiver(streamId, DiskOf(Has(s, k, short)));
      if short.Some? then Sized(s[k]) && InFile(r, s, k, |short.value|) else At(r, s, k)
  {
    hide IdOf, Before, DiskOf, EntriesOf, Ready;
    var h := Has(s, k, short);
    if short.Some? {
      assert s[k] in s;
      assert h[..k] == s[..k] && h[k] == ShortItem(s, k, short)[0];
      ShortDisk(h, k);
      assert short.value == s[k].node.content[..|short.value|];
      ResumeStarts(streamId, s, k, short);
    } else {
      assert h == s[..k];
    }
  }

  lemma ShortDisk(h: seq<Item>, k: nat)
    requires |h| == k + 1
    ensures DiskOf(h) == DiskOf(h[..k])[h[k].name := h[k].node]
  {
  }

  /** The new append receiver takes the short file for complete, and the next DATA restores its final size. */
  lemma ResumeStarts(streamId: U64, s: seq<Item>, k: nat, short: Option<Bytes>)
    requires Ordered(s) && k < |s| && IsShort(s, k, short) && short.Some? && Sized(s[k])
    requires var disk := DiskOf(Has(s, k, short)); s[k].name in disk && disk[s[k].name] == File(short.value)
    ensures Ready(AppendFor(NewReceiver(streamId, DiskOf(Has(s, k, short)))), s[k], k + 1, |short.value|)
  {
    hide IdOf, RangeChecksum, Before, DiskOf;
    EntriesAre(s, k, short);
    var h := Has(s, k, short);
    assert |h| == k + 1 && h[k] == Item(s[k].name, File(short.value));
    assert IdOf(h[k]) == IdOf(s[k]) by { SameId(h[k], s[k]); }
    assert short.value == s[k].node.content[..|short.value|];
    hide EntriesOf, Has;
  }

  /** The plan starts at the first incomplete item, behind what is there of it. */
  lemma PlanStartsAtTheGap(streamId: U64, s: seq<Item>, k: nat, short: Option<Bytes>)
    requires Ordered(s) && k < |s| && IsShort(s, k, short)
    ensures Planned(streamId, s, Gap(s, k, short)).0.current == k
    ensures var applied := Planned(streamId, s, Gap(s, k, short)).1;
      (applied.StartAppend? || applied.StartChunk?) && applied.start == Gap(s, k, short).start
  {
    hide IdOf, Before;
    var d := Gap(s, k, short);
    SendPlans.PlanReachesTheTask(SendPlans.StreamState(streamId, TasksOf(s), 0, false, false, false), d, k);
    hide SendPlans.ApplyPlan;
  }

  lemma RoundCompletes(streamId: U64, s: seq<Item>, k: nat, short: Option<Bytes>, size: Segment, orders: nat -> seq<nat>)
    requires Ordered(s) && Transferable(s, size) && Covering(orders) && k <= |s| && IsShort(s, k, short)
    ensures var r := NewReceiver(streamId, DiskOf(Has(s, k, short)));
      At(Round(r, s, Planned(streamId, s, Gap(s, k, short)), size, orders), s, |s|)
  {
    hide SendSegments, RunTasks, InFile, At, DiskOf, Has, Before, IdOf, Covering, Transferable;
    SessionStarts(streamId, s, k, short);
    var r := NewReceiver(streamId, DiskOf(Has(s, k, short)));
    if k < |s| {
      PlanStartsAtTheGap(streamId, s, k, short);
      hide Planned;
      if short.Some? {
        SegmentsComplete(r, s, k, |short.value|, size);
        TasksAddAll(SendSegments(r, s[k], k + 1, |short.value|, size), s, k + 1, size, orders);
      } else {
        TasksAddAll(r, s, k, size, orders);
      }
    }
  }

  /** The order of a scan is always fit for the round. */
  lemma ScanIsOrdered(sent: seq<Item>)
    requires Scannable(sent) && |sent| < 0xFFFF_FFFF
    ensures Ordered(Sort(sent)) && |Sort(sent)| == |sent|
  {
    hide Before, IdOf;
    SortSorts(sent);
    SortLength(sent);
    SortDistinct(sent);
  }

  /** The whole round. The sender's directory is listed by `sent` and the receiver's by `held`, in any order; the receiver
      has the first `k` of the sender's items in scan order and at most a proper prefix of the next one. The difference is
      found there; after the round the receiver's directory is the sender's; and the next difference, of any listings of
      the two, is none. */
  lemma Converges(streamId: U64, sent: seq<Item>, held: seq<Item>, k: nat, short: Option<Bytes>, size: Segment,
                  orders: nat -> seq<nat>, after: seq<Item>)
    requires Transferable(sent, size) && Covering(orders)
    requires Scannable(sent) && Scannable(held) && |sent| < 0xFFFF_FFFF && k <= |Sort(sent)|
    requires IsShort(Sort(sent), k, short) && forall x :: x in held <==> x in Has(Sort(sent), k, short)
    ensures Ordered(Sort(sent)) && Transferable(Sort(sent), size)
    ensures var s := Sort(sent);
      && Diff(Scan(sent), Scan(held)) == Gap(s, k, short)
      && var final := Round(NewReceiver(streamId, DiskOf(Has(s, k, short))), s,
                            Planned(streamId, s, Diff(Scan(sent), Scan(held))), size, orders);
         && Lists(final.disk, sent)
         && (Scannable(after) && Lists(final.disk, after) ==> Diff(Scan(sent), Scan(after)) == InSync)
  {
    hide Before, IdOf, Sort, Round, Diff, Planned, DiskOf, Lists, Gap, Numbered, Covering;
    var s := Sort(sent);
    ScanIsOrdered(sent);
    SortSorts(sent);
    RescanKeepsOrder(s, k, short, held);
    DiffFindsTheGap(s, k, short);
    RoundCompletes(streamId, s, k, short, size, orders);
    assert s[..|s|] == s;
    hide Has;
    FinalDirectory(sent, after);
  }

  /** A directory that holds the sender's items is in sync with them. */
  lemma FinalDirectory(sent: seq<Item>, after: seq<Item>)
    requires Scannable(sent) && |sent| < 0xFFFF_FFFF
    ensures Lists(DiskOf(Sort(sent)), sent)
    ensures Scannable(after) && Lists(DiskOf(Sort(sent)), after) ==> Diff(Scan(sent), Scan(after)) == InSync
  {
    hide Before, IdOf, Sort, Diff, DiskOf, Lists, Numbered;
    var s := Sort(sent);
    ScanIsOrdered(sent);
    SortSorts(sent);
    DiskLists(s);
    ListsPermuted(DiskOf(s), s, sent);
    if Scannable(after) && Lists(DiskOf(s), after) {
      ListsSame(DiskOf(s), s, after);
      assert Has(s, |s|, None) == s;
      RescanKeepsOrder(s, |s|, None, after);
      DiffFindsTheGap(s, |s|, None);
    }
  }

  lemma ListsPermuted(disk: map<Blob, Node>, a: seq<Item>, b: seq<Item>)
    requires Lists(disk, a) && forall x :: x in a <==> x in b
    ensures Lists(disk, b)
  {
  }
}
