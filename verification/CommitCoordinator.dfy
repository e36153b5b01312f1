/** Commits of chunked files: apply_commit and poll_chunk_commit of src/receiver/yisync_receiver_coordinator.cpp
    around one stream, and who owns a pending commit. */
module CommitCoordinator {
  import opened Wire
  import opened Messages
  import opened ChunkStreams
  import opened ChunkedReceiver

  /** The flags that the disk thread sets when the commit task ends. */
  datatype Completion = Running | Completed | Failed

  /** The chunk_commit_ fields of a stream's context, with its chunk receiver. */
  datatype Context = Context(chunk: ChunkStream, queued: bool, seqNo: U64, fileId: U64, finalSize: U64, completion: Completion)

  /** What the receiver sends or reports. */
  datatype Action =
    | Silent
    | SendNack(reply: Reply)
    | SendHeartbeat(nextSeq: U64, fileId: U64, offset: U64, durableOffset: U64)
    | Queued
    | ReceiverFails(sendsNack: bool)

  function Cleared(c: Context): Context { c.(queued := false, seqNo := 0, fileId := 0, finalSize := 0, completion := Running) }

  /** `infoSize` is the size that a scan finds for the file, `accepted` the answer of the disk writer's queue. */
  function ApplyCommit(c: Context, m: CommitMessage, finalExists: bool, infoSize: U64, accepted: bool): (Context, Action) {
    if c.queued then
      (c, if c.seqNo == m.seqNo && c.fileId == m.fileId then Silent
          else SendNack(Nacked(BAD_COMMIT, "another commit is already pending")))
    else
      var p := Prepare(c.chunk, m, finalExists);
      var prepared := c.(chunk := AfterPrepare(c.chunk, p, m));
      if p.Refused? then (c, SendNack(p.reply))
      else if p.Duplicate? || p.file.seqNo == 0 then
        (prepared, if m.seqNo < c.chunk.expectedSeq then SendHeartbeat(c.chunk.expectedSeq, m.fileId, infoSize, infoSize) else Silent)
      else if !accepted then
        (Cleared(prepared.(chunk := SetPending(prepared.chunk, m.seqNo, false))),
         SendNack(Nacked(IO_ERROR, "disk writer queue full while enqueueing commit")))
      else
        (prepared.(queued := true, seqNo := p.file.seqNo, fileId := p.file.fileId, finalSize := p.file.finalSize,
                   completion := Running), Queued)
  }

  function PollCommit(c: Context): (Context, Action) {
    if !c.queued then (c, Silent)
    else
      match c.completion
      case Running => (c, Silent)
      case Failed => (Cleared(c.(chunk := SetPending(c.chunk, c.seqNo, false))), ReceiverFails(true))
      case Completed =>
        match Finish(c.chunk, CommitResult(c.chunk.streamId, c.seqNo, c.fileId))
        case None => (c, ReceiverFails(false))
        case Some(chunk) =>
          (Cleared(c.(chunk := chunk)), SendHeartbeat(chunk.expectedSeq, c.fileId, c.finalSize, c.finalSize))
  }

  // ---------- Runs ----------

  datatype Event =
    | OnBegin(begin: BeginMessage, beginDisk: BeginDisk)
    | OnChunk(chunk: ChunkMessage, writeDisk: WriteDisk)
    | OnRefresh(latest: Option<Latest>)
    | OnCommit(commit: CommitMessage, finalExists: bool, infoSize: U64, accepted: bool)
    | TaskEnds(ok: bool)
    | OnPoll

  /** The disk thread ends the task that is queued. */
  function EndTask(c: Context, ok: bool): Context {
    if c.queued && c.completion.Running? then c.(completion := if ok then Completed else Failed) else c
  }

  function Next(c: Context, e: Event): Context
    requires Shaped(c.chunk)
  {
    match e
    case OnBegin(m, disk) => c.(chunk := ApplyBegin(c.chunk, m, disk).0)
    case OnChunk(m, disk) => c.(chunk := ApplyChunk(c.chunk, m, disk).0)
    case OnRefresh(latest) => c.(chunk := Refresh(c.chunk, latest))
    case OnCommit(m, finalExists, infoSize, accepted) => ApplyCommit(c, m, finalExists, infoSize, accepted).0
    case TaskEnds(ok) => EndTask(c, ok)
    case OnPoll => PollCommit(c).0
  }

  /** A commit is queued exactly when one active file, the one with its seq and file id, has its commit pending. */
  predicate Owned(c: Context) {
    && Shaped(c.chunk) && c.chunk.expectedSeq > 0
    && (forall k <- c.chunk.active :: k > 0 && c.chunk.active[k].seqNo == k)
    && (c.queued ==> c.seqNo in c.chunk.active && c.chunk.active[c.seqNo].fileId == c.fileId
                     && c.chunk.active[c.seqNo].commitPending)
    && (forall k <- c.chunk.active :: c.chunk.active[k].commitPending ==> c.queued && k == c.seqNo)
  }

  /** The context of a stream whose chunk receiver has just been made, behind a scan. */
  function NewContext(streamId: U64, latest: Option<Latest>): Context {
    Context(Refresh(ChunkStream(streamId, 1, 0, 0, map[]), latest), false, 0, 0, 0, Running)
  }

  lemma NewContextOwned(streamId: U64, latest: Option<Latest>)
    ensures Owned(NewContext(streamId, latest))
  {
  }

  lemma BeginOwned(c: Context, m: BeginMessage, disk: BeginDisk)
    requires Owned(c)
    ensures Owned(Next(c, OnBegin(m, disk)))
  {
    hide ChunkCount;
  }

  lemma ChunkOwned(c: Context, m: ChunkMessage, disk: WriteDisk)
    requires Owned(c)
    ensures Owned(Next(c, OnChunk(m, disk)))
  {
    hide BadPayload, WriteAt, ExpectedLen;
  }

  lemma PreparedFile(s: ChunkStream, m: CommitMessage, finalExists: bool)
    ensures Prepare(s, m, finalExists).Task? ==>
              m.seqNo in s.active && Prepare(s, m, finalExists).file == s.active[m.seqNo] && !s.active[m.seqNo].commitPending
  {
  }

  lemma CommitOwned(c: Context, m: CommitMessage, finalExists: bool, infoSize: U64, accepted: bool)
    requires Owned(c)
    ensures Owned(ApplyCommit(c, m, finalExists, infoSize, accepted).0)
  {
    hide Prepare;
    PreparedFile(c.chunk, m, finalExists);
    var p := Prepare(c.chunk, m, finalExists);
    if !c.queued && p.Task? {
      assert p.file.seqNo == m.seqNo > 0;
      if !accepted {
        assert SetPending(SetPending(c.chunk, m.seqNo, true), m.seqNo, false) == c.chunk by {
          assert p.file.(commitPending := true).(commitPending := false) == p.file;
        }
      }
    }
  }

  lemma PollOwned(c: Context)
    requires Owned(c)
    ensures Owned(PollCommit(c).0)
  {
  }

  lemma NextOwned(c: Context, e: Event)
    requires Owned(c)
    ensures Owned(Next(c, e))
  {
    match e
    case OnBegin(m, disk) => BeginOwned(c, m, disk);
    case OnChunk(m, disk) => ChunkOwned(c, m, disk);
    case OnRefresh(latest) =>
    case OnCommit(m, finalExists, infoSize, accepted) => CommitOwned(c, m, finalExists, infoSize, accepted);
    case TaskEnds(ok) =>
    case OnPoll => PollOwned(c);
  }

  function Run(c: Context, events: seq<Event>): (r: Context)
    requires Owned(c)
    ensures Owned(r)
    decreases |events|
  {
    if events == [] then c else (NextOwned(c, events[0]); Run(Next(c, events[0]), events[1..]))
  }

  /** In every run: a commit message is never told that its file's commit is already pending, finish_commit never
      throws, and a completed task commits exactly the queued file, moving expected_seq past it. */
  lemma CommitsAreOwned(c: Context, events: seq<Event>, m: CommitMessage, finalExists: bool, infoSize: U64, accepted: bool)
    requires Owned(c)
    ensures var r := Run(c, events);
      && (r.queued <==> exists k <- r.chunk.active :: r.chunk.active[k].commitPending)
      && ApplyCommit(r, m, finalExists, infoSize, accepted).1 != SendNack(Nacked(BAD_COMMIT, "commit already pending"))
      && PollCommit(r).1 != ReceiverFails(false)
      && (r.queued && r.completion.Completed? ==>
            var t := PollCommit(r).0;
            !t.queued && t.chunk.active == r.chunk.active - {r.seqNo} && t.chunk.expectedSeq >= Wrap64(r.seqNo + 1)
            && t.chunk.currentFileId == r.fileId)
  {
    hide Run;
    var r := Run(c, events);
    if r.queued {
      assert r.seqNo in r.chunk.active;
    }
  }

  /** The coordinator's commit methods. */
  class ChunkCommits {
    const chunk: T_ChunkedReceiverStream
    var queued: bool
    var seqNo: U64
    var fileId: U64
    var finalSize: U64
    var completion: Completion

    function Value(): Context reads this, chunk { Context(chunk.Value(), queued, seqNo, fileId, finalSize, completion) }

    constructor (chunk: T_ChunkedReceiverStream)
      ensures this.chunk == chunk && !queued && Value() == Cleared(Value())
    {
      this.chunk := chunk;
      queued, seqNo, fileId, finalSize, completion := false, 0, 0, 0, Running;
    }

    method Clear()
      modifies this
      ensures Value() == Cleared(old(Value()))
    {
      queued, seqNo, fileId, finalSize, completion := false, 0, 0, 0, Running;
    }

    method OnFileCommit(m: CommitMessage, finalExists: bool, infoSize: U64, accepted: bool) returns (action: Action)
      requires chunk.Valid()
      modifies this, chunk
      ensures chunk.Valid() && (Value(), action) == ApplyCommit(old(Value()), m, finalExists, infoSize, accepted)
    {
      if queued {
        if seqNo == m.seqNo && fileId == m.fileId {
          return Silent;
        }
        return SendNack(Nacked(BAD_COMMIT, "another commit is already pending"));
      }
      var p := chunk.PrepareCommit(m, finalExists);
      if p.Refused? {
        return SendNack(p.reply);
      }
      if p.Duplicate? || p.file.seqNo == 0 {
        if m.seqNo < chunk.expectedSeq {
          return SendHeartbeat(chunk.expectedSeq, m.fileId, infoSize, infoSize);
        }
        return Silent;
      }
      queued, seqNo, fileId, finalSize := true, p.file.seqNo, p.file.fileId, p.file.finalSize;
      completion := Running;
      if !accepted {
        chunk.AbortCommit(m.seqNo);
        Clear();
        return SendNack(Nacked(IO_ERROR, "disk writer queue full while enqueueing commit"));
      }
      return Queued;
    }

    method Poll() returns (action: Action)
      requires chunk.Valid()
      modifies this, chunk
      ensures chunk.Valid() && (Value(), action) == PollCommit(old(Value()))
    {
      if !queued {
        return Silent;
      }
      if completion.Failed? {
        chunk.AbortCommit(seqNo);
        Clear();
        return ReceiverFails(true);
      }
      if completion.Running? {
        return Silent;
      }
      var ok := chunk.FinishCommit(CommitResult(chunk.streamId, seqNo, fileId));
      if !ok {
        return ReceiverFails(false);
      }
      action := SendHeartbeat(chunk.expectedSeq, fileId, finalSize, finalSize);
      Clear();
    }
  }
}
