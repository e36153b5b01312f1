/** From a difference to the sender's plan: make_manifest2_stream of src/core/yisync_sync.cpp and
    apply_manifest2_to_stream of src/sender/yisync_sender_plan.cpp. */
module SendPlans {
  import opened Wire
  import opened Messages
  import opened ManifestSync

  const IN_SYNC: U8 := 0
  const RESUME_EXISTING: U8 := 1
  const CREATE_MISSING: U8 := 2

  function PlanOf(streamId: U64, d: Difference): PlanStream
    requires !d.Conflict?
  {
    match d
    case InSync => PlanStream(streamId, IN_SYNC, 0, 0)
    case StartAt(s) => PlanStream(streamId, if s.resumes then RESUME_EXISTING else CREATE_MISSING, s.fileId, s.offset)
  }

  datatype Task = Task(fileId: U64, chunkMode: bool)

  datatype StreamState = StreamState(streamId: U64, tasks: seq<Task>, current: nat, applied: bool, complete: bool, changesPending: bool)

  /** What applying a plan leads to; Failed is the source's exception. */
  datatype Applied = Ignored | Failed | AlreadyInSync | StartAppend(start: Start) | StartChunk(start: Start)

  function FindPlan(plans: seq<PlanStream>, streamId: U64): (r: Option<PlanStream>)
    ensures r.Some? ==> r.value in plans && r.value.streamId == streamId
    ensures r.None? ==> forall p <- plans :: p.streamId != streamId
  {
    if plans == [] then None else if plans[0].streamId == streamId then Some(plans[0]) else FindPlan(plans[1..], streamId)
  }

  function FindTask(tasks: seq<Task>, fileId: U64): (r: Option<nat>)
    ensures r.Some? ==> r.value < |tasks| && tasks[r.value].fileId == fileId && forall i :: 0 <= i < r.value ==> tasks[i].fileId != fileId
    ensures r.None? ==> forall t <- tasks :: t.fileId != fileId
  {
    if tasks == [] then None
    else if tasks[0].fileId == fileId then Some(0)
    else
      match FindTask(tasks[1..], fileId)
      case None => None
      case Some(i) => Some(i + 1)
  }

  function ApplyPlan(s: StreamState, plans: seq<PlanStream>): (StreamState, Applied) {
    if s.applied || s.complete then (s, Ignored)
    else
      match FindPlan(plans, s.streamId)
      case None => (s, Failed)
      case Some(plan) =>
        if plan.action == IN_SYNC then
          (s.(current := |s.tasks|, applied := true, complete := true, changesPending := false), AlreadyInSync)
        else
          match FindTask(s.tasks, plan.startFileId)
          case None => (s, Failed)
          case Some(i) =>
            var resumes := plan.action == RESUME_EXISTING;
            var start := Start(plan.startFileId, plan.startOffset, resumes);
            var task := s.tasks[i].(chunkMode := s.tasks[i].chunkMode && !resumes);
            (s.(current := i, applied := true, tasks := s.tasks[i := task]),
             if task.chunkMode then StartChunk(start) else StartAppend(start))
  }

  /** The plan made from a difference puts the sender at the task where the difference is, with the same start. */
  lemma PlanReachesTheTask(s: StreamState, d: Difference, k: nat)
    requires !s.applied && !s.complete && forall i, j :: 0 <= i < j < |s.tasks| ==> s.tasks[i].fileId != s.tasks[j].fileId
    requires d.StartAt? && k < |s.tasks| && d.start.fileId == s.tasks[k].fileId
    ensures var (t, applied) := ApplyPlan(s, [PlanOf(s.streamId, d)]);
      && t.applied && t.current == k && !t.complete && |t.tasks| == |s.tasks|
      && applied == (if s.tasks[k].chunkMode && !d.start.resumes then StartChunk(d.start) else StartAppend(d.start))
  {
    assert s.tasks[k] in s.tasks;
  }

  /** The plan made from no difference completes the stream, and one for an unknown file fails and changes nothing. */
  lemma PlanEndsTheStream(s: StreamState, d: Difference)
    requires !s.applied && !s.complete && !d.Conflict?
    requires d.StartAt? ==> forall t <- s.tasks :: t.fileId != d.start.fileId
    ensures ApplyPlan(s, [PlanOf(s.streamId, d)]) ==
            if d.InSync? then (StreamState(s.streamId, s.tasks, |s.tasks|, true, true, false), AlreadyInSync) else (s, Failed)
    ensures ApplyPlan(s, []) == (s, Failed)
  {
  }

  class T_StreamSendState {
    const streamId: U64
    var tasks: seq<Task>
    var current: nat
    var applied: bool
    var complete: bool
    var changesPending: bool

    function Value(): StreamState reads this { StreamState(streamId, tasks, current, applied, complete, changesPending) }

    constructor (streamId: U64, tasks: seq<Task>)
      ensures Value() == StreamState(streamId, tasks, 0, false, false, false)
    {
      this.streamId, this.tasks := streamId, tasks;
      current, applied, complete, changesPending := 0, false, false, false;
    }

    method Plan(plans: seq<PlanStream>) returns (found: Option<PlanStream>)
      ensures found == FindPlan(plans, streamId)
    {
      for i := 0 to |plans|
        invariant FindPlan(plans, streamId) == FindPlan(plans[i..], streamId)
      {
        assert plans[i..][1..] == plans[i + 1..];
        if plans[i].streamId == streamId {
          return Some(plans[i]);
        }
      }
      return None;
    }

    method TaskIndex(fileId: U64) returns (found: Option<nat>)
      ensures found == FindTask(tasks, fileId)
    {
      for i := 0 to |tasks|
        invariant FindTask(tasks, fileId) == match FindTask(tasks[i..], fileId) case None => None case Some(k) => Some(i + k)
      {
        assert tasks[i..][1..] == tasks[i + 1..];
        if tasks[i].fileId == fileId {
          return Some(i);
        }
      }
      return None;
    }

    method ApplyManifest2(plans: seq<PlanStream>) returns (r: Applied)
      modifies this
      ensures (Value(), r) == ApplyPlan(old(Value()), plans)
    {
      if applied || complete {
        return Ignored;
      }
      var found := Plan(plans);
      if found.None? {
        return Failed;
      }
      var plan := found.value;
      if plan.action == IN_SYNC {
        current, applied, complete, changesPending := |tasks|, true, true, false;
        return AlreadyInSync;
      }
      var task := TaskIndex(plan.startFileId);
      if task.None? {
        return Failed;
      }
      var i := task.value;
      current, applied := i, true;
      var start := Start(plan.startFileId, plan.startOffset, plan.action == RESUME_EXISTING);
      assert tasks == tasks[i := tasks[i]];
      if start.resumes {
        tasks := tasks[i := tasks[i].(chunkMode := false)];
      }
      return if tasks[i].chunkMode then StartChunk(start) else StartAppend(start);
    }
  }
}
