/** What the receiver reports as durable for one append file: reset_append_durable_context,
    maybe_enqueue_append_fsync and poll_append_fsync of src/receiver/yisync_receiver_coordinator.cpp, with the
    fsync tasks that the disk thread runs in between. */
module AppendDurability {
  import opened Wire

  // ---------- The coordinator's fields ----------

  /** The append_durable_ and append_fsync_ fields of a stream's context; no path is the empty one. */
  datatype Fields = Fields(fileId: U64, path: Option<Blob>, durable: U64, target: U64, activeTarget: U64, queued: bool,
                           completed: U64, failed: bool)

  /** A task of the disk writer: sync the file, then store `goal` as completed. */
  datatype Fsync = Fsync(path: Blob, goal: U64)

  /** reset_append_durable_context: for another file everything starts over at `offset`. */
  function ResetFor(f: Fields, fileId: U64, path: Option<Blob>, offset: U64): Fields {
    if f.fileId == fileId then (if path.Some? then f.(path := path) else f)
    else Fields(fileId, path, offset, offset, 0, false, offset, false)
  }

  /** maybe_enqueue_append_fsync; `accepted` is the answer of the disk writer's queue. */
  function MaybeEnqueue(f: Fields, goal: U64, accepted: bool): (Fields, Option<Fsync>) {
    if goal <= f.durable then (f, None)
    else
      var raised := f.(target := Max(f.target, goal));
      if f.queued || f.path.None? then (raised, None)
      else if !accepted then (raised.(failed := false), None)
      else (raised.(failed := false, queued := true, activeTarget := raised.target), Some(Fsync(f.path.value, raised.target)))
  }

  /** poll_append_fsync, which stops the receiver when an fsync has failed. */
  function Polled(f: Fields, accepted: bool): (Fields, Option<Fsync>) {
    if f.failed then (f, None)
    else
      var seen := f.(durable := Max(f.durable, f.completed));
      var freed := if seen.queued && seen.completed >= seen.activeTarget then seen.(queued := false, activeTarget := 0) else seen;
      if !freed.queued && freed.target > freed.durable then MaybeEnqueue(freed, freed.target, accepted) else (freed, None)
  }

  /** The durable offset that a poll reports, when it has grown. */
  function News(f: Fields): Option<U64> { if !f.failed && f.completed > f.durable then Some(f.completed) else None }

  // ---------- One file ----------

  /** The file's fsync task: queued with its target, or synced and about to store it. */
  datatype Task = NoTask | Enqueued(goal: U64) | Synced(goal: U64)

  /** The fields, and the world around them: the file's task, the bytes appended so far and those that a finished fsync
      covers. */
  datatype Context = Context(fields: Fields, task: Task, size: U64, covered: U64)

  /** A new file: its first `base` bytes count as durable, and nothing is outstanding. */
  function Reset(fileId: U64, path: Option<Blob>, base: U64): Context {
    Context(Fields(fileId, path, base, base, 0, false, base, false), NoTask, base, base)
  }

  function Queueing(c: Context, r: (Fields, Option<Fsync>)): Context {
    c.(fields := r.0, task := if r.1.Some? then Enqueued(r.1.value.goal) else c.task)
  }

  /** apply_data, after the receiver took a message and its session is at `currentOffset`: grown, or not for a repetition. */
  function OnData(c: Context, currentOffset: U64, accepted: bool): Context {
    var grown := c.(size := Max(c.size, currentOffset));
    Queueing(grown, MaybeEnqueue(grown.fields, grown.size, accepted))
  }

  function OnPoll(c: Context, accepted: bool): Context { Queueing(c, Polled(c.fields, accepted)) }

  /** The disk thread: fsync covers what the file holds when it runs, or fails; then the target is stored. */
  function RunFsync(c: Context, ok: bool): Context {
    if !c.task.Enqueued? then c
    else if ok then c.(task := Synced(c.task.goal), covered := c.size)
    else c.(task := NoTask, fields := c.fields.(failed := true))
  }

  function StoreCompleted(c: Context): Context {
    if c.task.Synced? then c.(task := NoTask, fields := c.fields.(completed := c.task.goal)) else c
  }

  datatype Event = Data(currentOffset: U64, accepted: bool) | Poll(accepted: bool) | RunsFsync(ok: bool) | Store

  function Next(c: Context, e: Event): Context {
    match e
    case Data(currentOffset, accepted) => OnData(c, currentOffset, accepted)
    case Poll(accepted) => OnPoll(c, accepted)
    case RunsFsync(ok) => RunFsync(c, ok)
    case Store => StoreCompleted(c)
  }

  /** This file's part of append_durable_idle. */
  predicate Idle(c: Context) { !c.fields.queued && c.fields.target <= c.fields.durable }

  predicate Inv(c: Context) {
    var f := c.fields;
    && f.durable <= f.completed <= c.covered <= c.size
    && c.size <= Max(f.target, f.durable) && f.target <= c.size
    && f.activeTarget <= c.size
    && (if f.queued then c.task == Enqueued(f.activeTarget) || c.task == Synced(f.activeTarget)
                         || (c.task.NoTask? && (f.completed >= f.activeTarget || f.failed))
        else c.task.NoTask? && f.completed == f.durable)
    && (f.queued && !c.task.NoTask? ==> f.completed < f.activeTarget)
    && (c.task.Synced? ==> c.task.goal <= c.covered)
  }

  lemma NextInv(c: Context, e: Event)
    requires Inv(c)
    ensures Inv(Next(c, e)) && Next(c, e).fields.durable >= c.fields.durable && Next(c, e).covered >= c.covered
  {
  }

  function Run(c: Context, events: seq<Event>): Context
    decreases |events|
  {
    if events == [] then c else Run(Next(c, events[0]), events[1..])
  }

  /** In every run the durable offset never goes back, never passes what finished fsyncs cover (or the base), and a
      context that reports idle has every accepted byte covered. */
  lemma {:induction false} DurableIsCovered(c: Context, events: seq<Event>)
    requires Inv(c)
    ensures Inv(Run(c, events))
    ensures c.fields.durable <= Run(c, events).fields.durable <= Run(c, events).covered
    ensures Idle(Run(c, events)) ==> Run(c, events).covered == Run(c, events).size == Run(c, events).fields.durable
    decreases |events|
  {
    if events != [] {
      NextInv(c, events[0]);
      DurableIsCovered(Next(c, events[0]), events[1..]);
    }
  }

  lemma ResetInv(fileId: U64, path: Option<Blob>, base: U64)
    ensures Inv(Reset(fileId, path, base)) && Idle(Reset(fileId, path, base))
  {
  }

  const ROUND := [RunsFsync(true), Store, Poll(true)]

  function AfterRound(c: Context): Context { OnPoll(StoreCompleted(RunFsync(c, true)), true) }

  lemma RoundSteps(c: Context, rest: seq<Event>)
    ensures Run(c, ROUND + rest) == Run(AfterRound(c), rest)
  {
    hide RunFsync, StoreCompleted, OnPoll;
    var s := ROUND + rest;
    assert s[0] == RunsFsync(true) && s[1..][0] == Store && s[2..][0] == Poll(true);
    assert s[1..][1..] == s[2..] && s[2..][1..] == rest;
    assert Run(c, s) == Run(RunFsync(c, true), s[1..]);
    assert Run(RunFsync(c, true), s[1..]) == Run(StoreCompleted(RunFsync(c, true)), s[2..]);
  }

  /** One round finishes what is queued, and queues the rest. */
  lemma RoundGains(c: Context)
    requires Inv(c) && !c.fields.failed && c.fields.path.Some?
    ensures var r := AfterRound(c);
      Inv(r) && !r.fields.failed && r.fields.path.Some? && r.size == c.size && (Idle(r) || r.task == Enqueued(c.size))
    ensures c.task == Enqueued(c.size) ==> Idle(AfterRound(c))
  {
    var synced := StoreCompleted(RunFsync(c, true));
    Syncs(c);
    hide RunFsync, StoreCompleted;
    NextInv(synced, Poll(true));
  }

  lemma Syncs(c: Context)
    requires Inv(c) && !c.fields.failed
    ensures var r := StoreCompleted(RunFsync(c, true));
      && Inv(r) && r.task.NoTask? && r.size == c.size && r.fields == c.fields.(completed := r.fields.completed)
      && (r.fields.queued ==> r.fields.completed >= r.fields.activeTarget)
      && (c.task == Enqueued(c.size) ==> r.fields.completed == c.size)
  {
    NextInv(c, RunsFsync(true));
    NextInv(RunFsync(c, true), Store);
  }

  /** Two rounds of the disk thread and a poll that the queue accepts are enough to become idle, whatever was refused before. */
  lemma BecomesIdle(c: Context)
    requires Inv(c) && !c.fields.failed && c.fields.path.Some?
    ensures var r := Run(c, ROUND + (ROUND + [])); Idle(r) && r.fields.durable == c.size
  {
    hide Idle, Run, AfterRound;
    var c1 := AfterRound(c);
    RoundSteps(c, ROUND + []);
    RoundSteps(c1, []);
    RoundGains(c);
    RoundGains(c1);
    if Idle(c1) {
      IdleStays(c1);
    }
    IdleIsDurable(AfterRound(c1));
    NoSteps(AfterRound(c1));
  }

  lemma NoSteps(c: Context)
    ensures Run(c, []) == c
  {
  }

  lemma IdleStays(c: Context)
    requires Inv(c) && !c.fields.failed && Idle(c)
    ensures Idle(AfterRound(c))
  {
  }

  lemma IdleIsDurable(c: Context)
    requires Inv(c) && Idle(c)
    ensures c.fields.durable == c.size
  {
  }

  /** The fields as the coordinator updates them. A queued fsync goes to the disk writer, when its queue accepts it. */
  class AppendFsync {
    var fileId: U64
    var path: Option<Blob>
    var durable: U64
    var target: U64
    var activeTarget: U64
    var queued: bool
    var completed: U64
    var failed: bool

    function Value(): Fields reads this { Fields(fileId, path, durable, target, activeTarget, queued, completed, failed) }

    constructor ()
      ensures Value() == Fields(0, None, 0, 0, 0, false, 0, false)
    {
      fileId, path, durable, target, activeTarget, queued, completed, failed := 0, None, 0, 0, 0, false, 0, false;
    }

    method ResetAppendDurableContext(newFileId: U64, newPath: Option<Blob>, offset: U64)
      modifies this
      ensures Value() == ResetFor(old(Value()), newFileId, newPath, offset)
    {
      if fileId == newFileId {
        if newPath.Some? {
          path := newPath;
        }
        return;
      }
      fileId, path := newFileId, newPath;
      durable, target, activeTarget, queued := offset, offset, 0, false;
      completed, failed := offset, false;
    }

    method MaybeEnqueueAppendFsync(goal: U64, accepted: bool) returns (task: Option<Fsync>)
      modifies this
      ensures (Value(), task) == MaybeEnqueue(old(Value()), goal, accepted)
    {
      if goal <= durable {
        return None;
      }
      target := Max(target, goal);
      if queued || path.None? {
        return None;
      }
      failed := false;
      if !accepted {
        return None;
      }
      queued, activeTarget := true, target;
      return Some(Fsync(path.value, target));
    }

    /** apply_data's part, behind a message that the append receiver took; its session is now at `currentOffset`. */
    method ApplyData(dataFileId: U64, currentPath: Option<Blob>, dataOffset: U64, currentOffset: U64, accepted: bool)
        returns (task: Option<Fsync>)
      modifies this
      ensures (Value(), task) == MaybeEnqueue(ResetFor(old(Value()), dataFileId, currentPath, dataOffset), currentOffset, accepted)
    {
      ResetAppendDurableContext(dataFileId, currentPath, dataOffset);
      task := MaybeEnqueueAppendFsync(currentOffset, accepted);
    }

    /** The durable offset of the heartbeat, when there is news; `stop` asks the receiver to stop. */
    method PollAppendFsync(accepted: bool) returns (stop: bool, news: Option<U64>, task: Option<Fsync>)
      modifies this
      ensures (Value(), task) == Polled(old(Value()), accepted)
      ensures stop == old(failed) && news == News(old(Value()))
    {
      if failed {
        return true, None, None;
      }
      stop, news, task := false, None, None;
      var done := completed;
      if done > durable {
        durable := done;
        news := Some(durable);
      }
      if queued && done >= activeTarget {
        queued, activeTarget := false, 0;
      }
      if !queued && target > durable {
        task := MaybeEnqueueAppendFsync(target, accepted);
      }
    }
  }
}
