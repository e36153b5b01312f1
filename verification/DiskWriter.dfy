/** SpscDiskWriter of src/receiver/yisync_disk_writer.cpp: a ring shared by the thread that enqueues, drains
    and stops, and the worker thread. Each load and store of shared memory is one step, so a run is any
    interleaving of the two threads' steps. */
module DiskWriter {
  import opened Wire

  /** A task is known by a number; what it does to the disk does not matter to the ring. */
  type Task = nat

  /** kDefaultDiskWriterQueueCapacity + 1: one slot always stays free. */
  const CAPACITY := 129

  type Index = n: int | 0 <= n < CAPACITY

  function Increment(n: Index): Index { (n + 1) % CAPACITY }

  /** The slot of the i-th accepted task. */
  function Slot(i: nat): Index { i % CAPACITY }

  /** Where the enqueueing thread is; each case names the access it does next. */
  datatype Producer =
    | Idle
    | EnqueueLoadTail(task: Task)
    | EnqueueLoadHead(task: Task, at: Index)
    | EnqueueWrite(task: Task, at: Index)
    | EnqueuePublish(task: Task, at: Index)
    | DrainLoadHead
    | DrainLoadTail(seen: Index)
    | DrainLoadBusy
    | Joining

  datatype Worker =
    | LoadHead
    | LoadTail(at: Index)
    | LoadStopping
    | RaiseBusy(at: Index)
    | Take(at: Index)
    | Clear(at: Index, task: Option<Task>)
    | Advance(at: Index, task: Option<Task>)
    | Execute(task: Option<Task>)
    | StoreFailed
    | LowerBusy
    | Exited

  /** The shared memory, the two program counters, and the history: the tasks whose `enqueue` returned true,
      the tasks run, how many were taken out of the ring, and how many of them have returned. */
  datatype State = State(
    slots: seq<Option<Task>>, head: Index, tail: Index, busy: bool, stopping: bool, failed: bool,
    producer: Producer, worker: Worker,
    accepted: seq<Task>, executed: seq<Option<Task>>, taken: nat)

  const START := State(seq(CAPACITY, _ => None), 0, 0, false, false, false, Idle, LoadHead, [], [], 0)

  /** The producer calls a method or makes its next access, or the worker does; a task may throw. */
  datatype Move = CallEnqueue(task: Task) | CallDrain | CallStop | ProducerStep | WorkerStep(throws: bool)

  function Call(s: State, m: Move): (r: State)
    requires s.producer.Idle?
    ensures r.slots == s.slots
  {
    match m
    case CallEnqueue(task) => if s.stopping then s else s.(producer := EnqueueLoadTail(task))
    case CallDrain => s.(producer := DrainLoadHead)
    case CallStop => if s.stopping then s else s.(stopping := true, producer := Joining)
    case _ => s
  }

  function Produce(s: State): (r: State)
    requires |s.slots| == CAPACITY
    ensures |r.slots| == CAPACITY
  {
    match s.producer
    case Idle => s
    case EnqueueLoadTail(task) => s.(producer := EnqueueLoadHead(task, s.tail))
    case EnqueueLoadHead(task, at) => s.(producer := if Increment(at) == s.head then Idle else EnqueueWrite(task, at))
    case EnqueueWrite(task, at) => s.(slots := s.slots[at := Some(task)], producer := EnqueuePublish(task, at))
    case EnqueuePublish(task, at) => s.(tail := Increment(at), producer := Idle, accepted := s.accepted + [task])
    case DrainLoadHead => s.(producer := DrainLoadTail(s.head))
    case DrainLoadTail(seen) => s.(producer := if seen != s.tail then DrainLoadHead else DrainLoadBusy)
    case DrainLoadBusy => s.(producer := if s.busy then DrainLoadHead else Idle)
    case Joining => if s.worker.Exited? then s.(producer := Idle) else s
  }

  function Work(s: State, throws: bool): (r: State)
    requires |s.slots| == CAPACITY
    ensures |r.slots| == CAPACITY
  {
    match s.worker
    case LoadHead => s.(worker := LoadTail(s.head))
    case LoadTail(at) => s.(worker := if at == s.tail then LoadStopping else RaiseBusy(at))
    case LoadStopping => s.(worker := if s.stopping then Exited else LoadHead)
    case RaiseBusy(at) => s.(busy := true, worker := Take(at))
    case Take(at) => s.(slots := s.slots[at := None], worker := Clear(at, s.slots[at]))
    case Clear(at, task) => s.(slots := s.slots[at := None], worker := Advance(at, task))
    case Advance(at, task) => s.(head := Increment(at), worker := Execute(task), taken := s.taken + 1)
    case Execute(task) => s.(executed := s.executed + [task], worker := if throws then StoreFailed else LowerBusy)
    case StoreFailed => s.(failed := true, worker := LowerBusy)
    case LowerBusy => s.(busy := false, worker := LoadHead)
    case Exited => s
  }

  /** A move that its thread cannot make changes nothing. */
  function Next(s: State, m: Move): (r: State)
    requires |s.slots| == CAPACITY
    ensures |r.slots| == CAPACITY
  {
    match m
    case ProducerStep => Produce(s)
    case WorkerStep(throws) => Work(s, throws)
    case _ => if s.producer.Idle? then Call(s, m) else s
  }

  function Run(s: State, moves: seq<Move>): (r: State)
    requires |s.slots| == CAPACITY
    ensures |r.slots| == CAPACITY
    decreases |moves|
  {
    if moves == [] then s else Run(Next(s, moves[0]), moves[1..])
  }

  // ---------- The invariant ----------

  /** Between taking a task out of its slot and advancing `head`. */
  predicate Holding(w: Worker) { w.Clear? || w.Advance? }

  predicate Running(w: Worker) { w.Take? || Holding(w) || w.Execute? || w.StoreFailed? || w.LowerBusy? }

  predicate Ring(s: State) {
    && |s.slots| == CAPACITY
    && s.taken <= |s.accepted| <= s.taken + 128
    && s.tail == Slot(|s.accepted|)
    && s.head == Slot(s.taken)
    && (forall i :: s.taken + (if Holding(s.worker) then 1 else 0) <= i < |s.accepted| ==>
                      s.slots[Slot(i)] == Some(s.accepted[i]))
  }

  predicate ProducerSafe(s: State)
    requires Ring(s)
  {
    match s.producer
    case Idle | EnqueueLoadTail(_) | DrainLoadHead => true
    case EnqueueLoadHead(_, at) => at == s.tail
    case EnqueueWrite(_, at) => at == s.tail && |s.accepted| <= s.taken + 127
    case EnqueuePublish(task, at) => at == s.tail && |s.accepted| <= s.taken + 127 && s.slots[at] == Some(task)
    case DrainLoadTail(seen) => seen == s.tail ==> s.taken == |s.accepted|
    case DrainLoadBusy => s.taken == |s.accepted|
    case Joining => s.stopping
  }

  predicate WorkerSafe(s: State)
    requires Ring(s)
  {
    && s.busy == Running(s.worker)
    && (if s.worker.Execute? then |s.executed| + 1 == s.taken else |s.executed| == s.taken)
    && (forall i :: 0 <= i < |s.executed| ==> s.executed[i] == Some(s.accepted[i]))
    && match s.worker
       case LoadTail(at) => at == s.head
       case RaiseBusy(at) => at == s.head && s.taken < |s.accepted|
       case Take(at) => at == s.head && s.taken < |s.accepted|
       case Clear(at, task) => at == s.head && s.taken < |s.accepted| && task == Some(s.accepted[s.taken])
       case Advance(at, task) => at == s.head && s.taken < |s.accepted| && task == Some(s.accepted[s.taken])
       case Execute(task) => s.taken > 0 && task == Some(s.accepted[s.taken - 1])
       case Exited => s.stopping
       case _ => true
  }

  predicate Safe(s: State) { Ring(s) && ProducerSafe(s) && WorkerSafe(s) }

  lemma NextSlot(i: nat)
    ensures Increment(Slot(i)) == Slot(i + 1)
  {
  }

  lemma WholeLap(i: nat)
    ensures Slot(i + CAPACITY) == Slot(i)
  {
  }

  /** Positions less than a lap apart share a slot only when they are equal. */
  lemma SameSlot(i: nat, j: nat)
    requires i <= j < i + CAPACITY
    ensures Slot(i) == Slot(j) <==> i == j
  {
  }

  lemma Lap(s: State)
    requires s.taken <= |s.accepted| <= s.taken + 128
    ensures Increment(Slot(s.taken)) == Slot(s.taken + 1) && Increment(Slot(|s.accepted|)) == Slot(|s.accepted| + 1)
    ensures forall i: nat, j: nat :: i <= j < i + CAPACITY && Slot(i) == Slot(j) ==> i == j
    ensures |s.accepted| == s.taken + 128 ==> Slot(|s.accepted| + 1) == Slot(s.taken)
  {
    hide Increment, Slot;
    NextSlot(s.taken);
    NextSlot(|s.accepted|);
    WholeLap(s.taken);
    forall i: nat, j: nat | i <= j < i + CAPACITY && Slot(i) == Slot(j) ensures i == j {
      SameSlot(i, j);
    }
  }

  lemma EnqueueSafe(s: State)
    requires Safe(s) && (s.producer.EnqueueLoadHead? || s.producer.EnqueueWrite? || s.producer.EnqueuePublish?)
    ensures Safe(Produce(s))
  {
    Lap(s);
    hide Slot, Increment;
  }

  lemma DrainSafe(s: State)
    requires Safe(s) && (s.producer.DrainLoadHead? || s.producer.DrainLoadTail? || s.producer.DrainLoadBusy?)
    ensures Safe(Produce(s))
  {
    Lap(s);
    hide Slot, Increment;
  }

  lemma ProduceSafe(s: State)
    requires Safe(s)
    ensures Safe(Produce(s))
  {
    match s.producer
    case EnqueueLoadHead(_, _) => EnqueueSafe(s);
    case EnqueueWrite(_, _) => EnqueueSafe(s);
    case EnqueuePublish(_, _) => EnqueueSafe(s);
    case DrainLoadHead => DrainSafe(s);
    case DrainLoadTail(_) => DrainSafe(s);
    case DrainLoadBusy => DrainSafe(s);
    case _ =>
  }

  lemma LookSafe(s: State, throws: bool)
    requires Safe(s) && (s.worker.LoadHead? || s.worker.LoadTail? || s.worker.LoadStopping? || s.worker.Exited?)
    ensures Safe(Work(s, throws))
  {
    Lap(s);
    hide Slot, Increment;
  }

  lemma TakeSafe(s: State, throws: bool)
    requires Safe(s) && (s.worker.RaiseBusy? || s.worker.Take? || s.worker.Clear? || s.worker.Advance?)
    ensures Safe(Work(s, throws))
  {
    Lap(s);
    hide Slot, Increment;
  }

  lemma ExecuteSafe(s: State, throws: bool)
    requires Safe(s) && (s.worker.Execute? || s.worker.StoreFailed? || s.worker.LowerBusy?)
    ensures Safe(Work(s, throws))
  {
  }

  lemma WorkSafe(s: State, throws: bool)
    requires Safe(s)
    ensures Safe(Work(s, throws))
  {
    hide Safe, Work;
    if s.worker.LoadHead? || s.worker.LoadTail? || s.worker.LoadStopping? || s.worker.Exited? {
      LookSafe(s, throws);
    } else if s.worker.Execute? || s.worker.StoreFailed? || s.worker.LowerBusy? {
      ExecuteSafe(s, throws);
    } else {
      TakeSafe(s, throws);
    }
  }

  lemma NextSafe(s: State, m: Move)
    requires Safe(s)
    ensures Safe(Next(s, m))
  {
    match m
    case ProducerStep => ProduceSafe(s);
    case WorkerStep(throws) => WorkSafe(s, throws);
    case _ =>
  }

  lemma {:induction false} RunSafe(s: State, moves: seq<Move>)
    requires Safe(s)
    ensures Safe(Run(s, moves))
    decreases |moves|
  {
    if moves != [] {
      NextSafe(s, moves[0]);
      hide Safe, Next;
      RunSafe(Next(s, moves[0]), moves[1..]);
    }
  }

  lemma StartSafe()
    ensures Safe(START)
  {
  }

  // ---------- What every run satisfies ----------

  /** Tasks run in the order they were accepted, each at most once, and at most 128 wait in the ring. */
  lemma TasksRunInOrder(moves: seq<Move>)
    ensures var s := Run(START, moves);
      && |s.executed| <= s.taken <= |s.accepted| <= s.taken + 128
      && (forall i :: 0 <= i < |s.executed| ==> s.executed[i] == Some(s.accepted[i]))
  {
    StartSafe();
    RunSafe(START, moves);
    hide Run;
  }

  /** `drain` returns only when every accepted task has run, also the one the worker held. */
  lemma DrainWaitsForAll(moves: seq<Move>)
    ensures var s := Run(START, moves);
      s.producer.DrainLoadBusy? && Produce(s).producer.Idle? ==>
        |s.executed| == |s.accepted| && forall i :: 0 <= i < |s.accepted| ==> s.executed[i] == Some(s.accepted[i])
  {
    StartSafe();
    RunSafe(START, moves);
    hide Run;
  }

  /** The producer writes a slot only when no waiting task is in it and the worker is not at it. */
  lemma SlotsAreExclusive(moves: seq<Move>)
    ensures var s := Run(START, moves);
      s.producer.EnqueueWrite? ==>
        && (forall i :: s.taken <= i < |s.accepted| ==> Slot(i) != s.producer.at)
        && ((s.worker.Take? || s.worker.Clear?) ==> s.worker.at != s.producer.at)
  {
    StartSafe();
    RunSafe(START, moves);
    var s := Run(START, moves);
    Lap(s);
    hide Run, Slot, Increment;
  }

  // ---------- Every call gets done ----------

  /** A count of positions less than a lap apart tells full from free. */
  lemma FullMeansLap(s: State)
    requires Ring(s)
    ensures Increment(s.tail) == s.head <==> |s.accepted| == s.taken + 128
  {
    NextSlot(|s.accepted|);
    if |s.accepted| == s.taken + 128 {
      WholeLap(s.taken);
      assert |s.accepted| + 1 == s.taken + CAPACITY;
    } else {
      SameSlot(s.taken, |s.accepted| + 1);
    }
    hide Slot, Increment;
  }

  /** Only moves of the worker, and the producer's own steps. */
  predicate NoCalls(moves: seq<Move>) { forall m <- moves :: m.ProducerStep? || m.WorkerStep? }

  function ProducerSteps(moves: seq<Move>): nat {
    if moves == [] then 0 else (if moves[0].ProducerStep? then 1 else 0) + ProducerSteps(moves[1..])
  }

  lemma {:induction false} WriteIsPublished(s: State, moves: seq<Move>, task: Task, at: Index)
    requires |s.slots| == CAPACITY && NoCalls(moves)
    requires (s.producer == EnqueueWrite(task, at) && ProducerSteps(moves) == 2)
             || (s.producer == EnqueuePublish(task, at) && ProducerSteps(moves) == 1)
             || (s.producer == Idle && ProducerSteps(moves) == 0)
    ensures Run(s, moves).producer == Idle
    ensures Run(s, moves).accepted == if s.producer == Idle then s.accepted else s.accepted + [task]
    decreases |moves|
  {
    if moves != [] {
      assert moves[0] in moves;
      var next := Next(s, moves[0]);
      if moves[0].WorkerStep? {
        WorkKeepsProducer(s, moves[0].throws);
      }
      assert NoCalls(moves[1..]);
      hide NoCalls, Work;
      WriteIsPublished(next, moves[1..], task, at);
    }
  }

  /** enqueue, when it looks at head, goes on exactly when fewer than 128 tasks are in the ring; then two more steps of its own,
      whatever the worker does in between, have accepted the task, behind all others. */
  lemma EnqueueAccepts(before: seq<Move>, after: seq<Move>)
    requires Run(START, before).producer.EnqueueLoadHead? && NoCalls(after) && ProducerSteps(after) == 2
    ensures var s := Run(START, before); var next := Next(s, ProducerStep);
      if |s.accepted| < s.taken + 128 then
        !next.producer.Idle? && Run(next, after).accepted == s.accepted + [s.producer.task] && Run(next, after).producer == Idle
      else next == s.(producer := Idle)
  {
    StartSafe();
    RunSafe(START, before);
    var s := Run(START, before);
    FullMeansLap(s);
    var next := Next(s, ProducerStep);
    if next.producer.EnqueueWrite? {
      WriteIsPublished(next, after, s.producer.task, s.tail);
    }
    hide Run, Increment, Slot;
  }

  function WorkerRuns(s: State, n: nat): (r: State)
    requires |s.slots| == CAPACITY
    ensures |r.slots| == CAPACITY
    decreases n
  {
    if n == 0 then s else WorkerRuns(Work(s, false), n - 1)
  }

  /** How many steps the worker is from having run the next task. */
  function StepsToRun(w: Worker): nat {
    match w
    case StoreFailed => 9
    case LowerBusy => 8
    case LoadStopping => 8
    case LoadHead => 7
    case LoadTail(_) => 6
    case RaiseBusy(_) => 5
    case Take(_) => 4
    case Clear(_, _) => 3
    case Advance(_, _) => 2
    case Execute(_) => 1
    case Exited => 0
  }

  /** While a task waits, every step of a worker that has not been told to stop brings it closer. */
  lemma WorkerApproaches(s: State)
    requires Safe(s) && |s.executed| < |s.accepted| && !s.stopping
    ensures var next := Work(s, false);
      && Safe(next) && next.accepted == s.accepted && !next.stopping
      && (if s.worker.Execute? then |next.executed| == |s.executed| + 1
          else next.executed == s.executed && StepsToRun(next.worker) < StepsToRun(s.worker))
  {
    WorkSafe(s, false);
    HeadMeetsTail(s);
    hide Slot, Increment;
  }

  /** A waiting task is run within nine steps of the worker, unless stop() was called. */
  lemma {:induction false} WorkerGetsThere(s: State) returns (n: nat)
    requires Safe(s) && |s.executed| < |s.accepted| && !s.stopping
    ensures n <= 9 && n <= StepsToRun(s.worker)
    ensures Safe(WorkerRuns(s, n)) && |WorkerRuns(s, n).executed| == |s.executed| + 1 && WorkerRuns(s, n).accepted == s.accepted
    decreases StepsToRun(s.worker)
  {
    WorkerApproaches(s);
    hide Safe, Work;
    if s.worker.Execute? {
      n := 1;
      assert WorkerRuns(s, 1) == WorkerRuns(Work(s, false), 0);
    } else {
      n := WorkerGetsThere(Work(s, false));
      n := n + 1;
    }
  }

  /** A call of enqueue looks at tail first, and is refused at once behind stop(). */
  lemma EnqueueStarts(s: State, task: Task)
    requires |s.slots| == CAPACITY && s.producer.Idle?
    ensures var called := Next(s, CallEnqueue(task));
      if s.stopping then called == s else Next(called, ProducerStep) == s.(producer := EnqueueLoadHead(task, s.tail))
  {
  }

  function StepsToExit(w: Worker): nat {
    match w
    case StoreFailed => 5
    case Execute(_) => 5
    case LowerBusy => 4
    case LoadHead => 3
    case LoadTail(_) => 2
    case LoadStopping => 1
    case _ => 0
  }

  lemma WorkerLeaves(s: State)
    requires Safe(s) && s.stopping && s.taken == |s.accepted| && !s.worker.Exited?
    ensures var next := Work(s, false);
      Safe(next) && next.stopping && next.taken == |next.accepted| && StepsToExit(next.worker) < StepsToExit(s.worker)
  {
    WorkSafe(s, false);
    HeadMeetsTail(s);
    hide Slot, Increment;
  }

  /** Behind stop(), with nothing left in the ring, the worker ends within five steps, and then stop() returns. */
  lemma {:induction false} StopReturns(s: State) returns (n: nat)
    requires Safe(s) && s.stopping && s.taken == |s.accepted| && s.producer.Joining?
    ensures n <= 5 && WorkerRuns(s, n).worker.Exited? && Produce(WorkerRuns(s, n)).producer == Idle
    ensures n <= StepsToExit(s.worker)
    decreases StepsToExit(s.worker)
  {
    if s.worker.Exited? {
      n := 0;
    } else {
      WorkerLeaves(s);
      WorkKeepsProducer(s, false);
      hide Safe, Work;
      n := StopReturns(Work(s, false));
      n := n + 1;
    }
  }

  /** When everything has run and the worker is not busy, drain returns after three steps. */
  lemma DrainReturns(s: State)
    requires Safe(s) && s.producer.DrainLoadHead? && |s.executed| == |s.accepted| && !s.busy
    ensures Produce(Produce(Produce(s))).producer == Idle
  {
    HeadMeetsTail(s);
    hide Slot, Increment;
  }

  /** Once stop() has set the flag, the producer accepts nothing more. */
  predicate Stopped(s: State) {
    s.stopping && (s.producer.Idle? || s.producer.Joining? || s.producer.DrainLoadHead?
      || s.producer.DrainLoadTail? || s.producer.DrainLoadBusy?)
  }

  /** The worker has seen an empty ring, a task came after that, and it will not look again. */
  predicate Overlooked(s: State) { (s.worker.LoadStopping? || s.worker.Exited?) && s.taken < |s.accepted| }

  lemma ProducerKeeps(s: State, m: Move)
    requires Safe(s) && Stopped(s) && !m.WorkerStep?
    ensures Stopped(Next(s, m)) && Next(s, m).accepted == s.accepted && Next(s, m).taken == s.taken
    ensures Next(s, m).worker == s.worker
  {
    hide Slot, Increment, Ring, WorkerSafe;
  }

  /** The ring is empty where head meets tail. */
  lemma HeadMeetsTail(s: State)
    requires Ring(s)
    ensures s.head == s.tail <==> s.taken == |s.accepted|
  {
    SameSlot(s.taken, |s.accepted|);
    hide Slot;
  }

  lemma WorkerKeeps(s: State, throws: bool)
    requires Safe(s) && s.stopping
    ensures Overlooked(Work(s, throws)) == Overlooked(s)
  {
    hide Slot, Increment, ProducerSafe, Ring;
    HeadMeetsTail(s);
  }

  lemma WorkKeepsProducer(s: State, throws: bool)
    requires |s.slots| == CAPACITY
    ensures Work(s, throws).producer == s.producer && Work(s, throws).accepted == s.accepted && Work(s, throws).stopping == s.stopping
  {
  }

  lemma StoppedKeeps(s: State, m: Move)
    requires Safe(s) && Stopped(s)
    ensures Stopped(Next(s, m)) && Next(s, m).accepted == s.accepted
    ensures Overlooked(Next(s, m)) == Overlooked(s)
  {
    hide Safe, Work, Produce, Call;
    assert |s.slots| == CAPACITY by { SafeSize(s); }
    if m.WorkerStep? {
      WorkKeepsProducer(s, m.throws);
      WorkerKeeps(s, m.throws);
    } else {
      ProducerKeeps(s, m);
    }
  }

  lemma SafeSize(s: State)
    requires Safe(s)
    ensures |s.slots| == CAPACITY
  {
  }

  /** stop() runs every accepted task if and only if, when it sets the flag, the worker is not between
      finding the ring empty and reading the flag while a task waits. */
  lemma {:induction false} StopRunsAll(s: State, moves: seq<Move>)
    requires Safe(s) && Stopped(s)
    requires Run(s, moves).worker.Exited?
    ensures |Run(s, moves).executed| == |s.accepted| <==> !Overlooked(s)
    ensures Run(s, moves).accepted == s.accepted
    decreases |moves|
  {
    if moves != [] {
      NextSafe(s, moves[0]);
      StoppedKeeps(s, moves[0]);
      StopRunsAll(Next(s, moves[0]), moves[1..]);
    }
  }

  /** Every accepted task has left the ring, and the producer is not about to add one. */
  predicate Emptied(s: State) {
    s.taken == |s.accepted| && (s.producer.Idle? || s.producer.Joining? || s.producer.DrainLoadHead?
      || s.producer.DrainLoadTail? || s.producer.DrainLoadBusy?)
  }

  lemma EmptiedKeeps(s: State, m: Move)
    requires Safe(s) && Emptied(s) && !m.CallEnqueue?
    ensures Emptied(Next(s, m)) && Next(s, m).accepted == s.accepted
  {
    hide Slot, Increment;
  }

  lemma {:induction false} EmptiedStays(s: State, moves: seq<Move>)
    requires Safe(s) && Emptied(s) && forall m <- moves :: !m.CallEnqueue?
    ensures Safe(Run(s, moves)) && Emptied(Run(s, moves)) && Run(s, moves).accepted == s.accepted
    decreases |moves|
  {
    if moves != [] {
      assert moves[0] in moves;
      NextSafe(s, moves[0]);
      EmptiedKeeps(s, moves[0]);
      hide Safe, Next, Emptied;
      EmptiedStays(Next(s, moves[0]), moves[1..]);
    }
  }

  /** What a caller can do: when drain() has returned and nothing has been enqueued since, stop() leaves no task behind. */
  lemma DrainThenStop(before: seq<Move>, after: seq<Move>)
    requires Run(START, before).producer.DrainLoadBusy? && Produce(Run(START, before)).producer.Idle?
    requires forall m <- after :: !m.CallEnqueue?
    ensures var t := Run(Produce(Run(START, before)), after);
      && t.accepted == Run(START, before).accepted
      && (t.worker.Exited? ==>
            |t.executed| == |t.accepted| && forall i :: 0 <= i < |t.accepted| ==> t.executed[i] == Some(t.accepted[i]))
  {
    StartSafe();
    RunSafe(START, before);
    var s := Run(START, before);
    hide Run;
    NextSafe(s, ProducerStep);
    assert Emptied(Produce(s)) && Produce(s).accepted == s.accepted;
    hide Produce, Next;
    EmptiedStays(Produce(s), after);
  }

  /** Two moves. */
  function Two(s: State, a: Move, b: Move): (r: State)
    requires |s.slots| == CAPACITY
    ensures |r.slots| == CAPACITY
  {
    Next(Next(s, a), b)
  }

  lemma AcceptsWhileLooking(task: Task)
    ensures Two(START, WorkerStep(false), WorkerStep(false)) == START.(worker := LoadStopping)
    ensures Two(START.(worker := LoadStopping), CallEnqueue(task), ProducerStep) ==
              START.(worker := LoadStopping, producer := EnqueueLoadHead(task, 0))
    ensures Two(START.(worker := LoadStopping, producer := EnqueueLoadHead(task, 0)), ProducerStep, ProducerStep) ==
              START.(worker := LoadStopping, producer := EnqueuePublish(task, 0), slots := START.slots[0 := Some(task)])
  {
  }

  lemma StopsWhileLooking(task: Task)
    ensures var s := START.(worker := LoadStopping, producer := EnqueuePublish(task, 0), slots := START.slots[0 := Some(task)]);
      var t := Two(Two(s, ProducerStep, CallStop), WorkerStep(false), ProducerStep);
      t.accepted == [task] && t.worker.Exited? && t.producer.Idle? && t.executed == []
  {
  }

  /** Such a run exists: the worker finds the ring empty, a task is accepted, stop() is called, and the task never runs. */
  lemma StopCanLoseATask(task: Task)
    ensures var s := Run(START, [WorkerStep(false), WorkerStep(false), CallEnqueue(task), ProducerStep, ProducerStep,
                                 ProducerStep, ProducerStep, CallStop, WorkerStep(false), ProducerStep]);
      s.accepted == [task] && s.worker.Exited? && s.producer.Idle? && s.executed == []
  {
    AcceptsWhileLooking(task);
    StopsWhileLooking(task);
    hide Two, Run;
    var looking := START.(worker := LoadStopping);
    var begun := looking.(producer := EnqueueLoadHead(task, 0));
    var written := looking.(producer := EnqueuePublish(task, 0), slots := START.slots[0 := Some(task)]);
    var stopped := Two(written, ProducerStep, CallStop);
    var last := [WorkerStep(false), ProducerStep];
    var stop := [ProducerStep, CallStop] + last;
    var enqueue := [CallEnqueue(task), ProducerStep] + ([ProducerStep, ProducerStep] + stop);
    assert [WorkerStep(false), WorkerStep(false)] + enqueue ==
           [WorkerStep(false), WorkerStep(false), CallEnqueue(task), ProducerStep, ProducerStep,
            ProducerStep, ProducerStep, CallStop, WorkerStep(false), ProducerStep];
    assert last == last + [];
    Runs2(START, WorkerStep(false), WorkerStep(false), enqueue);
    Runs2(looking, CallEnqueue(task), ProducerStep, [ProducerStep, ProducerStep] + stop);
    Runs2(begun, ProducerStep, ProducerStep, stop);
    Runs2(written, ProducerStep, CallStop, last);
    Runs2(stopped, WorkerStep(false), ProducerStep, []);
    RunsNothing(Two(stopped, WorkerStep(false), ProducerStep));
  }

  lemma RunsNothing(s: State)
    requires |s.slots| == CAPACITY
    ensures Run(s, []) == s
  {
  }

  lemma Runs2(s: State, a: Move, b: Move, rest: seq<Move>)
    requires |s.slots| == CAPACITY
    ensures Run(s, [a, b] + rest) == Run(Two(s, a, b), rest)
  {
    hide Next;
    assert ([a, b] + rest)[1..] == [b] + rest && ([b] + rest)[1..] == rest;
  }
}
