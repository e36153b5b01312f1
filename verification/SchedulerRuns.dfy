/** What every run of the scheduler keeps: accounting of the sends it granted, of the bytes in flight,
    and of the bytes granted per line and tick. */
module SchedulerRuns {
  import opened Wire
  import opened Messages
  import opened TokenBuckets
  import opened SchedulerSpec

  datatype Op = Refill(ticks: U64) | TryAcquire(request: Send) | Event(id: U32, event: LineEvent) | TakeLost

  /** The scheduler and its history: what it granted, what heartbeats completed, what take_lost_sends gave
      to its callers, each with its line, and the ticks that have passed. */
  datatype World = World(s: Scheduler, granted: seq<LostSend>, acked: seq<LostSend>, handed: seq<LostSend>, ticks: nat)

  function Step(w: World, op: Op): World
    requires BucketsValid(w.s)
  {
    match op
    case Refill(ticks) => w.(s := RefillAll(w.s, ticks), ticks := w.ticks + ticks)
    case TryAcquire(request) =>
      (match Chosen(w.s, request)
       case None => w
       case Some(i) => w.(s := Acquire(w.s, request), granted := w.granted + [LostSend(w.s.lines[i].config.id, request)]))
    case Event(id, e) =>
      (match Find(w.s.lines, id)
       case None => w
       case Some(i) => w.(s := OnEvent(w.s, id, e), acked := w.acked + Lose(id, Acked(w.s.lines[i], e))))
    case TakeLost => w.(s := w.s.(lost := []), handed := w.handed + w.s.lost)
  }

  predicate LineSound(line: Line) { line.bucket.Valid() && line.inflight == SumBytes(line.pending) }

  predicate Sound(s: Scheduler) { forall line <- s.lines :: LineSound(line) }

  /** How often `x` occurs. */
  function Count(sends: seq<LostSend>, x: LostSend): nat {
    if sends == [] then 0 else (if sends[0] == x then 1 else 0) + Count(sends[1..], x)
  }

  /** How often `x` occurs among the pending sends of a line. */
  function CountPending(id: U32, sends: seq<Send>, x: LostSend): nat {
    if sends == [] then 0 else (if LostSend(id, sends[0]) == x then 1 else 0) + CountPending(id, sends[1..], x)
  }

  function CountInFlight(lines: seq<Line>, x: LostSend): nat {
    if lines == [] then 0
    else CountPending(lines[0].config.id, lines[0].pending, x) + CountInFlight(lines[1..], x)
  }

  /** Every grant is exactly one of in flight on its line, completed, waiting as lost, or handed out: for each send,
      the number of times it was granted is the sum of the four. */
  ghost predicate Conserved(w: World) {
    forall x :: Balanced(w, x)
  }

  predicate Balanced(w: World, x: LostSend) {
    Count(w.granted, x) == CountInFlight(w.s.lines, x) + Count(w.acked, x) + Count(w.s.lost, x) + Count(w.handed, x)
  }

  // ---------- Counting ----------

  lemma {:induction false} SumAppend(a: seq<Send>, send: Send)
    ensures SumBytes(a + [send]) == SumBytes(a) + send.bytes
  {
    if a == [] {
      assert [] + [send] == [send] && SumBytes([send][1..]) == 0;
    } else {
      SumAppend(a[1..], send);
      assert (a + [send])[1..] == a[1..] + [send];
    }
  }

  lemma {:induction false} CountAppend(a: seq<LostSend>, b: seq<LostSend>, x: LostSend)
    ensures Count(a + b, x) == Count(a, x) + Count(b, x)
  {
    if a == [] {
      assert [] + b == b;
    } else {
      CountAppend(a[1..], b, x);
      assert (a + b)[1..] == a[1..] + b;
    }
  }

  lemma {:induction false} PendingAppend(id: U32, a: seq<Send>, send: Send, x: LostSend)
    ensures CountPending(id, a + [send], x) == CountPending(id, a, x) + if LostSend(id, send) == x then 1 else 0
  {
    if a == [] {
      assert [] + [send] == [send] && [send][1..] == [];
    } else {
      PendingAppend(id, a[1..], send, x);
      assert (a + [send])[1..] == a[1..] + [send];
    }
  }

  lemma {:induction false} LoseCounts(id: U32, sends: seq<Send>, x: LostSend)
    ensures Count(Lose(id, sends), x) == CountPending(id, sends, x)
  {
    if sends != [] {
      LoseCounts(id, sends[1..], x);
      assert Lose(id, sends)[1..] == Lose(id, sends[1..]);
    }
  }

  lemma CountsFirst(id: U32, send: Send, rest: seq<Send>, x: LostSend)
    ensures SumBytes([send] + rest) == send.bytes + SumBytes(rest)
    ensures CountPending(id, [send] + rest, x) == (if LostSend(id, send) == x then 1 else 0) + CountPending(id, rest, x)
  {
    assert ([send] + rest)[1..] == rest;
  }

  /** A heartbeat splits the pending sends into those it completes and those it leaves. */
  lemma {:induction false} SelectSplits(id: U32, sends: seq<Send>, beat: Beat, x: LostSend)
    ensures SumBytes(sends) == SumBytes(Select(sends, beat, true)) + SumBytes(Select(sends, beat, false))
    ensures CountPending(id, sends, x) ==
            CountPending(id, Select(sends, beat, true), x) + CountPending(id, Select(sends, beat, false), x)
  {
    if sends != [] {
      hide Completes, Select, SumBytes, CountPending;
      var rest := sends[1..];
      assert sends == [sends[0]] + rest;
      SelectSplits(id, rest, beat, x);
      SelectFirst(sends, beat, true);
      SelectFirst(sends, beat, false);
      CountsFirst(id, sends[0], rest, x);
      CountsFirst(id, sends[0], Select(rest, beat, Completes(beat, sends[0])), x);
    }
  }

  /** Replacing one line replaces its share of what is in flight. */
  lemma {:induction false} InFlightUpdate(lines: seq<Line>, i: nat, line: Line, x: LostSend)
    requires i < |lines|
    ensures CountInFlight(lines[i := line], x) ==
            CountInFlight(lines, x) - CountPending(lines[i].config.id, lines[i].pending, x)
            + CountPending(line.config.id, line.pending, x)
  {
    hide CountPending;
    if i > 0 {
      InFlightUpdate(lines[1..], i - 1, line, x);
      assert lines[i := line][1..] == lines[1..][i - 1 := line];
    } else {
      assert lines[0 := line][1..] == lines[1..];
    }
  }

  lemma {:induction false} InFlightSame(a: seq<Line>, b: seq<Line>, x: LostSend)
    requires |a| == |b|
    requires forall i :: 0 <= i < |a| ==> a[i].config == b[i].config && a[i].pending == b[i].pending
    ensures CountInFlight(a, x) == CountInFlight(b, x)
  {
    if a != [] {
      InFlightSame(a[1..], b[1..], x);
    }
  }

  // ---------- Conservation ----------

  lemma EventSound(line: Line, e: LineEvent)
    requires LineSound(line)
    ensures LineSound(AfterEvent(line, e)) && AfterEvent(line, e).config == line.config
  {
    if e.Beaten? {
      SelectSplits(0, line.pending, e.beat, LostSend(0, Send(0, 0, 0, 0, 0, 0, 0, 0)));
      hide Completes, SumBytes, Select;
    }
  }

  /** What an event takes off a line is completed or lost. */
  lemma EventSplits(line: Line, e: LineEvent, id: U32, x: LostSend)
    ensures CountPending(id, line.pending, x) ==
            CountPending(id, AfterEvent(line, e).pending, x) + CountPending(id, Acked(line, e), x)
            + if Clears(e) then CountPending(id, line.pending, x) else 0
  {
    if e.Beaten? {
      SelectSplits(id, line.pending, e.beat, x);
      hide Completes, Select;
    }
  }

  lemma EventBalanced(w: World, id: U32, e: LineEvent, x: LostSend)
    requires BucketsValid(w.s) && Balanced(w, x)
    ensures Balanced(Step(w, Event(id, e)), x)
  {
    hide Lose, Count, CountPending, CountInFlight, Completes, Select;
    match Find(w.s.lines, id)
    case None =>
    case Some(i) =>
      var line := w.s.lines[i];
      EventSplits(line, e, id, x);
      InFlightUpdate(w.s.lines, i, AfterEvent(line, e), x);
      LoseCounts(id, line.pending, x);
      LoseCounts(id, Acked(line, e), x);
      CountAppend(w.s.lost, Lose(id, line.pending), x);
      CountAppend(w.acked, Lose(id, Acked(line, e)), x);
      hide Acked;
  }

  lemma AcquireBalanced(w: World, request: Send, x: LostSend)
    requires BucketsValid(w.s) && Balanced(w, x)
    ensures Balanced(Step(w, TryAcquire(request)), x)
  {
    match Chosen(w.s, request)
    case None =>
    case Some(i) =>
      var line := w.s.lines[i];
      var id := line.config.id;
      InFlightUpdate(w.s.lines, i, Charge(line, request), x);
      PendingAppend(id, line.pending, request, x);
      CountAppend(w.granted, [LostSend(id, request)], x);
      assert Count([LostSend(id, request)], x) == if LostSend(id, request) == x then 1 else 0;
      hide Count, CountPending, CountInFlight, Score, Eligible;
  }

  lemma StepBalanced(w: World, op: Op, x: LostSend)
    requires BucketsValid(w.s) && Balanced(w, x)
    ensures Balanced(Step(w, op), x)
  {
    match op
    case Refill(ticks) => InFlightSame(w.s.lines, RefillAll(w.s, ticks).lines, x);
    case TryAcquire(request) => AcquireBalanced(w, request, x);
    case Event(id, e) => EventBalanced(w, id, e, x);
    case TakeLost =>
      CountAppend(w.handed, w.s.lost, x);
  }

  lemma ChargeSound(line: Line, request: Send)
    requires LineSound(line) && Eligible(line, request)
    ensures LineSound(Charge(line, request))
  {
    SumAppend(line.pending, request);
  }

  lemma StepSound(w: World, op: Op)
    requires Sound(w.s)
    ensures BucketsValid(w.s) && Sound(Step(w, op).s)
  {
    match op
    case Refill(ticks) =>
    case TryAcquire(request) =>
      if Chosen(w.s, request).Some? {
        ChargeSound(w.s.lines[Chosen(w.s, request).value], request);
        hide LineSound, Charge, Score, Eligible;
      }
    case Event(id, e) =>
      if Find(w.s.lines, id).Some? {
        EventSound(w.s.lines[Find(w.s.lines, id).value], e);
        hide LineSound, AfterEvent;
      }
    case TakeLost =>
  }

  lemma StepConserves(w: World, op: Op)
    requires Sound(w.s) && Conserved(w)
    ensures BucketsValid(w.s) && Sound(Step(w, op).s) && Conserved(Step(w, op))
  {
    StepSound(w, op);
    hide Step, Balanced, Sound;
    forall x ensures Balanced(Step(w, op), x) {
      assert Balanced(w, x);
      StepBalanced(w, op, x);
    }
  }

  ghost function Run(w: World, ops: seq<Op>): (r: World)
    requires Sound(w.s) && Conserved(w)
    ensures Sound(r.s) && Conserved(r)
    decreases |ops|
  {
    if ops == [] then w else (StepConserves(w, ops[0]); Run(Step(w, ops[0]), ops[1..]))
  }

  function Begin(configs: seq<LineConfig>): World { World(Start(configs), [], [], [], 0) }

  lemma {:induction false} NothingPending(lines: seq<Line>, x: LostSend)
    requires forall line <- lines :: line.pending == []
    ensures CountInFlight(lines, x) == 0
  {
    if lines != [] {
      NothingPending(lines[1..], x);
    }
  }

  lemma BeginSound(configs: seq<LineConfig>)
    requires Acceptable(configs)
    ensures Sound(Begin(configs).s) && Conserved(Begin(configs))
  {
    forall x ensures Balanced(Begin(configs), x) {
      NothingPending(Start(configs).lines, x);
    }
    forall line <- Start(configs).lines ensures LineSound(line) {
      var i :| 0 <= i < |configs| && line == NewLine(configs[i]);
      assert configs[i] in configs;
    }
  }

  /** In every run the bytes in flight on a line are those of its pending sends, and no grant is lost or doubled. */
  lemma SchedulerConserves(configs: seq<LineConfig>, ops: seq<Op>)
    requires Acceptable(configs)
    ensures Sound(Begin(configs).s) && Conserved(Begin(configs))
    ensures var w := Run(Begin(configs), ops);
      && (forall line <- w.s.lines :: line.inflight == SumBytes(line.pending))
      && forall x :: Count(w.granted, x) ==
                     CountInFlight(w.s.lines, x) + Count(w.acked, x) + Count(w.s.lost, x) + Count(w.handed, x)
  {
    BeginSound(configs);
    var w := Run(Begin(configs), ops);
    forall line <- w.s.lines ensures line.inflight == SumBytes(line.pending) {
      assert LineSound(line);
    }
    forall x ensures Count(w.granted, x) ==
                     CountInFlight(w.s.lines, x) + Count(w.acked, x) + Count(w.s.lost, x) + Count(w.handed, x) {
      assert Balanced(w, x);
    }
  }

  // ---------- What a heartbeat releases ----------

  /** The sends of `part` stand in `whole` in the same order. */
  predicate InOrder(part: seq<Send>, whole: seq<Send>)
    decreases |whole|
  {
    part == [] || (whole != [] && if part[0] == whole[0] then InOrder(part[1..], whole[1..]) else InOrder(part, whole[1..]))
  }

  lemma {:induction false} SelectKeeps(sends: seq<Send>, beat: Beat, completed: bool)
    ensures forall x :: x in Select(sends, beat, completed) <==> x in sends && Completes(beat, x) == completed
    ensures InOrder(Select(sends, beat, completed), sends)
    ensures forall id, x :: CountPending(id, Select(sends, beat, completed), x) ==
                            if Completes(beat, x.send) == completed then CountPending(id, sends, x) else 0
  {
    hide Completes;
    if sends != [] {
      var rest := sends[1..];
      SelectKeeps(rest, beat, completed);
      SelectFirst(sends, beat, completed);
      assert sends == [sends[0]] + rest;
      var later := Select(rest, beat, completed);
      assert ([sends[0]] + later)[1..] == later;
      StaysInOrder(later, sends[0], rest);
    }
  }

  lemma StaysInOrder(part: seq<Send>, first: Send, rest: seq<Send>)
    requires InOrder(part, rest)
    ensures InOrder(part, [first] + rest)
    decreases |rest|, 1
  {
    assert ([first] + rest)[1..] == rest;
    if part != [] && part[0] == first {
      TailInOrder(part, rest);
    }
  }

  lemma {:induction false} TailInOrder(part: seq<Send>, whole: seq<Send>)
    requires InOrder(part, whole) && part != []
    ensures InOrder(part[1..], whole)
    decreases |whole|, 0
  {
    if part[0] == whole[0] {
      StaysInOrder(part[1..], whole[0], whole[1..]);
      assert whole == [whole[0]] + whole[1..];
    } else {
      TailInOrder(part, whole[1..]);
      StaysInOrder(part[1..], whole[0], whole[1..]);
      assert whole == [whole[0]] + whole[1..];
    }
  }

  /** A heartbeat on line `i`: which of its pending sends stay, told by their kind; they stay in order and as often as they
      were there; the bytes in flight are those that stay; no other line changes. */
  lemma HeartbeatReleases(s: Scheduler, i: nat, beat: Beat)
    requires i < |s.lines| && LineSound(s.lines[i])
    requires forall j :: 0 <= j < i ==> s.lines[j].config.id != s.lines[i].config.id
    ensures var t := OnEvent(s, s.lines[i].config.id, Beaten(beat));
      && |t.lines| == |s.lines| && t.lost == s.lost && (forall j :: 0 <= j < |s.lines| && j != i ==> t.lines[j] == s.lines[j])
      && var was, now := s.lines[i].pending, t.lines[i].pending;
         && (forall x <- now :: x in was)
         && (forall x <- was :: x in now <==>
               if x.kind == CHUNK_SEND then
                 x.streamId != beat.streamId || ReceivedChunk(x.seqNo, x.fileId, x.chunkIndex) !in beat.received
               else if x.kind == CREATE_SEND || x.kind == FILE_BEGIN_SEND || x.kind == FILE_COMMIT_SEND then
                 x.streamId != beat.streamId || x.fileId != beat.fileId || x.seqNo >= beat.nextSeq
               else if x.kind == DATA_SEND then
                 x.streamId != beat.streamId || x.fileId != beat.fileId
                 || (x.seqNo >= beat.nextSeq && beat.offset < x.endOffset && beat.durableOffset < x.endOffset)
               else x.streamId != beat.streamId || x.seqNo >= beat.nextSeq)
         && InOrder(now, was)
         && (forall id, x <- now :: CountPending(id, now, LostSend(id, x)) == CountPending(id, was, LostSend(id, x)))
         && t.lines[i].inflight == SumBytes(now) && t.lines[i].window == beat.window
  {
    var line := s.lines[i];
    FindFirst(s.lines, i);
    EventSound(line, Beaten(beat));
    SelectKeeps(line.pending, beat, false);
    forall x <- line.pending | x.kind == CHUNK_SEND
      ensures Completes(beat, x) <==> x.streamId == beat.streamId && ReceivedChunk(x.seqNo, x.fileId, x.chunkIndex) in beat.received
    {
      ChunkCompletes(beat, x);
    }
    hide Select, SumBytes, CountPending, InOrder;
  }

  lemma ChunkCompletes(beat: Beat, x: Send)
    requires x.kind == CHUNK_SEND
    ensures Completes(beat, x) <==> x.streamId == beat.streamId && ReceivedChunk(x.seqNo, x.fileId, x.chunkIndex) in beat.received
  {
    if Completes(beat, x) {
      var c :| c in beat.received && x.streamId == beat.streamId && x.fileId == c.fileId && x.seqNo == c.seqNo && x.chunkIndex == c.chunkIndex;
      assert c == ReceivedChunk(x.seqNo, x.fileId, x.chunkIndex);
    }
  }

  lemma {:induction false} FindFirst(lines: seq<Line>, i: nat)
    requires i < |lines| && forall j :: 0 <= j < i ==> lines[j].config.id != lines[i].config.id
    ensures Find(lines, lines[i].config.id) == Some(i)
  {
    if i > 0 {
      FindFirst(lines[1..], i - 1);
    }
  }

  // ---------- Grants ----------

  predicate GrantedAt(s: Scheduler, t: Scheduler, i: nat, request: Send) {
    && i < |s.lines| == |t.lines|
    && s.lines[i].connected && s.lines[i].negotiated && s.lines[i].healthy && !s.lines[i].stale
    && s.lines[i].inflight < t.lines[i].inflight <= t.lines[i].window == s.lines[i].window
    && t.lines[i].inflight - s.lines[i].inflight == request.bytes == s.lines[i].bucket.tokens - t.lines[i].bucket.tokens
    && t.lines[i].pending == s.lines[i].pending + [request]
    && t.lost == s.lost
    && forall j :: 0 <= j < |s.lines| && j != i ==> t.lines[j] == s.lines[j]
  }

  /** A grant goes to a usable line, takes exactly its bytes from that line's tokens and window, and touches no other
      line; a request is refused exactly when it is empty or no line can carry it. */
  lemma GrantStaysInWindow(s: Scheduler, request: Send)
    ensures Chosen(s, request).None? <==>
              request.bytes == 0 ||
              forall line <- s.lines :: !line.connected || !line.negotiated || !line.healthy || line.stale
                                        || line.inflight + request.bytes > line.window || request.bytes > line.bucket.tokens
    ensures Chosen(s, request).None? ==> Acquire(s, request) == s
    ensures Chosen(s, request).Some? ==> GrantedAt(s, Acquire(s, request), Chosen(s, request).value, request)
  {
    if request.bytes != 0 && Chosen(s, request).None? {
      forall line <- s.lines ensures !Eligible(line, request) {
        var j :| 0 <= j < |s.lines| && line == s.lines[j];
        assert !Eligible(s.lines[j], request);
      }
    }
    hide Score;
  }

  /** The sums in a score fit 64 bits. */
  predicate ScoreFits(line: Line, request: Send)
    requires Eligible(line, request)
  {
    && (line.window - line.inflight) + (line.bucket.tokens - request.bytes) + 1048576 < 0x1_0000_0000_0000_0000
    && 16777216 + line.inflight / 2 + line.missedTicks * 1024 < 0x1_0000_0000_0000_0000
  }

  /** Of two lines whose sums fit, one that is no worse in any respect scores no lower. */
  lemma ScorePrefers(a: Line, b: Line, request: Send)
    requires Eligible(a, request) && Eligible(b, request) && ScoreFits(a, request) && ScoreFits(b, request)
    requires a.window - a.inflight <= b.window - b.inflight && a.bucket.tokens <= b.bucket.tokens
    requires a.lastCompleted <= b.lastCompleted && a.failures >= b.failures && a.inflight >= b.inflight
    requires a.missedTicks >= b.missedTicks
    ensures Score(a, request) <= Score(b, request)
  {
    ScoreOverIntegers(a, request);
    ScoreOverIntegers(b, request);
    hide Score;
  }

  lemma ScoreOverIntegers(line: Line, request: Send)
    requires Eligible(line, request) && ScoreFits(line, request)
    ensures var raw := (line.window - line.inflight) + (line.bucket.tokens - request.bytes) + Min(line.lastCompleted, 1048576);
      var penalty := Min(line.failures, 16) * 1048576 + line.inflight / 2 + line.missedTicks * 1024;
      Score(line, request) == if raw > penalty then raw - penalty else 1
  {
    hide Wrap64, Min;
    Fits((line.window - line.inflight) + (line.bucket.tokens - request.bytes) + Min(line.lastCompleted, 1048576), line);
    Fits(line.missedTicks * 1024, line);
    Fits(Min(line.failures, 16) * 1048576 + line.inflight / 2 + line.missedTicks * 1024, line);
  }

  lemma Fits(n: int, line: Line)
    ensures 0 <= n < 0x1_0000_0000_0000_0000 ==> Wrap64(n) == n
    ensures 0 <= Min(line.lastCompleted, 1048576) <= 1048576 && 0 <= Min(line.failures, 16) <= 16
  {
  }

  // ---------- Rate ----------

  /** The bytes granted to a line. */
  function GrantedBytes(grants: seq<LostSend>, id: U32): nat {
    if grants == [] then 0
    else GrantedBytes(grants[..|grants| - 1], id) +
         (var g := grants[|grants| - 1]; if g.lineId == id then g.send.bytes else 0)
  }

  predicate DistinctIds(lines: seq<Line>) {
    forall i, j :: 0 <= i < j < |lines| ==> lines[i].config.id != lines[j].config.id
  }

  predicate SameConfigs(a: seq<Line>, b: seq<Line>) {
    |a| == |b| && forall i :: 0 <= i < |a| ==>
      a[i].config == b[i].config && a[i].bucket.rate == b[i].bucket.rate && a[i].bucket.capacity == b[i].bucket.capacity
  }

  lemma StepKeepsConfigs(w: World, op: Op)
    requires BucketsValid(w.s)
    ensures SameConfigs(w.s.lines, Step(w, op).s.lines)
  {
  }

  /** The line's tokens and grants after a step, against those before and the ticks that passed. */
  predicate WithinRate(w: World, next: World, i: nat)
    requires i < |w.s.lines|
  {
    var line := w.s.lines[i];
    && |next.s.lines| == |w.s.lines|
    && next.ticks >= w.ticks
    && next.s.lines[i].bucket.tokens + GrantedBytes(next.granted, line.config.id) <=
         line.bucket.tokens + GrantedBytes(w.granted, line.config.id) + (next.ticks - w.ticks) * line.bucket.rate
  }

  lemma AcquireRate(w: World, request: Send, i: nat)
    requires BucketsValid(w.s) && DistinctIds(w.s.lines) && i < |w.s.lines|
    ensures WithinRate(w, Step(w, TryAcquire(request)), i)
  {
    hide Score;
    if Chosen(w.s, request).Some? {
      assert Step(w, TryAcquire(request)).granted[..|w.granted|] == w.granted;
    }
  }

  lemma StepRate(w: World, op: Op, i: nat)
    requires BucketsValid(w.s) && DistinctIds(w.s.lines) && i < |w.s.lines|
    ensures WithinRate(w, Step(w, op), i)
  {
    hide Completes, GrantedBytes;
    match op
    case Refill(ticks) =>
      assert RefillAll(w.s, ticks).lines[i].bucket == w.s.lines[i].bucket.Refilled(ticks);
    case TryAcquire(request) => AcquireRate(w, request, i);
    case Event(id, e) =>
    case TakeLost =>
  }

  /** Between any two moments of a run, the bytes granted on a line are at most its tokens then plus the ticks' worth,
      so at most capacity + ticks * rate. */
  lemma {:induction false} RateIsBounded(w: World, ops: seq<Op>, i: nat)
    requires Sound(w.s) && Conserved(w) && DistinctIds(w.s.lines) && i < |w.s.lines|
    ensures |Run(w, ops).s.lines| == |w.s.lines| && Run(w, ops).ticks >= w.ticks
    ensures Run(w, ops).s.lines[i].bucket.tokens + GrantedBytes(Run(w, ops).granted, w.s.lines[i].config.id) <=
            w.s.lines[i].bucket.tokens + GrantedBytes(w.granted, w.s.lines[i].config.id)
            + (Run(w, ops).ticks - w.ticks) * w.s.lines[i].bucket.rate
    ensures GrantedBytes(Run(w, ops).granted, w.s.lines[i].config.id) - GrantedBytes(w.granted, w.s.lines[i].config.id) <=
            w.s.lines[i].bucket.capacity + (Run(w, ops).ticks - w.ticks) * w.s.lines[i].bucket.rate
    decreases |ops|
  {
    hide Balanced;
    assert LineSound(w.s.lines[i]);
    if ops != [] {
      StepConserves(w, ops[0]);
      StepRate(w, ops[0], i);
      StepKeepsConfigs(w, ops[0]);
      var next := Step(w, ops[0]);
      hide Step, Sound, Conserved, LineSound, GrantedBytes;
      RateIsBounded(next, ops[1..], i);
      var a, b, rate := next.ticks - w.ticks, Run(next, ops[1..]).ticks - next.ticks, w.s.lines[i].bucket.rate;
      assert (a + b) * rate == a * rate + b * rate;
    }
  }

  /** In every run of a configured scheduler each line, found by its id, has sent at most its bucket's capacity and the
      ticks' worth of its rate. */
  lemma ConfiguredRateIsBounded(configs: seq<LineConfig>, ops: seq<Op>, i: nat)
    requires Acceptable(configs) && i < |configs|
    ensures Sound(Begin(configs).s) && Conserved(Begin(configs))
    ensures var w := Run(Begin(configs), ops);
      GrantedBytes(w.granted, configs[i].id) <= configs[i].capacity + w.ticks * configs[i].rate
  {
    BeginSound(configs);
    var w := Begin(configs);
    assert w.s.lines[i] == NewLine(configs[i]);
    forall k, l | 0 <= k < l < |w.s.lines| ensures w.s.lines[k].config.id != w.s.lines[l].config.id {
      assert configs[k].id != configs[l].id;
    }
    hide Run, Sound, Conserved;
    RateIsBounded(w, ops, i);
    assert GrantedBytes(w.granted, configs[i].id) == 0;
  }
}
