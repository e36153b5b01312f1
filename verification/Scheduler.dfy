/** T_MultiLineScheduler of src/network/yisync_scheduler.cpp: the specification of each operation on values.
    A line is found by its id; the constructor refuses two lines with one id. */
module SchedulerSpec {
  import opened Wire
  import opened Messages
  import opened TokenBuckets

  const CREATE_SEND: U8 := 1
  const DATA_SEND: U8 := 2
  const FILE_BEGIN_SEND: U8 := 3
  const CHUNK_SEND: U8 := 4
  const FILE_COMMIT_SEND: U8 := 5

  /** A granted send; also the request for one. */
  datatype Send = Send(kind: U8, streamId: U64, fileId: U64, seqNo: U64, offset: U64, endOffset: U64, chunkIndex: U64, bytes: U64)

  datatype LostSend = LostSend(lineId: U32, send: Send)

  /** `tick` is the length of a bucket tick, in the clock's units; `rate` and `capacity` are the bucket's. */
  datatype LineConfig = LineConfig(id: U32, tick: int, rate: U64, capacity: U64, initialWindow: U64, timeoutTicks: U64,
                                   initiallyConnected: bool)

  datatype Line = Line(
    config: LineConfig, bucket: Bucket, inflight: U64, window: U64, missedTicks: U64, failures: U64,
    lastCompleted: U64, connected: bool, negotiated: bool, healthy: bool, stale: bool, pending: seq<Send>)

  datatype Scheduler = Scheduler(lines: seq<Line>, lost: seq<LostSend>)

  function SumBytes(sends: seq<Send>): nat {
    if sends == [] then 0 else sends[0].bytes + SumBytes(sends[1..])
  }

  predicate Usable(line: Line) { line.connected && line.negotiated && line.healthy && !line.stale }

  // ---------- Starting ----------

  predicate Acceptable(configs: seq<LineConfig>) {
    && configs != []
    && (forall c <- configs :: c.id != 0 && c.tick > 0 && c.rate > 0 && c.capacity > 0)
    && forall i, j :: 0 <= i < j < |configs| ==> configs[i].id != configs[j].id
  }

  function NewLine(c: LineConfig): Line {
    Line(c, Bucket(c.rate, c.capacity, c.capacity), 0, c.initialWindow, 0, 0, 0,
         c.initiallyConnected, c.initiallyConnected, c.initiallyConnected, false, [])
  }

  function Start(configs: seq<LineConfig>): Scheduler {
    Scheduler(seq(|configs|, i requires 0 <= i < |configs| => NewLine(configs[i])), [])
  }

  // ---------- Granting a send ----------

  predicate Eligible(line: Line, request: Send) {
    && Usable(line)
    && line.window > line.inflight
    && line.window - line.inflight >= request.bytes
    && request.bytes <= line.bucket.tokens
  }

  function Score(line: Line, request: Send): U64
    requires Eligible(line, request)
  {
    var windowHeadroom := line.window - line.inflight;
    var tokenHeadroom := line.bucket.tokens - request.bytes;
    var failurePenalty := Min(line.failures, 16) * 1024 * 1024;
    var inflightPenalty := line.inflight / 2;
    var stalePenalty := Wrap64(line.missedTicks * 1024);
    var completedBonus := Min(line.lastCompleted, 1024 * 1024);
    var rawScore := Wrap64(windowHeadroom + tokenHeadroom + completedBonus);
    var penalty := Wrap64(failurePenalty + inflightPenalty + stalePenalty);
    if rawScore > penalty then rawScore - penalty else 1
  }

  /** Line `i` is the first of the best lines among those before `n`. */
  predicate IsBest(lines: seq<Line>, n: nat, request: Send, i: nat)
    requires n <= |lines|
  {
    && i < n && Eligible(lines[i], request)
    && (forall j :: 0 <= j < n && Eligible(lines[j], request) ==> Score(lines[j], request) <= Score(lines[i], request))
    && (forall j :: 0 <= j < i && Eligible(lines[j], request) ==> Score(lines[j], request) < Score(lines[i], request))
  }

  function Best(lines: seq<Line>, n: nat, request: Send): (best: Option<nat>)
    requires n <= |lines|
    ensures best.None? <==> forall j :: 0 <= j < n ==> !Eligible(lines[j], request)
    ensures best.Some? ==> IsBest(lines, n, request, best.value)
  {
    if n == 0 then None
    else
      var best := Best(lines, n - 1, request);
      if !Eligible(lines[n - 1], request) then best
      else if best.None? || Score(lines[n - 1], request) > Score(lines[best.value], request) then Some(n - 1)
      else best
  }

  function Charge(line: Line, request: Send): Line
    requires Eligible(line, request)
  {
    line.(bucket := line.bucket.(tokens := line.bucket.tokens - request.bytes),
          missedTicks := if line.pending == [] then 0 else line.missedTicks,
          stale := if line.pending == [] then false else line.stale,
          inflight := line.inflight + request.bytes,
          pending := line.pending + [request])
  }

  function Chosen(s: Scheduler, request: Send): Option<nat> {
    if request.bytes == 0 then None else Best(s.lines, |s.lines|, request)
  }

  function Acquire(s: Scheduler, request: Send): Scheduler {
    match Chosen(s, request)
    case None => s
    case Some(i) => s.(lines := s.lines[i := Charge(s.lines[i], request)])
  }

  // ---------- Time, line events, heartbeats ----------

  function RefillLine(line: Line, ticks: U64): Line
    requires line.bucket.Valid()
  {
    var refilled := line.(bucket := line.bucket.Refilled(ticks));
    if !line.connected || ticks == 0 then refilled
    else
      var missed := Min(MAX, line.missedTicks + ticks);
      refilled.(missedTicks := missed,
                stale := line.stale || (line.pending != [] && 0 < line.config.timeoutTicks < missed))
  }

  function Lose(id: U32, sends: seq<Send>): seq<LostSend> {
    if sends == [] then [] else [LostSend(id, sends[0])] + Lose(id, sends[1..])
  }

  datatype LineEvent = Connected | Negotiated(window: U64) | Disconnected | ProtocolError | Failure | NackReceived | Beaten(beat: Beat)

  /** Every event but a negotiation and a heartbeat gives up the line's pending sends. */
  predicate Clears(e: LineEvent) { !e.Negotiated? && !e.Beaten? }

  predicate Completes(beat: Beat, send: Send) {
    if send.kind == CHUNK_SEND then
      exists c <- beat.received :: send.streamId == beat.streamId && send.fileId == c.fileId
                                   && send.seqNo == c.seqNo && send.chunkIndex == c.chunkIndex
    else if send.kind in [FILE_BEGIN_SEND, FILE_COMMIT_SEND, CREATE_SEND] then
      send.streamId == beat.streamId && send.fileId == beat.fileId && send.seqNo < beat.nextSeq
    else if send.kind == DATA_SEND then
      && send.streamId == beat.streamId && send.fileId == beat.fileId
      && (send.seqNo < beat.nextSeq || beat.offset >= send.endOffset || beat.durableOffset >= send.endOffset)
    else
      send.streamId == beat.streamId && send.seqNo < beat.nextSeq
  }

  /** The sends that a heartbeat completes, or those it leaves, in order. */
  function Select(sends: seq<Send>, beat: Beat, completed: bool): seq<Send> {
    if sends == [] then []
    else (if Completes(beat, sends[0]) == completed then [sends[0]] else []) + Select(sends[1..], beat, completed)
  }

  /** The first of the selected sends, then the others. */
  lemma SelectFirst(sends: seq<Send>, beat: Beat, completed: bool)
    requires sends != []
    ensures var rest := Select(sends[1..], beat, completed);
      Select(sends, beat, completed) == if Completes(beat, sends[0]) == completed then [sends[0]] + rest else rest
  {
    hide Completes;
    assert [] + Select(sends[1..], beat, completed) == Select(sends[1..], beat, completed);
  }

  lemma SumFirst(send: Send, rest: seq<Send>)
    ensures SumBytes([send] + rest) == send.bytes + SumBytes(rest)
  {
    assert ([send] + rest)[1..] == rest;
  }

  function Acked(line: Line, e: LineEvent): seq<Send> {
    if e.Beaten? then Select(line.pending, e.beat, true) else []
  }

  function Sub(a: nat, b: nat): nat { if b >= a then 0 else a - b }

  function AfterEvent(line: Line, e: LineEvent): Line {
    match e
    case Connected =>
      line.(connected := true, negotiated := false, healthy := false, stale := false, missedTicks := 0,
            lastCompleted := 0, window := line.config.initialWindow, inflight := 0, pending := [])
    case Negotiated(window) =>
      line.(connected := true, negotiated := true, healthy := true, stale := false, missedTicks := 0, failures := 0,
            lastCompleted := 0, window := if window == 0 then line.config.initialWindow else window)
    case Disconnected | ProtocolError =>
      line.(connected := false, negotiated := false, healthy := false, stale := true, failures := Wrap64(line.failures + 1),
            inflight := 0, lastCompleted := 0, pending := [])
    case Failure | NackReceived =>
      line.(healthy := false, stale := true, failures := Wrap64(line.failures + 1),
            inflight := 0, lastCompleted := 0, pending := [])
    case Beaten(beat) =>
      var bytes := Wrap64(SumBytes(Acked(line, e)));
      line.(pending := Select(line.pending, beat, false), inflight := Sub(line.inflight, bytes), window := beat.window,
            missedTicks := 0, failures := 0, lastCompleted := bytes,
            connected := true, negotiated := true, healthy := true, stale := false)
  }

  /** The position of a line; None is the exception for an unknown id. */
  function Find(lines: seq<Line>, id: U32): (r: Option<nat>)
    ensures r.Some? ==> r.value < |lines| && lines[r.value].config.id == id
    ensures r.None? ==> forall line <- lines :: line.config.id != id
  {
    if lines == [] then None
    else if lines[0].config.id == id then Some(0)
    else match Find(lines[1..], id) case None => None case Some(i) => Some(i + 1)
  }

  function OnEvent(s: Scheduler, id: U32, e: LineEvent): Scheduler {
    match Find(s.lines, id)
    case None => s
    case Some(i) =>
      Scheduler(s.lines[i := AfterEvent(s.lines[i], e)],
                if Clears(e) then s.lost + Lose(id, s.lines[i].pending) else s.lost)
  }

  predicate BucketsValid(s: Scheduler) { forall line <- s.lines :: line.bucket.Valid() }

  function RefillAll(s: Scheduler, ticks: U64): (r: Scheduler)
    requires BucketsValid(s)
  {
    s.(lines := seq(|s.lines|, i requires 0 <= i < |s.lines| => RefillLine(s.lines[i], ticks)))
  }
}
