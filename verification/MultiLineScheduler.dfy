/** The scheduler as it runs: its loops over lines and pending sends, each proved against the specification. */
module MultiLineScheduler {
  import opened Wire
  import opened Messages
  import opened TokenBuckets
  import opened SchedulerSpec

  class T_MultiLineScheduler {
    var lines: seq<Line>
    var lostSends: seq<LostSend>

    function Value(): Scheduler reads this { Scheduler(lines, lostSends) }

    constructor NoLines()
      ensures lines == [] && lostSends == []
    {
      lines, lostSends := [], [];
    }

    /** The constructor's loop; null is its exception. */
    static method Configure(configs: seq<LineConfig>) returns (s: T_MultiLineScheduler?)
      ensures s != null <==> Acceptable(configs)
      ensures s != null ==> fresh(s) && s.Value() == Start(configs)
    {
      if configs == [] {
        return null;
      }
      var made := new T_MultiLineScheduler.NoLines();
      for i := 0 to |configs|
        invariant fresh(made) && made.lostSends == [] && |made.lines| == i
        invariant forall k :: 0 <= k < i ==> made.lines[k] == NewLine(configs[k])
        invariant forall k :: 0 <= k < i ==> configs[k].id != 0 && configs[k].tick > 0 && configs[k].rate > 0 && configs[k].capacity > 0
        invariant forall k, l :: 0 <= k < l < i ==> configs[k].id != configs[l].id
      {
        var c := configs[i];
        if c.id == 0 {
          return null;
        }
        var same := made.FindLine(c.id);
        if same.Some? {
          return null;
        }
        if c.tick <= 0 || c.capacity == 0 || c.rate == 0 {
          return null;
        }
        forall k | 0 <= k < i ensures configs[k].id != c.id {
          assert made.lines[k] in made.lines;
        }
        made.lines := made.lines + [Line(c, Bucket(c.rate, c.capacity, c.capacity), 0, c.initialWindow, 0, 0, 0,
                                         c.initiallyConnected, c.initiallyConnected, c.initiallyConnected, false, [])];
      }
      assert made.lines == Start(configs).lines;
      return made;
    }

    method RefillTicks(ticks: U64)
      requires BucketsValid(Value())
      modifies this
      ensures Value() == RefillAll(old(Value()), ticks)
    {
      ghost var before := lines;
      for i := 0 to |lines|
        invariant |lines| == |before| && lostSends == old(lostSends)
        invariant forall k :: 0 <= k < i ==> lines[k] == RefillLine(before[k], ticks)
        invariant forall k :: i <= k < |before| ==> lines[k] == before[k]
      {
        var line := lines[i];
        assert line in before;
        line := line.(bucket := line.bucket.Refilled(ticks));
        if line.connected && ticks != 0 {
          line := line.(missedTicks := if line.missedTicks > MAX - ticks then MAX else line.missedTicks + ticks);
          if line.pending != [] && line.config.timeoutTicks > 0 && line.missedTicks > line.config.timeoutTicks {
            line := line.(stale := true);
          }
        }
        lines := lines[i := line];
      }
      assert lines == RefillAll(old(Value()), ticks).lines;
    }

    /** The selection loop of try_acquire. */
    method ChooseLine(request: Send) returns (best: Option<nat>)
      ensures best == Best(lines, |lines|, request)
    {
      hide Score;
      best := None;
      var bestScore: U64 := 0;
      for i := 0 to |lines|
        invariant best == Best(lines, i, request)
        invariant best.Some? ==> bestScore == Score(lines[best.value], request)
      {
        var line := lines[i];
        if !line.connected || !line.negotiated || !line.healthy || line.stale {
          continue;
        }
        if line.window <= line.inflight || line.window - line.inflight < request.bytes || request.bytes > line.bucket.tokens {
          continue;
        }
        var score := Score(line, request);
        if best.None? || score > bestScore {
          best, bestScore := Some(i), score;
        }
      }
    }

    /** The line and the bytes granted, or nothing. */
    method TryAcquire(request: Send) returns (grant: Option<(U32, U64)>)
      modifies this
      ensures Value() == Acquire(old(Value()), request)
      ensures grant == match Chosen(old(Value()), request)
                       case None => None
                       case Some(i) => Some((old(lines)[i].config.id, request.bytes))
    {
      hide Score;
      if request.bytes == 0 {
        return None;
      }
      var best := ChooseLine(request);
      if best.None? {
        return None;
      }
      var line := lines[best.value];
      line := line.(bucket := line.bucket.(tokens := line.bucket.tokens - request.bytes));
      if line.pending == [] {
        line := line.(missedTicks := 0, stale := false);
      }
      line := line.(inflight := line.inflight + request.bytes, pending := line.pending + [request]);
      lines := lines[best.value := line];
      return Some((line.config.id, request.bytes));
    }

    method FindLine(id: U32) returns (r: Option<nat>)
      ensures r == Find(lines, id)
    {
      for i := 0 to |lines|
        invariant Find(lines, id) == match Find(lines[i..], id) case None => None case Some(k) => Some(i + k)
      {
        if lines[i].config.id == id {
          return Some(i);
        }
        assert lines[i..][1..] == lines[i + 1..];
      }
      return None;
    }

    /** The pending sends of line `i` become lost sends, in order. */
    method ClearInflight(i: nat)
      requires i < |lines|
      modifies this
      ensures lostSends == old(lostSends) + Lose(old(lines)[i].config.id, old(lines)[i].pending)
      ensures lines == old(lines)[i := old(lines)[i].(inflight := 0, lastCompleted := 0, pending := [])]
    {
      var line := lines[i];
      for k := 0 to |line.pending|
        invariant lines == old(lines)
        invariant lostSends + Lose(line.config.id, line.pending[k..]) == old(lostSends) + Lose(line.config.id, line.pending)
      {
        assert line.pending[k..] == [line.pending[k]] + line.pending[k + 1..];
        lostSends := lostSends + [LostSend(line.config.id, line.pending[k])];
      }
      lines := lines[i := line.(inflight := 0, lastCompleted := 0, pending := [])];
    }

    /** on_line_connected, on_line_disconnected, on_line_protocol_error, on_line_failure and on_nack;
        the result is false where the source throws for an unknown line. */
    method OnClearingEvent(id: U32, e: LineEvent) returns (known: bool)
      requires Clears(e)
      modifies this
      ensures Value() == OnEvent(old(Value()), id, e) && known == Find(old(lines), id).Some?
    {
      var found := FindLine(id);
      if found.None? {
        return false;
      }
      var i := found.value;
      var line := lines[i];
      match e {
        case Connected =>
          line := line.(connected := true, negotiated := false, healthy := false, stale := false, missedTicks := 0,
                        lastCompleted := 0, window := line.config.initialWindow);
        case Disconnected | ProtocolError =>
          line := line.(connected := false, negotiated := false, healthy := false, stale := true,
                        failures := Wrap64(line.failures + 1));
        case Failure | NackReceived =>
          line := line.(healthy := false, stale := true, failures := Wrap64(line.failures + 1));
      }
      lines := lines[i := line];
      ClearInflight(i);
      return true;
    }

    method OnLineNegotiated(id: U32, window: U64) returns (known: bool)
      modifies this
      ensures Value() == OnEvent(old(Value()), id, Negotiated(window)) && known == Find(old(lines), id).Some?
    {
      var found := FindLine(id);
      if found.None? {
        return false;
      }
      var line := lines[found.value];
      line := line.(connected := true, negotiated := true, healthy := true, stale := false, missedTicks := 0, failures := 0,
                    lastCompleted := 0, window := if window == 0 then line.config.initialWindow else window);
      lines := lines[found.value := line];
      return true;
    }

    /** chunk_completed and the tests around it. */
    static method IsCompleted(beat: Beat, send: Send) returns (completed: bool)
      ensures completed == Completes(beat, send)
    {
      if send.kind == CHUNK_SEND {
        for k := 0 to |beat.received|
          invariant forall c <- beat.received[..k] :: send.streamId != beat.streamId || send.fileId != c.fileId
                                                      || send.seqNo != c.seqNo || send.chunkIndex != c.chunkIndex
        {
          var chunk := beat.received[k];
          if send.streamId == beat.streamId && send.fileId == chunk.fileId && send.seqNo == chunk.seqNo
             && send.chunkIndex == chunk.chunkIndex {
            return true;
          }
        }
        assert beat.received[..|beat.received|] == beat.received;
        return false;
      }
      if send.kind == FILE_BEGIN_SEND || send.kind == FILE_COMMIT_SEND || send.kind == CREATE_SEND {
        return send.streamId == beat.streamId && send.fileId == beat.fileId && send.seqNo < beat.nextSeq;
      }
      if send.kind == DATA_SEND {
        return send.streamId == beat.streamId && send.fileId == beat.fileId
               && (send.seqNo < beat.nextSeq || beat.offset >= send.endOffset || beat.durableOffset >= send.endOffset);
      }
      return send.streamId == beat.streamId && send.seqNo < beat.nextSeq;
    }

    /** The removal loop: what stays, and the bytes of what goes. */
    static method RemoveCompleted(pending: seq<Send>, beat: Beat) returns (kept: seq<Send>, completedBytes: nat)
      ensures kept == Select(pending, beat, false)
      ensures completedBytes == SumBytes(Select(pending, beat, true))
    {
      hide Completes, Select, SumBytes;
      kept, completedBytes := [], 0;
      NothingSelected(beat);
      assert pending[0..] == pending;
      for k := 0 to |pending|
        invariant kept + Select(pending[k..], beat, false) == Select(pending, beat, false)
        invariant completedBytes + SumBytes(Select(pending[k..], beat, true)) == SumBytes(Select(pending, beat, true))
      {
        var send := pending[k];
        ghost var rest := pending[k + 1..];
        assert pending[k..][0] == send && pending[k..][1..] == rest;
        SelectFirst(pending[k..], beat, true);
        SelectFirst(pending[k..], beat, false);
        SumFirst(send, Select(rest, beat, true));
        assert kept + ([send] + Select(rest, beat, false)) == (kept + [send]) + Select(rest, beat, false);
        var completed := IsCompleted(beat, send);
        if completed {
          completedBytes := completedBytes + send.bytes;
        } else {
          kept := kept + [send];
        }
      }
      assert pending[|pending|..] == [];
    }

    static lemma NothingSelected(beat: Beat)
      ensures Select([], beat, true) == Select([], beat, false) == [] && SumBytes([]) == 0
    {
    }

    method OnHeartbeat(id: U32, beat: Beat) returns (known: bool)
      modifies this
      ensures Value() == OnEvent(old(Value()), id, Beaten(beat)) && known == Find(old(lines), id).Some?
    {
      var found := FindLine(id);
      if found.None? {
        return false;
      }
      var line := lines[found.value];
      var kept, completedBytes := RemoveCompleted(line.pending, beat);
      var bytes := Wrap64(completedBytes);
      line := line.(pending := kept, inflight := if bytes >= line.inflight then 0 else line.inflight - bytes,
                    window := beat.window, missedTicks := 0, failures := 0, lastCompleted := bytes,
                    connected := true, negotiated := true, healthy := true, stale := false);
      lines := lines[found.value := line];
      return true;
    }

    method TakeLostSends() returns (result: seq<LostSend>)
      modifies this
      ensures result == old(lostSends) && Value() == old(Value()).(lost := [])
    {
      result := lostSends;
      lostSends := [];
    }
  }
}
