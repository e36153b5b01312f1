/** The chunk resend state as it runs, and the receiver's missing_ranges that feeds it: the loops of
    src/sender/yisync_chunk_resend.cpp, src/sender/yisync_sender_app.cpp and src/receiver/yisync_receiver.cpp. */
module SenderChunks {
  import opened Wire
  import opened Messages
  import opened ChunkResendSpec

  class T_ChunkResendState {
    var count: nat
    var order: seq<nat>
    var acked: seq<bool>
    var sent: seq<bool>
    var line: seq<U32>
    var sendTick: seq<U64>
    var attempts: seq<U64>
    var priority: seq<bool>

    function Value(): Resend reads this { Resend(count, order, acked, sent, line, sendTick, attempts, priority) }

    predicate Valid() reads this { Value().Sized() }

    constructor ()
      ensures Valid() && count == 0
    {
      count, order, acked, sent, line, sendTick, attempts, priority := 0, [], [], [], [], [], [], [];
    }

    /** The valid requested indices, or the default order when their number is not the number of chunks. */
    static method BuildOrder(chunkCount: nat, requested: seq<nat>) returns (order: seq<nat>)
      ensures order == Order(requested, chunkCount)
    {
      order := [];
      for k := 0 to |requested|
        invariant order + Below(requested[k..], chunkCount) == Below(requested, chunkCount)
      {
        assert requested[k..] == [requested[k]] + requested[k + 1..];
        if requested[k] < chunkCount {
          order := order + [requested[k]];
        }
      }
      if |order| != chunkCount {
        hide Below;
        order := [];
        if chunkCount > 0 {
          order := [chunkCount - 1];
          for i := 0 to chunkCount - 1
            invariant |order| == i + 1
            invariant forall k :: 0 <= k <= i ==> order[k] == if k == 0 then chunkCount - 1 else k - 1
          {
            order := order + [i];
          }
        }
        assert order == DefaultOrder(chunkCount);
      }
    }

    method Initialize(chunkCount: nat, requested: seq<nat>)
      modifies this
      ensures Valid() && Value() == ChunkResendSpec.Initialize(chunkCount, requested)
    {
      count := chunkCount;
      order := BuildOrder(chunkCount, requested);
      Reset();
    }

    method Reset()
      modifies this
      ensures Valid() && Value() == Fresh(old(count), old(order))
    {
      acked, sent, priority := Repeat(count, false), Repeat(count, false), Repeat(count, false);
      line, sendTick, attempts := Repeat(count, 0), Repeat(count, 0), Repeat(count, 0);
    }

    method AllAcked() returns (all: bool)
      requires Valid()
      ensures all <==> forall i :: 0 <= i < count ==> acked[i]
    {
      for i := 0 to count
        invariant forall k :: 0 <= k < i ==> acked[k]
      {
        if !acked[i] {
          return false;
        }
      }
      return true;
    }

    method NextChunkToSend(now: U64, rto: U64) returns (r: Option<nat>)
      requires Valid()
      ensures r == NextChunk(Value(), now, rto)
    {
      var s := Value();
      hide CanSend;
      ghost var all := Indices(count);
      for i := 0 to count
        invariant FirstSendable(s, all, true, now, rto) == FirstSendable(s, all[i..], true, now, rto)
      {
        assert all[i..][0] == i && all[i..][1..] == all[i + 1..];
        if CanSend(s, i, true, now, rto) {
          return Some(i);
        }
      }
      assert order[0..] == order;
      for k := 0 to |order|
        invariant NextChunk(s, now, rto) == FirstSendable(s, order[k..], false, now, rto)
      {
        assert order[k..][1..] == order[k + 1..];
        if CanSend(s, order[k], false, now, rto) {
          return Some(order[k]);
        }
      }
      return None;
    }

    method MarkChunkSent(i: nat, lineId: U32, now: U64) returns (marked: bool, retransmit: bool, attempt: U64)
      requires Valid()
      modifies this
      ensures Valid() && Value() == MarkSent(old(Value()), i, lineId, now)
      ensures marked == (i < count)
      ensures marked ==> retransmit == (old(attempts)[i] > 0) && attempt == Bump(old(attempts)[i])
      ensures !marked ==> !retransmit && attempt == 0
    {
      if i >= count {
        return false, false, 0;
      }
      retransmit := attempts[i] > 0;
      sent, line, sendTick := sent[i := true], line[i := lineId], sendTick[i := now];
      attempts, priority := attempts[i := Bump(attempts[i])], priority[i := false];
      return true, retransmit, attempts[i];
    }

    method AcknowledgeChunk(i: nat) returns (ok: bool)
      requires Valid()
      modifies this
      ensures Valid() && Value() == Acknowledge(old(Value()), i) && ok == (i < count)
    {
      if i >= count {
        return false;
      }
      acked, sent, line, priority := acked[i := true], sent[i := true], line[i := 0], priority[i := false];
      return true;
    }

    method MarkChunkLost(i: nat) returns (ok: bool)
      requires Valid()
      modifies this
      ensures Valid() && Value() == MarkLost(old(Value()), i)
      ensures ok == (i < count && old(sent)[i] && !old(acked)[i])
    {
      if i >= count || !sent[i] || acked[i] {
        return false;
      }
      sent, line, priority := sent[i := false], line[i := 0], priority[i := true];
      return true;
    }

    /** Raises the priority of un-acknowledged chunks from `first` to `last`. */
    method RaisePriority(first: nat, last: nat) returns (changed: bool)
      requires Valid() && first <= last < count
      modifies this`priority
      ensures Valid()
      ensures forall i :: 0 <= i < count ==> priority[i] == (old(priority)[i] || (first <= i <= last && !acked[i]))
      ensures changed <==> exists i :: first <= i <= last && !acked[i]
    {
      changed := false;
      for chunk := first to last + 1
        invariant |priority| == count
        invariant forall i :: 0 <= i < count ==> priority[i] == (old(priority)[i] || (first <= i < chunk && !acked[i]))
        invariant changed <==> exists i :: first <= i < chunk && !acked[i]
      {
        if !acked[chunk] {
          priority := priority[chunk := true];
          changed := true;
        }
      }
    }

    /** The hints raise exactly the un-acknowledged chunks they reach; every range that raised one is reported, cut off
        at the last chunk. */
    method ApplyMissingHints(seqNo: U64, fileId: U64, ranges: seq<MissingRange>) returns (applied: seq<(nat, nat)>)
      requires Valid()
      modifies this`priority
      ensures Valid() && Value() == ApplyHints(old(Value()), seqNo, fileId, ranges)
      ensures forall p <- applied :: p.0 <= p.1 < count && exists i :: p.0 <= i <= p.1 && !acked[i]
      ensures forall i :: 0 <= i < count && !acked[i] && Hinted(ranges, seqNo, fileId, count, i) ==>
                exists p <- applied :: p.0 <= i <= p.1
    {
      applied := [];
      if count == 0 {
        return;
      }
      for k := 0 to |ranges|
        invariant Valid()
        invariant forall i :: 0 <= i < count ==>
                    priority[i] == (old(priority)[i] || (!acked[i] && Hinted(ranges[..k], seqNo, fileId, count, i)))
        invariant forall p <- applied :: p.0 <= p.1 < count && exists i :: p.0 <= i <= p.1 && !acked[i]
        invariant forall i :: 0 <= i < count && !acked[i] && Hinted(ranges[..k], seqNo, fileId, count, i) ==>
                    exists p <- applied :: p.0 <= i <= p.1
      {
        var range := ranges[k];
        forall i ensures Hinted(ranges[..k + 1], seqNo, fileId, count, i) ==
                         (Hinted(ranges[..k], seqNo, fileId, count, i) || Reaches(range, seqNo, fileId, count, i)) {
          assert ranges[..k + 1] == ranges[..k] + [range];
          HintedSnoc(ranges[..k], range, seqNo, fileId, count, i);
        }
        if range.seqNo != seqNo || range.fileId != fileId {
          continue;
        }
        var first := if range.first < count then range.first else count;
        var last := if range.last < count - 1 then range.last else count - 1;
        if first > last {
          continue;
        }
        var changed := RaisePriority(first, last);
        if changed {
          ghost var before := applied;
          applied := applied + [(first, last)];
          assert applied[|before|] == (first, last);
        }
      }
      assert ranges[..|ranges|] == ranges;
      assert priority == ApplyHints(old(Value()), seqNo, fileId, ranges).priority;
    }

    /** schedule_chunk_work's loop, with what the lines answer to each send. It ends because each send uses up a
        sendable chunk. */
    method SendChunks(now: U64, rto: U64, maxAttempts: U64, grant: nat -> Option<U32>) returns (log: seq<nat>, end: End)
      requires Valid()
      modifies this
      ensures Valid() && Loop(old(Value()), now, rto, maxAttempts, grant, 0) == Outcome(Value(), log, end)
    {
      hide NextChunk, Sendable, CanSend, MarkSent;
      ghost var all := Loop(Value(), now, rto, maxAttempts, grant, 0);
      log := [];
      assert [] + all.log == all.log;
      while true
        invariant Valid()
        invariant Continues(all, Loop(Value(), now, rto, maxAttempts, grant, |log|), log)
        decreases Sendable(Value(), count, now, rto)
      {
        var next := NextChunkToSend(now, rto);
        if next.None? {
          end := Exhausted;
          return;
        }
        var i := next.value;
        NextIsSendable(Value(), now, rto);
        if attempts[i] >= maxAttempts {
          end := OutOfAttempts(i);
          return;
        }
        var lineId := grant(|log|);
        if lineId.None? {
          end := Refused(i);
          return;
        }
        SendingUsesUp(Value(), i, lineId.value, now, rto, count);
        ghost var later := Loop(MarkSent(Value(), i, lineId.value, now), now, rto, maxAttempts, grant, |log| + 1).log;
        assert log + ([i] + later) == (log + [i]) + later;
        var _, _, _ := MarkChunkSent(i, lineId.value, now);
        log := log + [i];
      }
    }
  }

  /** `all` is what `rest` does after `log`. */
  ghost predicate Continues(all: Outcome, rest: Outcome, log: seq<nat>) {
    all == Outcome(rest.state, log + rest.log, rest.end)
  }

  lemma HintedSnoc(a: seq<MissingRange>, r: MissingRange, seqNo: U64, fileId: U64, n: nat, i: nat)
    ensures Hinted(a + [r], seqNo, fileId, n, i) == (Hinted(a, seqNo, fileId, n, i) || Reaches(r, seqNo, fileId, n, i))
  {
    if Hinted(a, seqNo, fileId, n, i) {
      var x :| x in a && Reaches(x, seqNo, fileId, n, i);
      assert x in a + [r];
    }
    assert r in a + [r];
  }
}
