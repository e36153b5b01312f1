/** missing_ranges of src/receiver/yisync_receiver.cpp, and what the sender makes of its result. */
module MissingRanges {
  import opened Wire
  import opened Messages
  import opened ChunkResendSpec

  /** `top` is the highest received chunk. */
  predicate IsTop(received: seq<bool>, top: nat) {
    top < |received| && received[top] && forall i :: top < i < |received| ==> !received[i]
  }

  /** From `first` to `last` is a maximal run of chunks not received, below `top`. */
  predicate IsGap(received: seq<bool>, top: nat, first: nat, last: nat) {
    && first <= last < top < |received|
    && (forall i :: first <= i <= last ==> !received[i])
    && (first > 0 ==> received[first - 1])
    && received[last + 1]
  }

  predicate Within(ranges: seq<MissingRange>, i: nat) { exists r <- ranges :: r.first <= i <= r.last }

  /** `ranges` lists, in order, the first `max` gaps below `top`. */
  predicate ListsGaps(received: seq<bool>, top: nat, max: nat, ranges: seq<MissingRange>)
    requires top < |received|
  {
    && |ranges| <= max
    && (forall r <- ranges :: IsGap(received, top, r.first, r.last))
    && (forall k, l :: 0 <= k < l < |ranges| ==> ranges[k].last < ranges[l].first)
    && (forall i :: 0 <= i < top && !received[i] && (|ranges| == max > 0 ==> i <= ranges[max - 1].last) ==>
          max == 0 || Within(ranges, i))
  }

  method MissingRangesOf(seqNo: U64, fileId: U64, received: seq<bool>, max: nat) returns (ranges: seq<MissingRange>)
    requires |received| < 0x1_0000_0000_0000_0000
    ensures forall r <- ranges :: r.seqNo == seqNo && r.fileId == fileId
    ensures (forall i :: 0 <= i < |received| ==> !received[i]) ==> ranges == []
    ensures forall top :: IsTop(received, top) ==> ListsGaps(received, top, max, ranges)
  {
    ranges := [];
    if max == 0 {
      return;
    }
    var highest, hasReceived := 0, false;
    for index := 0 to |received|
      invariant hasReceived ==> highest < index && received[highest]
      invariant forall i :: (if hasReceived then highest else -1) < i < index ==> !received[i]
    {
      if received[index] {
        highest, hasReceived := index, true;
      }
    }
    if !hasReceived {
      return;
    }
    var index := 0;
    while index < highest && |ranges| < max
      invariant 0 <= index <= highest
      invariant |ranges| <= max && forall r <- ranges :: r.seqNo == seqNo && r.fileId == fileId && r.last < index
      invariant forall r <- ranges :: IsGap(received, highest, r.first, r.last)
      invariant forall k, l :: 0 <= k < l < |ranges| ==> ranges[k].last < ranges[l].first
      invariant forall i :: 0 <= i < index && !received[i] ==> Within(ranges, i)
      invariant index > 0 && index < highest && !received[index] ==> received[index - 1]
    {
      if received[index] {
        index := index + 1;
        continue;
      }
      var first := index;
      while index < highest && !received[index]
        invariant first <= index <= highest
        invariant forall i :: first <= i < index ==> !received[i]
      {
        index := index + 1;
      }
      ghost var before := ranges;
      ranges := ranges + [MissingRange(seqNo, fileId, first, index - 1)];
      forall i | 0 <= i < index && !received[i] ensures Within(ranges, i) {
        assert Within(before, i) || first <= i;
        assert ranges[|before|] in ranges && forall r <- before :: r in ranges;
      }
    }
  }

  /** Fed back to a sender of the same file, the list raises exactly the un-acknowledged chunks inside its gaps; when it
      was not cut off, these are the un-acknowledged chunks not received below the highest received one. */
  lemma HintsRaiseTheGaps(s: Resend, seqNo: U64, fileId: U64, received: seq<bool>, top: nat, max: nat, ranges: seq<MissingRange>, i: nat)
    requires s.Sized() && |received| == s.count && IsTop(received, top) && ListsGaps(received, top, max, ranges)
    requires forall r <- ranges :: r.seqNo == seqNo && r.fileId == fileId
    requires i < s.count
    ensures ApplyHints(s, seqNo, fileId, ranges).priority[i] == (s.priority[i] || (!s.acked[i] && Within(ranges, i)))
    ensures |ranges| < max ==>
              ApplyHints(s, seqNo, fileId, ranges).priority[i] == (s.priority[i] || (!s.acked[i] && i < top && !received[i]))
  {
    if Within(ranges, i) {
      var r :| r in ranges && r.first <= i <= r.last;
      assert Reaches(r, seqNo, fileId, s.count, i);
    }
  }
}
