/** Which chunk to send next, and what acknowledgements, losses and missing-range hints change:
    src/sender/yisync_chunk_resend.cpp, on values. */
module ChunkResendSpec {
  import opened Wire
  import opened Messages

  /** T_ChunkResendState; `Sized` says that its vectors have one entry per chunk. */
  datatype Resend = Resend(count: nat, order: seq<nat>, acked: seq<bool>, sent: seq<bool>, line: seq<U32>,
                           sendTick: seq<U64>, attempts: seq<U64>, priority: seq<bool>) {
    predicate Sized() {
      && |acked| == count && |sent| == count && |line| == count
      && |sendTick| == count && |attempts| == count && |priority| == count
    }
  }

  function Repeat<T>(n: nat, x: T): (s: seq<T>)
    ensures |s| == n && forall i :: 0 <= i < n ==> s[i] == x
  {
    seq(n, _ => x)
  }

  // ---------- Starting ----------

  function Below(requested: seq<nat>, n: nat): seq<nat> {
    if requested == [] then []
    else (if requested[0] < n then [requested[0]] else []) + Below(requested[1..], n)
  }

  /** The last chunk first, then the others from the front. */
  function DefaultOrder(n: nat): (order: seq<nat>)
    ensures |order| == n
    ensures forall i :: 0 <= i < n ==> order[i] == if i == 0 then n - 1 else i - 1
  {
    if n == 0 then [] else [n - 1] + seq(n - 1, i => i)
  }

  function Order(requested: seq<nat>, n: nat): seq<nat> {
    if |Below(requested, n)| == n then Below(requested, n) else DefaultOrder(n)
  }

  function Fresh(n: nat, order: seq<nat>): (r: Resend)
    ensures r.Sized()
  {
    Resend(n, order, Repeat(n, false), Repeat(n, false), Repeat(n, 0), Repeat(n, 0), Repeat(n, 0), Repeat(n, false))
  }

  function Initialize(n: nat, requested: seq<nat>): Resend { Fresh(n, Order(requested, n)) }

  // ---------- Choosing a chunk ----------

  predicate CanSend(s: Resend, i: nat, priorityOnly: bool, now: U64, rto: U64)
    requires s.Sized()
  {
    && i < s.count && !s.acked[i]
    && (priorityOnly ==> s.priority[i])
    && (s.sent[i] ==> s.priority[i] && now >= s.sendTick[i] && now - s.sendTick[i] >= rto)
  }

  /** Some list position holds a sendable chunk, and it is the first one. */
  function FirstSendable(s: Resend, order: seq<nat>, priorityOnly: bool, now: U64, rto: U64): (r: Option<nat>)
    requires s.Sized()
    ensures r.None? ==> forall i <- order :: !CanSend(s, i, priorityOnly, now, rto)
    ensures r.Some? ==> exists k :: 0 <= k < |order| && order[k] == r.value && CanSend(s, order[k], priorityOnly, now, rto)
                                    && forall j :: 0 <= j < k ==> !CanSend(s, order[j], priorityOnly, now, rto)
  {
    if order == [] then None
    else if CanSend(s, order[0], priorityOnly, now, rto) then Some(order[0])
    else
      var r := FirstSendable(s, order[1..], priorityOnly, now, rto);
      assert r.Some? ==> forall j :: 0 < j < |order| ==> order[j] == order[1..][j - 1];
      r
  }

  function Indices(n: nat): (s: seq<nat>)
    ensures |s| == n && forall i :: 0 <= i < n ==> s[i] == i
  {
    seq(n, i => i)
  }

  function NextChunk(s: Resend, now: U64, rto: U64): Option<nat>
    requires s.Sized()
  {
    match FirstSendable(s, Indices(s.count), true, now, rto)
    case Some(i) => Some(i)
    case None => FirstSendable(s, s.order, false, now, rto)
  }

  // ---------- Changes ----------

  /** A 64-bit counter goes up by one. */
  function Bump(n: U64): U64 { var k: int := n; Wrap64(k + 1) }

  function MarkSent(s: Resend, i: nat, lineId: U32, now: U64): (r: Resend)
    requires s.Sized()
    ensures r.Sized() && r.count == s.count && r.order == s.order
  {
    if i >= s.count then s
    else s.(sent := s.sent[i := true], line := s.line[i := lineId], sendTick := s.sendTick[i := now],
            attempts := s.attempts[i := Bump(s.attempts[i])], priority := s.priority[i := false])
  }

  function Acknowledge(s: Resend, i: nat): (r: Resend)
    requires s.Sized()
    ensures r.Sized() && r.count == s.count && r.order == s.order
  {
    if i >= s.count then s
    else s.(acked := s.acked[i := true], sent := s.sent[i := true], line := s.line[i := 0], priority := s.priority[i := false])
  }

  function MarkLost(s: Resend, i: nat): (r: Resend)
    requires s.Sized()
    ensures r.Sized() && r.count == s.count && r.order == s.order
  {
    if i >= s.count || !s.sent[i] || s.acked[i] then s
    else s.(sent := s.sent[i := false], line := s.line[i := 0], priority := s.priority[i := true])
  }

  /** A hint reaches the chunks from `first` to `last`, cut off at the last chunk. */
  predicate Reaches(r: MissingRange, seqNo: U64, fileId: U64, n: nat, i: nat) {
    r.seqNo == seqNo && r.fileId == fileId && i < n && r.first <= i <= r.last
  }

  predicate Hinted(ranges: seq<MissingRange>, seqNo: U64, fileId: U64, n: nat, i: nat) {
    exists r <- ranges :: Reaches(r, seqNo, fileId, n, i)
  }

  function ApplyHints(s: Resend, seqNo: U64, fileId: U64, ranges: seq<MissingRange>): (r: Resend)
    requires s.Sized()
    ensures r.Sized()
  {
    s.(priority := seq(s.count, i requires 0 <= i < s.count =>
                     s.priority[i] || (!s.acked[i] && Hinted(ranges, seqNo, fileId, s.count, i))))
  }

  // ---------- Properties ----------

  /** An acknowledged chunk is sent and has no priority. */
  predicate Settled(s: Resend) {
    s.Sized() && forall i :: 0 <= i < s.count && s.acked[i] ==> s.sent[i] && !s.priority[i]
  }

  datatype Op =
    | Initialized(n: nat, requested: seq<nat>) | Reset
    | Sent(i: nat, lineId: U32, now: U64) | Acked(i: nat) | Lost(i: nat)
    | Hints(seqNo: U64, fileId: U64, ranges: seq<MissingRange>)

  function Apply(s: Resend, op: Op): (r: Resend)
    requires s.Sized()
    ensures r.Sized()
  {
    match op
    case Initialized(n, requested) => Initialize(n, requested)
    case Reset => Fresh(s.count, s.order)
    case Sent(i, lineId, now) => MarkSent(s, i, lineId, now)
    case Acked(i) => Acknowledge(s, i)
    case Lost(i) => MarkLost(s, i)
    case Hints(seqNo, fileId, ranges) => ApplyHints(s, seqNo, fileId, ranges)
  }

  function Run(s: Resend, ops: seq<Op>): (r: Resend)
    requires s.Sized()
    ensures r.Sized()
    decreases |ops|
  {
    if ops == [] then s else Run(Apply(s, ops[0]), ops[1..])
  }

  lemma {:induction false} StaysSettled(s: Resend, ops: seq<Op>)
    requires Settled(s)
    ensures Settled(Run(s, ops))
    decreases |ops|
  {
    if ops != [] {
      StaysSettled(Apply(s, ops[0]), ops[1..]);
    }
  }

  /** An acknowledgement is never taken back while the same file is sent. */
  lemma {:induction false} AcksStay(s: Resend, ops: seq<Op>, i: nat)
    requires s.Sized() && i < s.count && s.acked[i]
    requires forall op <- ops :: !op.Initialized? && !op.Reset?
    ensures Run(s, ops).count == s.count && |Run(s, ops).acked| == s.count && Run(s, ops).acked[i]
    decreases |ops|
  {
    if ops != [] {
      assert ops[0] in ops;
      AcksStay(Apply(s, ops[0]), ops[1..], i);
    }
  }

  /** Nothing is left to send exactly when every un-acknowledged chunk of the order is sent, and none with
      priority is unsent or past its timeout. */
  lemma ExhaustedMeans(s: Resend, now: U64, rto: U64)
    requires s.Sized()
    ensures NextChunk(s, now, rto).None? <==>
              (forall i :: 0 <= i < s.count && !s.acked[i] ==>
                 && (i in s.order ==> s.sent[i])
                 && (s.priority[i] ==> s.sent[i] && (now < s.sendTick[i] || now - s.sendTick[i] < rto)))
  {
    forall i | 0 <= i < s.count ensures i in Indices(s.count) {
      assert Indices(s.count)[i] == i;
    }
    if NextChunk(s, now, rto).None? {
      forall i | 0 <= i < s.count && !s.acked[i]
        ensures (i in s.order ==> s.sent[i])
        ensures s.priority[i] ==> s.sent[i] && (now < s.sendTick[i] || now - s.sendTick[i] < rto)
      {
        assert !CanSend(s, i, true, now, rto);
        assert i in s.order ==> !CanSend(s, i, false, now, rto);
      }
    }
  }

  /** A chunk with priority that was never sent or is past its timeout. */
  predicate Urgent(s: Resend, i: nat, now: U64, rto: U64)
    requires s.Sized()
  {
    i < s.count && !s.acked[i] && s.priority[i] && (!s.sent[i] || (now >= s.sendTick[i] && now - s.sendTick[i] >= rto))
  }

  /** The lowest urgent chunk goes first, wherever the order has it; without one, the first of the order that was neither
      acknowledged nor sent. */
  lemma UrgentGoesFirst(s: Resend, now: U64, rto: U64)
    requires s.Sized() && NextChunk(s, now, rto).Some?
    ensures var i := NextChunk(s, now, rto).value;
      if exists k: nat :: Urgent(s, k, now, rto) then Urgent(s, i, now, rto) && forall k :: 0 <= k < i ==> !Urgent(s, k, now, rto)
      else exists k :: 0 <= k < |s.order| && s.order[k] == i < s.count && !s.acked[i] && !s.sent[i]
                       && forall j :: 0 <= j < k ==> s.order[j] >= s.count || s.acked[s.order[j]] || s.sent[s.order[j]]
  {
    if k: nat :| Urgent(s, k, now, rto) {
      assert CanSend(s, k, true, now, rto) && Indices(s.count)[k] == k;
      assert k in Indices(s.count);
      var all := Indices(s.count);
      var r := FirstSendable(s, all, true, now, rto);
      var p :| 0 <= p < |all| && all[p] == r.value && CanSend(s, all[p], true, now, rto)
               && forall j :: 0 <= j < p ==> !CanSend(s, all[j], true, now, rto);
      forall j | 0 <= j < p ensures !Urgent(s, j, now, rto) {
        assert !CanSend(s, all[j], true, now, rto);
      }
    } else {
      assert FirstSendable(s, Indices(s.count), true, now, rto) == None by {
        assert forall k: nat :: CanSend(s, k, true, now, rto) ==> Urgent(s, k, now, rto);
      }
      var r := FirstSendable(s, s.order, false, now, rto);
      var k :| 0 <= k < |s.order| && s.order[k] == r.value && CanSend(s, s.order[k], false, now, rto)
               && forall j :: 0 <= j < k ==> !CanSend(s, s.order[j], false, now, rto);
      assert !Urgent(s, r.value, now, rto);
      forall j | 0 <= j < k ensures s.order[j] >= s.count || s.acked[s.order[j]] || s.sent[s.order[j]] {
        assert !CanSend(s, s.order[j], false, now, rto);
      }
    }
  }

  predicate Covers(order: seq<nat>, n: nat) { forall i :: 0 <= i < n ==> i in order }

  predicate Distinct(order: seq<nat>) { forall i, j :: 0 <= i < j < |order| ==> order[i] != order[j] }

  function Members(order: seq<nat>): set<nat> { set i | i in order }

  /** One more in front. */
  lemma DistinctOneMore(order: seq<nat>)
    requires order != []
    ensures Distinct(order) <==> order[0] !in order[1..] && Distinct(order[1..])
  {
    var rest := order[1..];
    assert forall k :: 0 <= k < |rest| ==> rest[k] == order[k + 1];
    if order[0] in rest {
      var k :| 0 <= k < |rest| && rest[k] == order[0];
      assert order[0] == order[k + 1];
    }
  }

  lemma {:induction false} MembersCount(order: seq<nat>)
    ensures |Members(order)| <= |order|
    ensures |Members(order)| == |order| <==> Distinct(order)
  {
    if order != [] {
      hide Distinct;
      var head, rest := order[0], order[1..];
      assert order == [head] + rest;
      MembersCount(rest);
      DistinctOneMore(order);
      assert Members(order) == if head in rest then Members(rest) else Members(rest) + {head};
    }
  }

  function Numbers(n: nat): (s: set<nat>)
    ensures |s| == n && forall i: nat :: i in s <==> i < n
  {
    if n == 0 then {} else Numbers(n - 1) + {n - 1}
  }

  lemma SubsetOfSameSize(a: set<nat>, b: set<nat>)
    requires a <= b && |a| == |b|
    ensures a == b
  {
    assert |b - a| == |b| - |a|;
    assert b == a + (b - a);
  }

  /** `n` numbers below `n` are all of them exactly when none repeats. */
  lemma CoversMeansDistinct(order: seq<nat>, n: nat)
    requires |order| == n && forall i <- order :: i < n
    ensures Covers(order, n) <==> Distinct(order)
  {
    var all := Numbers(n);
    MembersCount(order);
    if Distinct(order) {
      SubsetOfSameSize(Members(order), all);
      forall i | 0 <= i < n ensures i in order { assert i in all; }
    }
    if Covers(order, n) {
      assert Members(order) == all;
    }
  }

  lemma {:induction false} BelowIsBelow(requested: seq<nat>, n: nat)
    ensures forall i <- Below(requested, n) :: i < n
  {
    if requested != [] {
      BelowIsBelow(requested[1..], n);
    }
  }

  /** The request is not taken, or names no valid chunk twice. */
  predicate GoodRequest(requested: seq<nat>, n: nat) { |Below(requested, n)| != n || Distinct(Below(requested, n)) }

  /** Exactly then the order covers every chunk. */
  lemma OrderCovers(requested: seq<nat>, n: nat)
    ensures Covers(Order(requested, n), n) <==> GoodRequest(requested, n)
  {
    if |Below(requested, n)| == n {
      BelowIsBelow(requested, n);
      CoversMeansDistinct(Below(requested, n), n);
    } else {
      forall i | 0 <= i < n ensures i in DefaultOrder(n) {
        assert DefaultOrder(n)[if i == n - 1 then 0 else i + 1] == i;
      }
    }
  }

  // ---------- Every chunk gets sent ----------

  predicate AllSent(s: Resend) { s.Sized() && forall i :: 0 <= i < s.count && !s.acked[i] ==> s.sent[i] }

  predicate KeepsRequest(ops: seq<Op>) { forall op <- ops :: !op.Initialized? }

  /** In no run of a file does the sender find nothing to send while a chunk has not been sent. */
  ghost predicate NeverStalls(n: nat, requested: seq<nat>) {
    forall ops, now: U64, rto: U64 | KeepsRequest(ops) && NextChunk(Run(Initialize(n, requested), ops), now, rto).None? ::
      AllSent(Run(Initialize(n, requested), ops))
  }

  lemma {:induction false} OrderStays(s: Resend, ops: seq<Op>)
    requires s.Sized() && KeepsRequest(ops)
    ensures Run(s, ops).order == s.order && Run(s, ops).count == s.count
    decreases |ops|
  {
    if ops != [] {
      assert ops[0] in ops;
      OrderStays(Apply(s, ops[0]), ops[1..]);
    }
  }

  /** Each entry of the order is sent once. */
  function SendOps(order: seq<nat>): seq<Op> {
    if order == [] then [] else [Sent(order[0], 1, 0)] + SendOps(order[1..])
  }

  predicate Untouched(s: Resend) { s.Sized() && forall i :: 0 <= i < s.count ==> !s.acked[i] && !s.priority[i] }

  lemma {:induction false} SendsLeaveOthers(s: Resend, order: seq<nat>, skipped: nat)
    requires Untouched(s) && skipped < s.count && !s.sent[skipped] && skipped !in order
    ensures KeepsRequest(SendOps(order))
    ensures var r := Run(s, SendOps(order));
      && Untouched(r) && r.count == s.count && r.order == s.order && !r.sent[skipped]
      && forall i :: 0 <= i < s.count && (s.sent[i] || i in order) ==> r.sent[i]
    decreases |order|
  {
    if order != [] {
      assert order == [order[0]] + order[1..];
      var ops := SendOps(order);
      assert ops[0] == Sent(order[0], 1, 0) && ops[1..] == SendOps(order[1..]);
      SendsLeaveOthers(Apply(s, ops[0]), order[1..], skipped);
    }
  }

  /** A chunk that the order leaves out is left out for ever. */
  lemma SkippedForever(requested: seq<nat>, n: nat, skipped: nat, now: U64, rto: U64)
    requires skipped < n && skipped !in Order(requested, n)
    ensures var ops := SendOps(Order(requested, n)); var s := Run(Initialize(n, requested), ops);
      KeepsRequest(ops) && NextChunk(s, now, rto).None? && s.count == n && !s.acked[skipped] && !s.sent[skipped]
  {
    var s := Initialize(n, requested);
    SendsLeaveOthers(s, s.order, skipped);
    ExhaustedMeans(Run(s, SendOps(s.order)), now, rto);
  }

  /** Whatever is sent, acknowledged, lost or hinted, nothing is left to send only when every un-acknowledged chunk has
      been sent: exactly for the requests without a repeated index. */
  lemma NeverStallsIf(n: nat, requested: seq<nat>)
    ensures NeverStalls(n, requested) <==> GoodRequest(requested, n)
  {
    OrderCovers(requested, n);
    hide GoodRequest;
    var s := Initialize(n, requested);
    if GoodRequest(requested, n) {
      forall ops, now: U64, rto: U64 | KeepsRequest(ops) && NextChunk(Run(s, ops), now, rto).None?
        ensures AllSent(Run(s, ops))
      {
        OrderStays(s, ops);
        ExhaustedMeans(Run(s, ops), now, rto);
      }
    } else {
      var skipped :| 0 <= skipped < n && skipped !in Order(requested, n);
      SkippedForever(requested, n, skipped, 0, 0);
    }
  }

  /** A request that names chunk 0 twice leaves chunk 1 unsent at every tick behind the send of chunk 0, although nothing is
      acknowledged. */
  lemma RepeatedRequestSkipsAChunk(sentAt: U64, now: U64, rto: U64)
    ensures !GoodRequest([0, 0], 2)
    ensures var s := MarkSent(Initialize(2, [0, 0]), 0, 1, sentAt);
      NextChunk(s, now, rto).None? && !s.sent[1] && !s.acked[1]
  {
    assert Below([0, 0], 2) == [0, 0] by {
      assert [0, 0][1..] == [0] && [0][1..] == [];
      assert Below([0], 2) == [0];
    }
    var s := MarkSent(Initialize(2, [0, 0]), 0, 1, sentAt);
    ExhaustedMeans(s, now, rto);
  }

  // ---------- The send loop ----------

  /** How many chunks could be sent now. */
  function Sendable(s: Resend, n: nat, now: U64, rto: U64): nat
    requires s.Sized() && n <= s.count
  {
    if n == 0 then 0
    else Sendable(s, n - 1, now, rto) + if CanSend(s, n - 1, false, now, rto) then 1 else 0
  }

  /** Sending a sendable chunk makes it unsendable and leaves the others as they are. */
  lemma {:induction false} SendingUsesUp(s: Resend, i: nat, lineId: U32, now: U64, rto: U64, n: nat)
    requires s.Sized() && n <= s.count && CanSend(s, i, false, now, rto)
    ensures Sendable(MarkSent(s, i, lineId, now), n, now, rto) == Sendable(s, n, now, rto) - if i < n then 1 else 0
  {
    if n > 0 {
      SendingUsesUp(s, i, lineId, now, rto, n - 1);
    }
  }

  lemma NextIsSendable(s: Resend, now: U64, rto: U64)
    requires s.Sized() && NextChunk(s, now, rto).Some?
    ensures CanSend(s, NextChunk(s, now, rto).value, false, now, rto)
  {
  }

  /** Why the loop ended: nothing left, a chunk out of attempts, or a send that no line would take. */
  datatype End = Exhausted | OutOfAttempts(chunk: nat) | Refused(chunk: nat)

  datatype Outcome = Outcome(state: Resend, log: seq<nat>, end: End)

  /** schedule_chunk_work's loop; `grant(k)` is the line that takes the k-th send, None when it is refused. */
  function Loop(s: Resend, now: U64, rto: U64, maxAttempts: U64, grant: nat -> Option<U32>, k: nat): Outcome
    requires s.Sized()
    decreases Sendable(s, s.count, now, rto)
  {
    match NextChunk(s, now, rto)
    case None => Outcome(s, [], Exhausted)
    case Some(i) =>
      if s.attempts[i] >= maxAttempts then Outcome(s, [], OutOfAttempts(i))
      else
        match grant(k)
        case None => Outcome(s, [], Refused(i))
        case Some(lineId) =>
          NextIsSendable(s, now, rto);
          SendingUsesUp(s, i, lineId, now, rto, s.count);
          var later := Loop(MarkSent(s, i, lineId, now), now, rto, maxAttempts, grant, k + 1);
          later.(log := [i] + later.log)
  }

  /** What one pass does: it sends each chunk at most once, only chunks that were sendable, in as many steps as there are
      fewer such chunks afterwards; it acknowledges nothing and keeps every chunk it does not send. */
  predicate IsPass(s: Resend, r: Outcome, now: U64, rto: U64) {
    && s.Sized() && r.state.Sized() && r.state.count == s.count && r.state.order == s.order && r.state.acked == s.acked
    && |r.log| + Sendable(r.state, s.count, now, rto) == Sendable(s, s.count, now, rto)
    && (forall i <- r.log :: CanSend(s, i, false, now, rto) && !CanSend(r.state, i, false, now, rto))
    && Distinct(r.log)
    && (forall i :: 0 <= i < s.count && i !in r.log ==>
          r.state.sent[i] == s.sent[i] && r.state.priority[i] == s.priority[i] && r.state.attempts[i] == s.attempts[i])
  }

  lemma PassStep(s: Resend, i: nat, lineId: U32, later: Outcome, now: U64, rto: U64)
    requires s.Sized() && CanSend(s, i, false, now, rto) && IsPass(MarkSent(s, i, lineId, now), later, now, rto)
    ensures IsPass(s, later.(log := [i] + later.log), now, rto)
  {
    SendingUsesUp(s, i, lineId, now, rto, s.count);
    hide Sendable;
    var next, log := MarkSent(s, i, lineId, now), [i] + later.log;
    assert forall j :: 0 < j < |log| ==> log[j] == later.log[j - 1] && log[j] in later.log;
    assert !CanSend(next, i, false, now, rto);
    assert i !in later.log;
  }

  lemma {:induction false} LoopSends(s: Resend, now: U64, rto: U64, maxAttempts: U64, grant: nat -> Option<U32>, k: nat)
    requires s.Sized()
    ensures IsPass(s, Loop(s, now, rto, maxAttempts, grant, k), now, rto)
    decreases Sendable(s, s.count, now, rto)
  {
    match NextChunk(s, now, rto)
    case None =>
    case Some(i) =>
      if s.attempts[i] < maxAttempts && grant(k).Some? {
        hide IsPass, Sendable, NextChunk, CanSend, MarkSent;
        var next := MarkSent(s, i, grant(k).value, now);
        NextIsSendable(s, now, rto);
        SendingUsesUp(s, i, grant(k).value, now, rto, s.count);
        LoopSends(next, now, rto, maxAttempts, grant, k + 1);
        PassStep(s, i, grant(k).value, Loop(next, now, rto, maxAttempts, grant, k + 1), now, rto);
      }
  }

  /** Exactly the first `m` chunks of the order have been sent, nothing is acknowledged and nothing has priority. */
  predicate SentPrefix(s: Resend, m: nat) {
    && s.Sized() && m <= |s.order|
    && (forall j :: 0 <= j < |s.order| ==> s.order[j] < s.count && s.sent[s.order[j]] == (j < m))
    && (forall i :: 0 <= i < s.count ==> !s.acked[i] && !s.priority[i] && (!s.sent[i] ==> s.attempts[i] == 0))
  }

  lemma NextInOrder(s: Resend, m: nat, now: U64, rto: U64)
    requires SentPrefix(s, m)
    ensures NextChunk(s, now, rto) == if m < |s.order| then Some(s.order[m]) else None
  {
    assert FirstSendable(s, Indices(s.count), true, now, rto) == None;
    var r := FirstSendable(s, s.order, false, now, rto);
    if m < |s.order| {
      assert CanSend(s, s.order[m], false, now, rto);
    }
    if r.Some? {
      var k :| 0 <= k < |s.order| && s.order[k] == r.value && CanSend(s, s.order[k], false, now, rto)
               && forall j :: 0 <= j < k ==> !CanSend(s, s.order[j], false, now, rto);
    }
  }

  lemma SendNextInOrder(s: Resend, m: nat, lineId: U32, now: U64)
    requires SentPrefix(s, m) && Distinct(s.order) && m < |s.order|
    ensures SentPrefix(MarkSent(s, s.order[m], lineId, now), m + 1)
  {
  }

  /** When every send goes out, a pass over a fresh state sends the order, each chunk once. */
  lemma {:induction false} PassSendsTheOrder(s: Resend, m: nat, now: U64, rto: U64, maxAttempts: U64, grant: nat -> Option<U32>, k: nat)
    requires SentPrefix(s, m) && Distinct(s.order) && maxAttempts > 0 && forall j :: grant(j).Some?
    ensures Loop(s, now, rto, maxAttempts, grant, k).log == s.order[m..]
    ensures Loop(s, now, rto, maxAttempts, grant, k).end.Exhausted?
    decreases |s.order| - m
  {
    hide NextChunk, Sendable, CanSend, MarkSent;
    NextInOrder(s, m, now, rto);
    if m < |s.order| {
      var next := MarkSent(s, s.order[m], grant(k).value, now);
      SendNextInOrder(s, m, grant(k).value, now);
      PassSendsTheOrder(next, m + 1, now, rto, maxAttempts, grant, k + 1);
      assert s.order[m..] == [s.order[m]] + s.order[m + 1..];
    }
  }

  /** Without a requested order the first pass sends n-1, 0, 1, ..., n-2. */
  lemma FreshPass(n: nat, now: U64, rto: U64, maxAttempts: U64, grant: nat -> Option<U32>)
    requires maxAttempts > 0 && forall j :: grant(j).Some?
    ensures var r := Loop(Initialize(n, []), now, rto, maxAttempts, grant, 0);
      && r.end.Exhausted? && |r.log| == n
      && forall j :: 0 <= j < n ==> r.log[j] == if j == 0 then n - 1 else j - 1
  {
    var s := Initialize(n, []);
    assert Order([], n) == DefaultOrder(n);
    PassSendsTheOrder(s, 0, now, rto, maxAttempts, grant, 0);
    assert s.order[0..] == s.order;
  }
}
