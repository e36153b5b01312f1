/** Heartbeats held back and merged before they are sent: T_ReceiverNetwork::queue_heartbeat and its flushes,
    of src/network/yisync_network.cpp. */
module Heartbeats {
  import opened Wire
  import opened Messages

  /** A heartbeat before it is encoded; its lists have no 32-bit bound yet. */
  datatype Ack = Ack(streamId: U64, nextSeq: U64, fileId: U64, offset: U64, durableOffset: U64, window: U64,
                     received: seq<ReceivedChunk>, missing: seq<MissingRange>)

  /** A later heartbeat replaces everything but the received chunks, which add up. */
  function Merge(held: Ack, later: Ack): Ack { later.(received := held.received + later.received) }

  datatype Key = Key(lineId: U32, streamId: U64)

  type Pending = map<Key, Ack>

  /** What is held once a heartbeat has been merged in. */
  function Merging(pending: Pending, lineId: U32, ack: Ack): Pending {
    var key := Key(lineId, ack.streamId);
    pending[key := if key in pending then Merge(pending[key], ack) else ack]
  }

  /** The heartbeat just merged fills its batch. */
  predicate FullBatch(batchSize: U64, pending: Pending, lineId: U32, ack: Ack) {
    batchSize != 0 && |Merging(pending, lineId, ack)[Key(lineId, ack.streamId)].received| >= batchSize
  }

  function WithoutLine(pending: Pending, lineId: U32): Pending { map k <- pending | k.lineId != lineId :: pending[k] }

  /** `order` lists what the line holds, each once. */
  ghost predicate ListsLine(order: seq<Key>, pending: Pending, lineId: U32) {
    && (forall k :: k in order <==> k in pending && k.lineId == lineId)
    && (forall i, j :: 0 <= i < j < |order| ==> order[i] != order[j])
  }

  // ---------- What a flush sends ----------

  datatype Queueing = Queueing(lineId: U32, ack: Ack) {
    function For(): Key { Key(lineId, ack.streamId) }
  }

  /** What is held after heartbeats have been queued, none of which filled a batch. */
  function Holding(pending: Pending, queued: seq<Queueing>): Pending {
    if queued == [] then pending
    else Merging(Holding(pending, queued[..|queued| - 1]), queued[|queued| - 1].lineId, queued[|queued| - 1].ack)
  }

  /** The received chunks of the heartbeats for `key`, in the order in which they were queued. */
  function ChunksFor(queued: seq<Queueing>, key: Key): seq<ReceivedChunk> {
    if queued == [] then []
    else if queued[0].For() == key then queued[0].ack.received + ChunksFor(queued[1..], key)
    else ChunksFor(queued[1..], key)
  }

  predicate IsLast(queued: seq<Queueing>, key: Key, i: nat) {
    i < |queued| && queued[i].For() == key && forall j :: i < j < |queued| ==> queued[j].For() != key
  }

  lemma {:induction false} ChunksForLast(queued: seq<Queueing>, last: Queueing, key: Key)
    ensures ChunksFor(queued + [last], key) == ChunksFor(queued, key) + if last.For() == key then last.ack.received else []
    decreases |queued|
  {
    if queued == [] {
      assert [] + [last] == [last];
      assert [last][1..] == [];
    } else {
      assert (queued + [last])[1..] == queued[1..] + [last];
      ChunksForLast(queued[1..], last, key);
    }
  }

  /** Of the heartbeats queued for a line and stream, the next flush sends the received chunks of all of them, none lost and
      none twice, behind those that were held before, */
  lemma {:induction false} NothingQueuedIsLost(pending: Pending, queued: seq<Queueing>, key: Key)
    ensures key in Holding(pending, queued) <==> key in pending || exists i :: 0 <= i < |queued| && queued[i].For() == key
    ensures key in Holding(pending, queued) ==>
              Holding(pending, queued)[key].received ==
              (if key in pending then pending[key].received else []) + ChunksFor(queued, key)
    decreases |queued|
  {
    if queued != [] {
      var n := |queued| - 1;
      assert queued == queued[..n] + [queued[n]];
      NothingQueuedIsLost(pending, queued[..n], key);
      ChunksForLast(queued[..n], queued[n], key);
      if queued[n].For() == key {
        var held := if key in pending then pending[key].received else [];
        assert held + ChunksFor(queued[..n], key) + queued[n].ack.received == held + (ChunksFor(queued[..n], key) + queued[n].ack.received);
        assert key !in Holding(pending, queued[..n]) ==> held == ChunksFor(queued[..n], key) == [] by {
          NoneQueued(queued[..n], key);
        }
      }
    }
  }

  lemma {:induction false} NoneQueued(queued: seq<Queueing>, key: Key)
    ensures (forall i :: 0 <= i < |queued| ==> queued[i].For() != key) ==> ChunksFor(queued, key) == []
  {
    if queued != [] {
      NoneQueued(queued[1..], key);
    }
  }

  /** and everything else of the last one. */
  lemma {:induction false} LastOneCounts(pending: Pending, queued: seq<Queueing>, key: Key, i: nat)
    requires IsLast(queued, key, i)
    ensures key in Holding(pending, queued)
    ensures Holding(pending, queued)[key] == queued[i].ack.(received := Holding(pending, queued)[key].received)
    decreases |queued|
  {
    var n := |queued| - 1;
    if i < n {
      assert IsLast(queued[..n], key, i) && queued[n].For() != key;
      LastOneCounts(pending, queued[..n], key, i);
    }
  }

  class HeartbeatQueue {
    var batchSize: U64
    /** The dirty entries of pending_heartbeats_. */
    var pending: Pending
    /** What went to the lines. */
    var sent: seq<(U32, Ack)>

    constructor (batchSize: U64)
      ensures this.batchSize == batchSize && pending == map[] && sent == []
    {
      this.batchSize, pending, sent := batchSize, map[], [];
    }

    /** Sends what is pending for the given keys, one at a time, in the order of the list. */
    method FlushKeys(keys: seq<Key>)
      requires forall i, j :: 0 <= i < j < |keys| ==> keys[i] != keys[j]
      requires forall k <- keys :: k in pending
      modifies this`pending, this`sent
      ensures pending == map k <- old(pending) | k !in keys :: old(pending)[k]
      ensures sent == old(sent) + seq(|keys|, i requires 0 <= i < |keys| && keys[i] in old(pending) =>
                                                 (keys[i].lineId, old(pending)[keys[i]]))
    {
      for n := 0 to |keys|
        invariant pending == map k <- old(pending) | k !in keys[..n] :: old(pending)[k]
        invariant sent == old(sent) + seq(n, i requires 0 <= i < n && keys[i] in old(pending) =>
                                             (keys[i].lineId, old(pending)[keys[i]]))
      {
        var key := keys[n];
        assert key !in keys[..n] && keys[..n + 1] == keys[..n] + [key];
        sent := sent + [(key.lineId, pending[key])];
        pending := pending - {key};
      }
      assert keys[..|keys|] == keys;
    }

    /** Some enumeration of a set of keys. */
    static method Enumerate(keys: set<Key>) returns (order: seq<Key>)
      ensures forall k :: k in order <==> k in keys
      ensures forall i, j :: 0 <= i < j < |order| ==> order[i] != order[j]
    {
      order := [];
      var rest := keys;
      while rest != {}
        invariant rest <= keys && forall k :: k in order <==> k in keys && k !in rest
        invariant forall i, j :: 0 <= i < j < |order| ==> order[i] != order[j]
        decreases rest
      {
        var k :| k in rest;
        rest := rest - {k};
        order := order + [k];
      }
    }

    /** Everything pending for the line leaves, each heartbeat once; the rest stays. */
    method FlushHeartbeats(lineId: U32) returns (order: seq<Key>)
      modifies this`pending, this`sent
      ensures ListsLine(order, old(pending), lineId)
      ensures pending == WithoutLine(old(pending), lineId)
      ensures sent == old(sent) + seq(|order|, i requires 0 <= i < |order| && order[i] in old(pending) =>
                                                  (lineId, old(pending)[order[i]]))
    {
      order := Enumerate(set k <- pending | k.lineId == lineId);
      FlushKeys(order);
      forall i | 0 <= i < |order| ensures order[i].lineId == lineId {
        assert order[i] in order;
      }
    }

    method FlushAllHeartbeats() returns (order: seq<Key>)
      modifies this`pending, this`sent
      ensures forall k :: k in order <==> k in old(pending)
      ensures forall i, j :: 0 <= i < j < |order| ==> order[i] != order[j]
      ensures pending == map[]
      ensures sent == old(sent) + seq(|order|, i requires 0 <= i < |order| && order[i] in old(pending) =>
                                                  (order[i].lineId, old(pending)[order[i]]))
    {
      order := Enumerate(pending.Keys);
      FlushKeys(order);
    }

    /** The heartbeat is merged into what is held for its line and stream; a full batch sends all that the line then holds,
        each heartbeat once, in `order`. */
    method QueueHeartbeat(lineId: U32, heartbeat: Ack) returns (order: seq<Key>)
      modifies this`pending, this`sent
      ensures var held := Merging(old(pending), lineId, heartbeat);
        if FullBatch(batchSize, old(pending), lineId, heartbeat) then
          && ListsLine(order, held, lineId)
          && pending == WithoutLine(held, lineId)
          && sent == old(sent) + seq(|order|, i requires 0 <= i < |order| && order[i] in held => (lineId, held[order[i]]))
        else order == [] && pending == held && sent == old(sent)
    {
      var key := Key(lineId, heartbeat.streamId);
      var merged := heartbeat;
      if key in pending {
        merged := heartbeat.(received := pending[key].received + heartbeat.received);
      }
      pending := pending[key := merged];
      if batchSize == 0 || |merged.received| < batchSize {
        return [];
      }
      order := FlushHeartbeats(lineId);
    }
  }
}
