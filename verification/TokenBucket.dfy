/** TokenBucket of src/network/yisync_scheduler.cpp. */
module TokenBuckets {
  import opened Wire

  const MAX: U64 := 0xFFFF_FFFF_FFFF_FFFF

  /** The bucket as the scheduler stores it; a bucket that the constructor accepts has positive rate and capacity. */
  datatype Bucket = Bucket(rate: U64, capacity: U64, tokens: U64) {
    predicate Valid() { rate > 0 && 0 < capacity && tokens <= capacity }

    /** What a refill means over the integers. */
    function Refilled(ticks: nat): (b: Bucket)
      requires Valid()
      ensures b.Valid() && b.rate == rate && b.capacity == capacity
    {
      this.(tokens := Min(capacity, tokens + ticks * rate))
    }
  }

  lemma ProductFits(ticks: nat, rate: nat)
    requires rate > 0
    ensures ticks > MAX / rate <==> ticks * rate > MAX
  {
    var q := MAX / rate;
    assert q * rate <= MAX < (q + 1) * rate;
    if ticks > q {
      assert ticks * rate >= (q + 1) * rate by { Grows(q + 1, ticks, rate); }
    } else {
      Grows(ticks, q, rate);
    }
  }

  lemma Grows(a: nat, b: nat, c: nat)
    requires a <= b
    ensures a * c <= b * c
  {
  }

  class TokenBucket {
    const rate: U64
    const capacity: U64
    var tokens: U64

    predicate Valid() reads this { Value().Valid() }

    function Value(): Bucket reads this { Bucket(rate, capacity, tokens) }

    constructor (rate: U64, capacity: U64)
      requires rate > 0 && capacity > 0
      ensures Valid() && Value() == Bucket(rate, capacity, capacity)
    {
      this.rate, this.capacity, tokens := rate, capacity, capacity;
    }

    /** The 64-bit arithmetic saturates where the integers would not fit, and the cap hides the difference. */
    method RefillTicks(ticks: U64)
      requires Valid()
      modifies this
      ensures Valid() && Value() == old(Value()).Refilled(ticks)
    {
      if ticks == 0 {
        return;
      }
      ProductFits(ticks, rate);
      var added: U64 := if ticks > MAX / rate then MAX else ticks * rate;
      var sum: U64 := if tokens > MAX - added then MAX else tokens + added;
      tokens := Min(capacity, sum);
    }

    method TryConsume(bytes: U64) returns (ok: bool)
      requires Valid()
      modifies this
      ensures Valid() && ok == (bytes <= old(tokens))
      ensures Value() == if ok then old(Value()).(tokens := old(tokens) - bytes) else old(Value())
    {
      ok := bytes <= tokens;
      if ok {
        tokens := tokens - bytes;
      }
    }
  }
}
