/** Little-endian primitives of the message codec: the byte writer and reader of
    src/core/yisync_protocol.cpp, and the functions they are proved against. */
module Wire {

  type Byte = n: int | 0 <= n < 0x100
  type U8 = n: int | 0 <= n < 0x100
  type U16 = n: int | 0 <= n < 0x1_0000
  type U32 = n: int | 0 <= n < 0x1_0000_0000
  type U64 = n: int | 0 <= n < 0x1_0000_0000_0000_0000

  type Bytes = seq<Byte>

  /** Unsigned 64-bit and 32-bit arithmetic wraps. */
  function Wrap64(n: int): U64 { n % 0x1_0000_0000_0000_0000 }
  function Wrap32(n: int): U32 { n % 0x1_0000_0000 }

  function Min(a: int, b: int): int { if a <= b then a else b }
  function Max(a: int, b: int): int { if a >= b then a else b }

  /** A byte string or vector whose length fits the 32-bit length field. */
  type Blob = s: Bytes | |s| < 0x1_0000_0000

  type Few<T> = s: seq<T> | |s| < 0x1_0000_0000

  /** A value, or none; inside a method `:-` gives up on none, as an exception does. */
  datatype Option<+T> = None | Some(value: T) {
    predicate IsFailure() { None? }
    function PropagateFailure<U>(): Option<U> requires None? { None }
    function Extract(): T requires Some? { value }
  }

  /** What reading leaves: nothing (the source throws), or a value and the unread bytes. */
  datatype Parsed<+T> = Fail | Got(value: T, rest: Bytes) {
    predicate IsFailure() { Fail? }
    function PropagateFailure<U>(): Parsed<U> requires Fail? { Fail }
    function Extract(): Parsed<T> requires Got? { this }
  }

  // ---------- Numbers ----------

  /** The low `k` bytes of `v`, least significant first. */
  function LE(k: nat, v: nat): (s: Bytes)
    ensures |s| == k
  {
    if k == 0 then [] else [v % 0x100] + LE(k - 1, v / 0x100)
  }

  function Val(s: Bytes): nat {
    if s == [] then 0 else s[0] + 0x100 * Val(s[1..])
  }

  function Cap(k: nat): nat {
    if k == 0 then 1 else 0x100 * Cap(k - 1)
  }

  lemma {:induction false} ValOfLE(k: nat, v: nat)
    requires v < Cap(k)
    ensures Val(LE(k, v)) == v
  {
    if k > 0 {
      ValOfLE(k - 1, v / 0x100);
      assert LE(k, v)[1..] == LE(k - 1, v / 0x100);
    }
  }

  lemma {:induction false} LEOfVal(s: Bytes)
    ensures Val(s) < Cap(|s|)
    ensures LE(|s|, Val(s)) == s
  {
    if s != [] {
      LEOfVal(s[1..]);
      assert s == [s[0]] + s[1..];
    }
  }

  lemma Caps()
    ensures Cap(1) == 0x100 && Cap(2) == 0x1_0000
    ensures Cap(4) == 0x1_0000_0000 && Cap(8) == 0x1_0000_0000_0000_0000
  {
    assert Cap(2) == 0x100 * Cap(1) && Cap(4) == 0x100 * Cap(3) && Cap(3) == 0x100 * Cap(2);
    assert Cap(5) == 0x100 * Cap(4) && Cap(6) == 0x100 * Cap(5) && Cap(7) == 0x100 * Cap(6);
  }

  // ---------- Writing ----------

  function Le8(v: U8): Bytes { LE(1, v) }
  function Le16(v: U16): Bytes { LE(2, v) }
  function Le32(v: U32): Bytes { LE(4, v) }
  function Le64(v: U64): Bytes { LE(8, v) }
  function Counted(b: Blob): Bytes { LE(4, |b|) + b }

  /** Parts made of several fields are written in front of a tail `t`. */
  function PutU8(v: U8, t: Bytes): Bytes { Le8(v) + t }

  function PutMany<T>(put: (T, Bytes) -> Bytes, xs: seq<T>, t: Bytes): Bytes {
    if xs == [] then t else put(xs[0], PutMany(put, xs[1..], t))
  }

  function PutList<T>(put: (T, Bytes) -> Bytes, xs: Few<T>, t: Bytes): Bytes {
    Le32(|xs|) + PutMany(put, xs, t)
  }

  // ---------- Reading from the front ----------

  function TakeNum(k: nat, s: Bytes): (r: Parsed<nat>)
    ensures r.Got? ==> r.value < Cap(k)
  {
    if |s| < k then Fail else (LEOfVal(s[..k]); Got(Val(s[..k]), s[k..]))
  }

  function TakeU8(s: Bytes): Parsed<U8> {
    Caps(); var v :- TakeNum(1, s); Got(v.value, v.rest)
  }

  function TakeU16(s: Bytes): Parsed<U16> {
    Caps(); var v :- TakeNum(2, s); Got(v.value, v.rest)
  }

  function TakeU32(s: Bytes): Parsed<U32> {
    Caps(); var v :- TakeNum(4, s); Got(v.value, v.rest)
  }

  function TakeU64(s: Bytes): Parsed<U64> {
    Caps(); var v :- TakeNum(8, s); Got(v.value, v.rest)
  }

  function TakeBlob(s: Bytes): Parsed<Blob> {
    var n :- TakeU32(s);
    if |n.rest| < n.value then Fail else Got(n.rest[..n.value], n.rest[n.value..])
  }

  function TakeMany<T>(take: Bytes -> Parsed<T>, n: nat, s: Bytes): (r: Parsed<seq<T>>)
    ensures r.Got? ==> |r.value| == n
  {
    if n == 0 then Got([], s)
    else
      var x :- take(s);
      var xs :- TakeMany(take, n - 1, x.rest);
      Got([x.value] + xs.value, xs.rest)
  }

  function TakeList<T>(take: Bytes -> Parsed<T>, s: Bytes): Parsed<Few<T>> {
    var n :- TakeU32(s);
    var xs :- TakeMany(take, n.value, n.rest);
    Got(xs.value, xs.rest)
  }

  // ---------- Reading and writing undo each other ----------

  /** `take` reads back what `put` wrote. */
  ghost predicate Reads<T(!new)>(put: (T, Bytes) -> Bytes, take: Bytes -> Parsed<T>) {
    forall x, t :: take(put(x, t)) == Got(x, t)
  }

  /** `take` accepts only what `put` writes. */
  ghost predicate Exact<T(!new)>(put: (T, Bytes) -> Bytes, take: Bytes -> Parsed<T>) {
    forall s :: take(s).Got? ==> put(take(s).value, take(s).rest) == s
  }

  lemma NumInverse(k: nat, v: nat, s: Bytes)
    ensures v < Cap(k) ==> TakeNum(k, LE(k, v) + s) == Got(v, s)
    ensures TakeNum(k, s).Got? ==> LE(k, TakeNum(k, s).value) + TakeNum(k, s).rest == s
  {
    if v < Cap(k) {
      ValOfLE(k, v);
      assert (LE(k, v) + s)[..k] == LE(k, v) && (LE(k, v) + s)[k..] == s;
    }
    if |s| >= k {
      LEOfVal(s[..k]);
    }
  }

  lemma NumbersRead()
    ensures forall v: U8, t :: TakeU8(Le8(v) + t) == Got(v, t)
    ensures forall v: U16, t :: TakeU16(Le16(v) + t) == Got(v, t)
    ensures forall v: U32, t :: TakeU32(Le32(v) + t) == Got(v, t)
    ensures forall v: U64, t :: TakeU64(Le64(v) + t) == Got(v, t)
  {
    Caps();
    forall v: U8, t ensures TakeU8(Le8(v) + t) == Got(v, t) { NumInverse(1, v, t); }
    forall v: U16, t ensures TakeU16(Le16(v) + t) == Got(v, t) { NumInverse(2, v, t); }
    forall v: U32, t ensures TakeU32(Le32(v) + t) == Got(v, t) { NumInverse(4, v, t); }
    forall v: U64, t ensures TakeU64(Le64(v) + t) == Got(v, t) { NumInverse(8, v, t); }
  }

  lemma NumbersExact()
    ensures forall s :: TakeU8(s).Got? ==> Le8(TakeU8(s).value) + TakeU8(s).rest == s
    ensures forall s :: TakeU16(s).Got? ==> Le16(TakeU16(s).value) + TakeU16(s).rest == s
    ensures forall s :: TakeU32(s).Got? ==> Le32(TakeU32(s).value) + TakeU32(s).rest == s
    ensures forall s :: TakeU64(s).Got? ==> Le64(TakeU64(s).value) + TakeU64(s).rest == s
  {
    Caps();
    forall s | TakeU8(s).Got? ensures Le8(TakeU8(s).value) + TakeU8(s).rest == s { NumInverse(1, 0, s); }
    forall s | TakeU16(s).Got? ensures Le16(TakeU16(s).value) + TakeU16(s).rest == s { NumInverse(2, 0, s); }
    forall s | TakeU32(s).Got? ensures Le32(TakeU32(s).value) + TakeU32(s).rest == s { NumInverse(4, 0, s); }
    forall s | TakeU64(s).Got? ensures Le64(TakeU64(s).value) + TakeU64(s).rest == s { NumInverse(8, 0, s); }
  }

  lemma BlobReads(b: Blob, t: Bytes)
    ensures TakeBlob(Counted(b) + t) == Got(b, t)
  {
    NumbersRead();
    assert Counted(b) + t == Le32(|b|) + (b + t);
    assert (b + t)[..|b|] == b && (b + t)[|b|..] == t;
  }

  lemma BlobExact(s: Bytes)
    requires TakeBlob(s).Got?
    ensures Counted(TakeBlob(s).value) + TakeBlob(s).rest == s
  {
    NumbersExact();
    var n := TakeU32(s);
    assert s == Le32(n.value) + n.rest;
  }

  lemma {:induction false} ManyBack<T(!new)>(put: (T, Bytes) -> Bytes, take: Bytes -> Parsed<T>, xs: seq<T>, t: Bytes)
    requires Reads(put, take)
    ensures TakeMany(take, |xs|, PutMany(put, xs, t)) == Got(xs, t)
  {
    if xs != [] {
      ManyBack(put, take, xs[1..], t);
      assert xs == [xs[0]] + xs[1..];
    }
  }

  lemma {:induction false} ManyForth<T(!new)>(put: (T, Bytes) -> Bytes, take: Bytes -> Parsed<T>, n: nat, s: Bytes)
    requires Exact(put, take)
    requires TakeMany(take, n, s).Got?
    ensures PutMany(put, TakeMany(take, n, s).value, TakeMany(take, n, s).rest) == s
  {
    if n > 0 {
      ManyForth(put, take, n - 1, take(s).rest);
      assert TakeMany(take, n, s).value[1..] == TakeMany(take, n - 1, take(s).rest).value;
    }
  }

  lemma ListReads<T(!new)>(put: (T, Bytes) -> Bytes, take: Bytes -> Parsed<T>)
    requires Reads(put, take)
    ensures forall xs: Few<T>, t :: TakeList(take, PutList(put, xs, t)) == Got(xs, t)
  {
    NumbersRead();
    forall xs: Few<T>, t ensures TakeList(take, PutList(put, xs, t)) == Got(xs, t) {
      ManyBack(put, take, xs, t);
    }
  }

  lemma ListExact<T(!new)>(put: (T, Bytes) -> Bytes, take: Bytes -> Parsed<T>)
    requires Exact(put, take)
    ensures forall s :: TakeList(take, s).Got? ==> PutList(put, TakeList(take, s).value, TakeList(take, s).rest) == s
  {
    NumbersExact();
    forall s | TakeList(take, s).Got? ensures PutList(put, TakeList(take, s).value, TakeList(take, s).rest) == s {
      ManyForth(put, take, TakeU32(s).value, TakeU32(s).rest);
    }
  }

  // ---------- The writer and the reader ----------

  /** Appends to `out`, one byte at a time. */
  class Writer {
    var out: Bytes

    constructor ()
      ensures out == []
    {
      out := [];
    }

    /** `u8`, `u16`, `u32` and `u64` with `k` = 1, 2, 4 and 8: the byte at each shift, low end first. */
    method Number(k: nat, v: nat)
      modifies this
      ensures out == old(out) + LE(k, v)
    {
      var shifted := v;
      for i := 0 to k
        invariant old(out) + LE(k, v) == out + LE(k - i, shifted)
      {
        out := out + [shifted % 0x100];
        shifted := shifted / 0x100;
      }
    }

    method U8(v: U8)
      modifies this
      ensures out == old(out) + Le8(v)
    {
      Number(1, v);
    }

    method U16(v: U16)
      modifies this
      ensures out == old(out) + Le16(v)
    {
      Number(2, v);
    }

    method U32(v: U32)
      modifies this
      ensures out == old(out) + Le32(v)
    {
      Number(4, v);
    }

    method U64(v: U64)
      modifies this
      ensures out == old(out) + Le64(v)
    {
      Number(8, v);
    }

    method String(s: Blob)
      modifies this
      ensures out == old(out) + Counted(s)
    {
      Number(4, |s|);
      label Counted:
      for i := 0 to |s|
        invariant out == old@Counted(out) + s[..i]
      {
        out := out + [s[i]];
      }
    }
  }

  /** What a reader that has gathered `value` will have when `left`, the first byte counting `unit`, is read too. */
  function Weighted(value: int, unit: int, left: Bytes): int { value + unit * Val(left) }

  lemma TakeOne(value: int, unit: int, left: Bytes)
    requires left != []
    ensures Weighted(value, unit, left) == Weighted(value + left[0] * unit, unit * 0x100, left[1..])
  {
    Spread(unit, left[0], Val(left[1..]));
  }

  lemma AllTaken(value: int, unit: int, left: Bytes)
    requires left == []
    ensures Weighted(value, unit, left) == value
  {
  }

  /** Advances `pos` through `input`; a read past the end fails and leaves `pos` where it is. */
  class Reader {
    const input: Bytes
    var pos: nat

    predicate Valid() reads this { pos <= |input| }

    function Rest(): Bytes reads this requires Valid() { input[pos..] }

    constructor (input: Bytes)
      ensures Valid() && this.input == input && Rest() == input
    {
      this.input := input;
      pos := 0;
    }

    /** The shift loop: each byte counts 256 times as much as the one before. */
    method Gather(k: nat) returns (value: nat)
      requires Valid() && pos + k <= |input|
      modifies this`pos
      ensures Valid() && pos == old(pos) + k && value == Val(input[old(pos)..pos])
    {
      ghost var end := pos + k;
      var sum: int, unit: int := 0, 1;
      assert Weighted(0, 1, input[pos..end]) == Val(input[pos..end]);
      hide Weighted, Val;
      for i := 0 to k
        invariant pos == old(pos) + i
        invariant Val(input[old(pos)..end]) == Weighted(sum, unit, input[pos..end])
      {
        assert input[pos..end][0] == input[pos] && input[pos..end][1..] == input[pos + 1..end];
        TakeOne(sum, unit, input[pos..end]);
        sum := sum + input[pos] * unit;
        unit := unit * 0x100;
        pos := pos + 1;
      }
      AllTaken(sum, unit, input[pos..end]);
      value := sum;
    }

    method Number(k: nat) returns (r: Option<nat>)
      requires Valid()
      modifies this`pos
      ensures Valid()
      ensures r == match TakeNum(k, old(Rest())) case Fail => None case Got(v, _) => Some(v)
      ensures Rest() == match TakeNum(k, old(Rest())) case Fail => old(Rest()) case Got(_, rest) => rest
    {
      if pos + k > |input| {
        return None;
      }
      var start := pos;
      assert input[start..][..k] == input[start..start + k];
      hide LE, Cap;
      var value := Gather(k);
      return Some(value);
    }

    method U8() returns (r: Option<U8>)
      requires Valid()
      modifies this`pos
      ensures Valid()
      ensures match TakeU8(old(Rest())) case Fail => r == None case Got(v, rest) => r == Some(v) && Rest() == rest
    {
      Caps();
      var n := Number(1);
      return if n.None? then None else Some(n.value);
    }

    method U16() returns (r: Option<U16>)
      requires Valid()
      modifies this`pos
      ensures Valid()
      ensures match TakeU16(old(Rest())) case Fail => r == None case Got(v, rest) => r == Some(v) && Rest() == rest
    {
      Caps();
      var n := Number(2);
      return if n.None? then None else Some(n.value);
    }

    method U32() returns (r: Option<U32>)
      requires Valid()
      modifies this`pos
      ensures Valid()
      ensures match TakeU32(old(Rest())) case Fail => r == None case Got(v, rest) => r == Some(v) && Rest() == rest
    {
      Caps();
      var n := Number(4);
      return if n.None? then None else Some(n.value);
    }

    method U64() returns (r: Option<U64>)
      requires Valid()
      modifies this`pos
      ensures Valid()
      ensures match TakeU64(old(Rest())) case Fail => r == None case Got(v, rest) => r == Some(v) && Rest() == rest
    {
      Caps();
      var n := Number(8);
      return if n.None? then None else Some(n.value);
    }

    method String() returns (r: Option<Blob>)
      requires Valid()
      modifies this`pos
      ensures Valid()
      ensures match TakeBlob(old(Rest())) case Fail => r == None case Got(b, rest) => r == Some(b) && Rest() == rest
    {
      Caps();
      var len := Number(4);
      if len == None || pos + len.value > |input| {
        return None;
      }
      var start := pos;
      var value: Bytes := [];
      for i := 0 to len.value
        invariant pos == start + i && value == input[start..pos]
      {
        value := value + [input[pos]];
        pos := pos + 1;
      }
      assert input[start..][..len.value] == value;
      return Some(value);
    }

    /** Nothing may be left over. */
    method Done() returns (ok: bool)
      requires Valid()
      ensures ok <==> Rest() == []
    {
      return pos == |input|;
    }
  }

  lemma Spread(unit: int, head: int, rest: int)
    ensures unit * (head + 0x100 * rest) == unit * head + (unit * 0x100) * rest
  {
  }
}
