/** What the temp file of a chunked file holds, in every run of the stream. */
module ChunkFiles {
  import opened Wire
  import opened Messages
  import opened Checksums
  import opened ChunkStreams

  datatype Event =
    | OnBegin(begin: BeginMessage, beginDisk: BeginDisk)
    | OnChunk(chunk: ChunkMessage, writeDisk: WriteDisk)
    | OnPrepare(commit: CommitMessage, finalExists: bool)
    | OnAbort(seqNo: U64)
    | OnFinish(result: CommitResult)
    | OnRefresh(latest: Option<Latest>)

  /** The payload accepted for each chunk of each file. */
  type Payloads = map<(U64, nat), Bytes>

  function Next(s: ChunkStream, e: Event): ChunkStream
    requires Shaped(s)
  {
    match e
    case OnBegin(m, disk) => ApplyBegin(s, m, disk).0
    case OnChunk(m, disk) => ApplyChunk(s, m, disk).0
    case OnPrepare(m, finalExists) => AfterPrepare(s, Prepare(s, m, finalExists), m)
    case OnAbort(seqNo) => SetPending(s, seqNo, false)
    case OnFinish(r) => (match Finish(s, r) case None => s case Some(t) => t)
    case OnRefresh(latest) => Refresh(s, latest)
  }

  /** A chunk is accepted when its bytes reach the temp file whole; a new file starts with none. */
  function Record(s: ChunkStream, log: Payloads, e: Event): Payloads
    requires Shaped(s)
  {
    match e
    case OnChunk(m, disk) => if Writes(s, m) && disk.Written? then log[(m.seqNo, m.chunkIndex) := m.payload] else log
    case OnBegin(m, disk) =>
      if m.seqNo !in s.active && m.seqNo in Next(s, e).active then map k <- log | k.0 != m.seqNo :: log[k] else log
    case _ => log
  }

  function CountTrue(bits: seq<bool>): nat {
    if bits == [] then 0 else (if bits[0] then 1 else 0) + CountTrue(bits[1..])
  }

  /** Where chunk `i` starts, and how long it is, over the integers. */
  function Start(chunkSize: nat, i: nat): nat { i * chunkSize }

  function Length(size: nat, chunkSize: nat, i: nat): nat
    requires Start(chunkSize, i) <= size
  {
    Wrap32(Min(chunkSize, size - Start(chunkSize, i)))
  }

  /** Chunk `i` is on disk, where it belongs. */
  predicate Holds(size: nat, chunkSize: nat, temp: Bytes, i: nat, payload: Bytes) {
    var start := Start(chunkSize, i);
    && start <= size && |payload| == Length(size, chunkSize, i)
    && (payload != [] ==> start + |payload| <= |temp| && temp[start..start + |payload|] == payload)
  }

  predicate SoundFile(f: ActiveFile, log: Payloads) {
    && FileShaped(f) && f.finalSize > CHUNK_MODE_THRESHOLD && f.chunkSize > 0 && f.chunkCount == ChunkCount(f.finalSize, f.chunkSize)
    && f.receivedCount == CountTrue(f.received)
    && |f.temp| <= f.finalSize
    && (f.commitPending ==> f.receivedCount == f.chunkCount)
    && (forall i :: 0 <= i < f.chunkCount ==> (f.received[i] <==> (f.seqNo, i) in log))
    && (forall i :: 0 <= i < f.chunkCount && f.received[i] ==>
          (f.seqNo, i) in log && Holds(f.finalSize, f.chunkSize, f.temp, i, log[(f.seqNo, i)]))
  }

  predicate Sound(s: ChunkStream, log: Payloads) {
    forall k <- s.active :: s.active[k].seqNo == k && SoundFile(s.active[k], log)
  }

  // ---------- Arithmetic of chunk ranges ----------

  lemma Below(i: nat, j: nat, size: nat)
    requires i < j
    ensures i * size + size <= j * size
  {
    assert (i + 1) * size == i * size + size;
    Monotone(i + 1, j, size);
  }

  lemma Monotone(i: nat, j: nat, size: nat)
    requires i <= j
    ensures i * size <= j * size
  {
  }

  /** A chunk below the count starts inside the file, so none of the 64-bit sums wraps, even when the count did. */
  lemma StartsInside(size: U64, chunkSize: U64, i: nat)
    requires chunkSize > 0 && i < ChunkCount(size, chunkSize)
    ensures i * chunkSize < size
  {
    var sum := Wrap64(size + chunkSize - 1);
    var n := sum / chunkSize;
    assert n * chunkSize <= sum;
    Below(i, n, chunkSize);
    assert sum <= size + chunkSize - 1;
  }

  lemma OverwriteKeeps(file: Bytes, at: nat, data: Bytes, from: nat, to: nat)
    requires from <= to <= |file| && (to <= at || at + |data| <= from)
    ensures to <= |WriteAt(file, at, data)| && WriteAt(file, at, data)[from..to] == file[from..to]
  {
  }

  lemma OverwriteHolds(file: Bytes, at: nat, data: Bytes)
    requires data != []
    ensures at + |data| <= |WriteAt(file, at, data)| && WriteAt(file, at, data)[at..at + |data|] == data
  {
  }

  lemma TempFits(file: Bytes, at: nat, data: Bytes, size: nat)
    requires |file| <= size && at + |data| <= size
    ensures |file| <= |WriteAt(file, at, data)| <= size
  {
  }

  lemma Untouched(file: Bytes, at: nat)
    ensures WriteAt(file, at, []) == file
  {
  }

  lemma {:induction false} CountBounds(bits: seq<bool>)
    ensures CountTrue(bits) <= |bits|
    ensures CountTrue(bits) == |bits| <==> forall i :: 0 <= i < |bits| ==> bits[i]
  {
    if bits != [] {
      CountBounds(bits[1..]);
      assert forall i :: 0 < i < |bits| ==> bits[i] == bits[1..][i - 1];
    }
  }

  lemma {:induction false} CountSet(bits: seq<bool>, i: nat)
    requires i < |bits| && !bits[i]
    ensures CountTrue(bits[i := true]) == CountTrue(bits) + 1
  {
    if i == 0 {
      assert bits[0 := true][1..] == bits[1..];
    } else {
      CountSet(bits[1..], i - 1);
      assert bits[i := true][1..] == bits[1..][i - 1 := true];
    }
  }

  lemma {:induction false} CountNone(bits: seq<bool>)
    requires forall i :: 0 <= i < |bits| ==> !bits[i]
    ensures CountTrue(bits) == 0
  {
    if bits != [] {
      CountNone(bits[1..]);
    }
  }

  // ---------- Every event keeps every file sound ----------

  lemma Wraps(n: nat)
    ensures n < 0x1_0000_0000_0000_0000 ==> Wrap64(n) == n
    ensures Wrap32(n) <= n
  {
  }

  /** What the checks in front of the write establish. */
  lemma WriteFits(s: ChunkStream, log: Payloads, m: ChunkMessage)
    requires Sound(s, log) && Shaped(s) && Writes(s, m)
    ensures m.seqNo in s.active
    ensures var f := s.active[m.seqNo];
      && m.chunkIndex < f.chunkCount && m.offset == Start(f.chunkSize, m.chunkIndex) < f.finalSize
      && |m.payload| == Length(f.finalSize, f.chunkSize, m.chunkIndex) <= f.chunkSize && m.offset + |m.payload| <= f.finalSize
  {
    hide Wrap64, Wrap32, ChunkCount;
    var f := s.active[m.seqNo];
    var start := m.chunkIndex * f.chunkSize;
    StartsInside(f.finalSize, f.chunkSize, m.chunkIndex);
    Wraps(start);
    Wraps(f.finalSize - start);
    Wraps(Min(f.chunkSize, f.finalSize - start));
  }

  /** Bytes written inside the range of chunk `j` do not reach the range of another chunk. */
  lemma OthersKept(size: nat, chunkSize: nat, temp: Bytes, j: nat, data: Bytes, i: nat, payload: Bytes)
    requires chunkSize > 0 && Start(chunkSize, j) + |data| <= size && |data| <= chunkSize
    requires i != j && Holds(size, chunkSize, temp, i, payload)
    ensures Holds(size, chunkSize, WriteAt(temp, Start(chunkSize, j), data), i, payload)
  {
    if i < j { Below(i, j, chunkSize); } else { Below(j, i, chunkSize); }
    Wraps(Min(chunkSize, size - Start(chunkSize, i)));
    var start := Start(chunkSize, i);
    if payload != [] {
      OverwriteKeeps(temp, Start(chunkSize, j), data, start, start + |payload|);
    }
    hide WriteAt, Start;
  }

  lemma StoreSound(f: ActiveFile, log: Payloads, m: ChunkMessage, disk: WriteDisk)
    requires SoundFile(f, log) && f.seqNo == m.seqNo
    requires m.chunkIndex < f.chunkCount && !f.received[m.chunkIndex] && m.offset == Start(f.chunkSize, m.chunkIndex) < f.finalSize
    requires |m.payload| == Length(f.finalSize, f.chunkSize, m.chunkIndex) <= f.chunkSize && m.offset + |m.payload| <= f.finalSize
    ensures SoundFile(Store(f, m, disk), if disk.Written? then log[(m.seqNo, m.chunkIndex) := m.payload] else log)
  {
    hide WriteAt, CountTrue, ChunkCount, Start, Length;
    var size, step, at, i := f.finalSize, f.chunkSize, m.offset, m.chunkIndex;
    var data: Bytes := if disk.Written? then m.payload else if disk.Partly? then m.payload[..Min(disk.written, |m.payload|)] else [];
    var g := Store(f, m, disk);
    assert g.temp == WriteAt(f.temp, at, data) by { Untouched(f.temp, at); }
    TempFits(f.temp, at, data, size);
    forall k | 0 <= k < f.chunkCount && f.received[k] ensures Holds(size, step, g.temp, k, log[(f.seqNo, k)]) {
      OthersKept(size, step, f.temp, i, data, k, log[(f.seqNo, k)]);
    }
    if disk.Written? {
      assert Holds(size, step, g.temp, i, m.payload) by {
        if data != [] { OverwriteHolds(f.temp, at, data); }
      }
      CountSet(f.received, i);
    }
    CountBounds(f.received);
    hide Holds;
  }

  lemma NewFileSound(m: BeginMessage, log: Payloads)
    requires m.finalSize > CHUNK_MODE_THRESHOLD && m.chunkSize > 0 && m.chunkCount == ChunkCount(m.finalSize, m.chunkSize)
    requires forall k <- log :: k.0 != m.seqNo
    ensures SoundFile(NewFile(m), log)
  {
    CountNone(NewFile(m).received);
    hide ChunkCount;
  }

  lemma BeginSound(s: ChunkStream, log: Payloads, m: BeginMessage, disk: BeginDisk)
    requires Sound(s, log)
    ensures Shaped(s) && Sound(Next(s, OnBegin(m, disk)), Record(s, log, OnBegin(m, disk)))
  {
    var t, logged := Next(s, OnBegin(m, disk)), Record(s, log, OnBegin(m, disk));
    if t != s {
      NewFileSound(m, logged);
      hide ChunkCount, Holds, CountTrue;
    }
  }

  lemma OtherFile(f: ActiveFile, log: Payloads, key: (U64, nat), payload: Bytes)
    requires SoundFile(f, log) && f.seqNo != key.0
    ensures SoundFile(f, log[key := payload])
  {
    hide ChunkCount, Holds, CountTrue;
  }

  lemma NothingWritten(s: ChunkStream, m: ChunkMessage, disk: WriteDisk)
    requires Shaped(s) && !Writes(s, m)
    ensures ApplyChunk(s, m, disk).0 == s
  {
    hide BadPayload;
  }

  lemma ChunkSound(s: ChunkStream, log: Payloads, m: ChunkMessage, disk: WriteDisk)
    requires Sound(s, log)
    ensures Shaped(s) && Sound(Next(s, OnChunk(m, disk)), Record(s, log, OnChunk(m, disk)))
  {
    hide ChunkCount, Holds, CountTrue, WriteAt, BadPayload, Refusal, Store;
    if Writes(s, m) {
      WriteFits(s, log, m);
      StoreSound(s.active[m.seqNo], log, m, disk);
      var key := (m.seqNo, m.chunkIndex);
      assert Store(s.active[m.seqNo], m, disk).seqNo == m.seqNo by { KeepsSeq(s.active[m.seqNo], m, disk); }
      forall k <- s.active | k != m.seqNo ensures SoundFile(s.active[k], Record(s, log, OnChunk(m, disk))) {
        OtherFile(s.active[k], log, key, m.payload);
      }
      hide SoundFile;
    } else {
      NothingWritten(s, m, disk);
    }
  }

  lemma KeepsSeq(f: ActiveFile, m: ChunkMessage, disk: WriteDisk)
    requires m.chunkIndex < |f.received|
    ensures Store(f, m, disk).seqNo == f.seqNo
  {
  }

  lemma PrepareSound(s: ChunkStream, log: Payloads, m: CommitMessage, finalExists: bool)
    requires Sound(s, log)
    ensures Shaped(s) && Sound(AfterPrepare(s, Prepare(s, m, finalExists), m), log)
  {
    hide ChunkCount, Holds, CountTrue;
  }

  lemma AbortSound(s: ChunkStream, log: Payloads, seqNo: U64)
    requires Sound(s, log)
    ensures Shaped(s) && Sound(SetPending(s, seqNo, false), log)
  {
    hide ChunkCount, Holds, CountTrue;
  }

  lemma FinishSound(s: ChunkStream, log: Payloads, r: CommitResult)
    requires Sound(s, log)
    ensures Shaped(s) && (Finish(s, r).Some? ==> Sound(Finish(s, r).value, log))
  {
    hide ChunkCount, Holds, CountTrue;
  }

  lemma NextSound(s: ChunkStream, log: Payloads, e: Event)
    requires Sound(s, log)
    ensures Shaped(s) && Sound(Next(s, e), Record(s, log, e))
  {
    hide ChunkCount, Holds, CountTrue, Prepare, Finish, SetPending, ApplyBegin, ApplyChunk, Writes;
    match e
    case OnBegin(m, disk) => BeginSound(s, log, m, disk);
    case OnChunk(m, disk) => ChunkSound(s, log, m, disk);
    case OnPrepare(m, finalExists) => PrepareSound(s, log, m, finalExists);
    case OnAbort(seqNo) => AbortSound(s, log, seqNo);
    case OnFinish(r) => FinishSound(s, log, r);
    case OnRefresh(latest) =>
  }

  /** A run, with the payloads accepted in it. */
  function Run(s: ChunkStream, log: Payloads, events: seq<Event>): (ChunkStream, Payloads)
    requires Sound(s, log)
    decreases |events|
  {
    if events == [] then (s, log)
    else (NextSound(s, log, events[0]); Run(Next(s, events[0]), Record(s, log, events[0]), events[1..]))
  }

  lemma {:induction false} RunSound(s: ChunkStream, log: Payloads, events: seq<Event>)
    requires Sound(s, log)
    ensures Sound(Run(s, log, events).0, Run(s, log, events).1)
    decreases |events|
  {
    if events != [] {
      NextSound(s, log, events[0]);
      RunSound(Next(s, events[0]), Record(s, log, events[0]), events[1..]);
    }
  }

  // ---------- The committed file ----------

  /** The accepted payloads of the first `n` chunks, in order. */
  function Joined(f: ActiveFile, log: Payloads, n: nat): Bytes
    requires forall i :: 0 <= i < n ==> (f.seqNo, i) in log
  {
    if n == 0 then [] else Joined(f, log, n - 1) + log[(f.seqNo, n - 1)]
  }

  /** The sizes that a FILE_BEGIN may announce without a chunk length or the chunk count being cut to fewer bits. */
  predicate Exact(size: U64, chunkSize: U64) {
    size + chunkSize - 1 < 0x1_0000_0000_0000_0000 && Min(size, chunkSize) < 0x1_0000_0000
  }

  lemma CountCovers(size: U64, chunkSize: U64)
    requires chunkSize > 0 && size > 0 && size + chunkSize - 1 < 0x1_0000_0000_0000_0000
    ensures ChunkCount(size, chunkSize) > 0 && size <= Start(chunkSize, ChunkCount(size, chunkSize))
  {
    var sum := size + chunkSize - 1;
    var n := sum / chunkSize;
    Wraps(sum);
    assert sum < (n + 1) * chunkSize == n * chunkSize + chunkSize;
  }

  lemma NextStart(chunkSize: nat, i: nat)
    ensures Start(chunkSize, i + 1) == Start(chunkSize, i) + chunkSize && Start(chunkSize, 0) == 0
  {
    assert (i + 1) * chunkSize == i * chunkSize + chunkSize;
  }

  /** The end of chunk `i` - 1. */
  lemma EndOf(f: ActiveFile, log: Payloads, i: nat)
    requires SoundFile(f, log) && i < f.chunkCount && f.received[i]
    ensures (f.seqNo, i) in log
    ensures var at, p := Start(f.chunkSize, i), log[(f.seqNo, i)];
      at <= |f.temp| ==> at + |p| <= |f.temp| && f.temp[at..at + |p|] == p
    ensures Start(f.chunkSize, i) < f.finalSize && Start(f.chunkSize, i + 1) == Start(f.chunkSize, i) + f.chunkSize
    ensures |log[(f.seqNo, i)]| <= Min(f.chunkSize, f.finalSize - Start(f.chunkSize, i))
    ensures Min(f.finalSize, f.chunkSize) < 0x1_0000_0000 ==>
              |log[(f.seqNo, i)]| == Min(f.chunkSize, f.finalSize - Start(f.chunkSize, i))
    ensures i == 0 && Min(f.finalSize, f.chunkSize) >= 0x1_0000_0000 ==> |log[(f.seqNo, i)]| < Min(f.chunkSize, f.finalSize)
  {
    StartsInside(f.finalSize, f.chunkSize, i);
    NextStart(f.chunkSize, i);
    assert Start(f.chunkSize, i) < f.finalSize;
    hide CountTrue, ChunkCount, Start;
    assert Holds(f.finalSize, f.chunkSize, f.temp, i, log[(f.seqNo, i)]);
    hide SoundFile;
  }

  lemma FrontGrows(temp: Bytes, at: nat, p: Bytes)
    requires at + |p| <= |temp| && temp[at..at + |p|] == p
    ensures temp[..at] + p == temp[..at + |p|]
  {
  }

  lemma AllLogged(f: ActiveFile, log: Payloads)
    requires SoundFile(f, log) && forall i :: 0 <= i < f.chunkCount ==> f.received[i]
    ensures FileShaped(f) && forall i :: 0 <= i < f.chunkCount ==> (f.seqNo, i) in log
  {
    hide ChunkCount, CountTrue, Holds;
  }

  /** The next chunk is behind the front, and moves it to where the chunk ends. */
  lemma FrontMoves(f: ActiveFile, log: Payloads, n: nat)
    requires forall i :: 0 <= i <= n ==> (f.seqNo, i) in log
    requires var at, p := Start(f.chunkSize, n), log[(f.seqNo, n)];
      && at < f.finalSize && Start(f.chunkSize, n + 1) == at + f.chunkSize && |p| == Min(f.chunkSize, f.finalSize - at)
      && at <= |f.temp| && at + |p| <= |f.temp| && f.temp[at..at + |p|] == p
      && |Joined(f, log, n)| == at && Joined(f, log, n) == f.temp[..at]
    ensures |Joined(f, log, n + 1)| == Min(Start(f.chunkSize, n + 1), f.finalSize) <= |f.temp|
    ensures Joined(f, log, n + 1) == f.temp[..|Joined(f, log, n + 1)|]
  {
    hide Start;
    FrontGrows(f.temp, Start(f.chunkSize, n), log[(f.seqNo, n)]);
    assert Joined(f, log, n + 1) == Joined(f, log, n) + log[(f.seqNo, n)];
  }

  /** All chunks are here: the payloads joined are the front of the temp file. */
  lemma {:induction false} JoinedIsFront(f: ActiveFile, log: Payloads, n: nat)
    requires SoundFile(f, log) && n <= f.chunkCount && Min(f.finalSize, f.chunkSize) < 0x1_0000_0000
    requires forall i :: 0 <= i < f.chunkCount ==> f.received[i]
    ensures forall i :: 0 <= i < n ==> (f.seqNo, i) in log
    ensures |Joined(f, log, n)| == Min(Start(f.chunkSize, n), f.finalSize) <= |f.temp|
    ensures Joined(f, log, n) == f.temp[..|Joined(f, log, n)|]
  {
    hide SoundFile, ChunkCount;
    AllLogged(f, log);
    if n > 0 {
      hide Start;
      JoinedIsFront(f, log, n - 1);
      EndOf(f, log, n - 1);
      hide Joined;
      FrontMoves(f, log, n - 1);
    }
  }

  /** A file whose commit may start: its temp file is one accepted payload per chunk, joined in order, and has the
      announced size, if and only if the announced sizes are exact. */
  lemma CommittedFile(s: ChunkStream, log: Payloads, m: CommitMessage, finalExists: bool)
    requires Sound(s, log) && Prepare(s, m, finalExists).Task?
    ensures var f := Prepare(s, m, finalExists).file;
      && (forall i :: 0 <= i < f.chunkCount ==> f.received[i] && (f.seqNo, i) in log)
      && (Exact(f.finalSize, f.chunkSize) <==> f.temp == Joined(f, log, f.chunkCount) && |f.temp| == f.finalSize)
  {
    var f := Prepare(s, m, finalExists).file;
    assert f == s.active[m.seqNo] && SoundFile(f, log);
    CountBounds(f.received);
    if Exact(f.finalSize, f.chunkSize) {
      CountCovers(f.finalSize, f.chunkSize);
      JoinedIsFront(f, log, f.chunkCount);
      assert f.temp[..|f.temp|] == f.temp;
    } else {
      JoinedFallsShort(f, log);
    }
  }

  /** The same for every run of a stream that starts with no active file. */
  lemma CommittedFileOfAnyRun(s: ChunkStream, events: seq<Event>, m: CommitMessage, finalExists: bool)
    requires s.active == map[]
    ensures Sound(s, map[])
    ensures var (t, log) := Run(s, map[], events);
      Prepare(t, m, finalExists).Task? ==>
        var f := Prepare(t, m, finalExists).file;
        && (forall i :: 0 <= i < f.chunkCount ==> (f.seqNo, i) in log)
        && (Exact(f.finalSize, f.chunkSize) <==> f.temp == Joined(f, log, f.chunkCount) && |f.temp| == f.finalSize)
  {
    RunSound(s, map[], events);
    var (t, log) := Run(s, map[], events);
    if Prepare(t, m, finalExists).Task? {
      CommittedFile(t, log, m, finalExists);
    }
    hide Run, Prepare, Exact, Joined;
  }

  /** Joined payloads never pass the end of their chunk. */
  lemma {:induction false} JoinedBound(f: ActiveFile, log: Payloads, n: nat)
    requires SoundFile(f, log) && n <= f.chunkCount
    requires forall i :: 0 <= i < f.chunkCount ==> f.received[i]
    ensures forall i :: 0 <= i < n ==> (f.seqNo, i) in log
    ensures |Joined(f, log, n)| <= Min(Start(f.chunkSize, n), f.finalSize)
    ensures n > 0 && Min(f.finalSize, f.chunkSize) >= 0x1_0000_0000 ==>
              |Joined(f, log, n)| < Min(Start(f.chunkSize, n), f.finalSize)
  {
    hide SoundFile, ChunkCount;
    AllLogged(f, log);
    if n > 0 {
      assert n == 1 ==> Start(f.chunkSize, n - 1) == 0;
      hide Start;
      JoinedBound(f, log, n - 1);
      EndOf(f, log, n - 1);
      assert Joined(f, log, n) == Joined(f, log, n - 1) + log[(f.seqNo, n - 1)];
    }
  }

  /** When the sum in the chunk count wraps, the chunks end before the file does. */
  lemma WrappedCount(size: U64, chunkSize: U64)
    requires chunkSize > 0 && size > 0 && size + chunkSize - 1 >= 0x1_0000_0000_0000_0000
    ensures Start(chunkSize, ChunkCount(size, chunkSize)) < size
  {
    var sum := size + chunkSize - 1 - 0x1_0000_0000_0000_0000;
    assert Wrap64(size + chunkSize - 1) == sum < size;
    var n := sum / chunkSize;
    assert n * chunkSize <= sum;
  }

  lemma JoinedFallsShort(f: ActiveFile, log: Payloads)
    requires SoundFile(f, log) && !Exact(f.finalSize, f.chunkSize)
    requires forall i :: 0 <= i < f.chunkCount ==> f.received[i]
    ensures |Joined(f, log, f.chunkCount)| < f.finalSize
  {
    JoinedBound(f, log, f.chunkCount);
    if f.finalSize + f.chunkSize - 1 >= 0x1_0000_0000_0000_0000 {
      WrappedCount(f.finalSize, f.chunkSize);
    } else {
      CountCovers(f.finalSize, f.chunkSize);
    }
    hide Start, ChunkCount, Holds;
  }

  const MADE := BeginDisk(false, 0, false, true, false, true)

  /** The condition is needed. A FILE_BEGIN whose chunk count wraps to 0 can be committed at once, with an empty file. */
  lemma WrappedCountCommitsNothing(s: ChunkStream)
    requires s.active == map[]
    ensures var begin := FileBegin(s.streamId, s.expectedSeq, 1, [97], 0xFFFF_FFFF_FFFF_FFFF, 0x8000_0000_0000_0000, 0,
                                   Checksum(0, 0, 0, []), 0, 0, Checksum(0, 0, 0, []));
      var p := Prepare(Next(s, OnBegin(begin, MADE)), FileCommit(s.streamId, s.expectedSeq, 1), false);
      p.Task? && p.file.temp == [] && !Exact(p.file.finalSize, p.file.chunkSize)
  {
  }

  /** So can one whose chunk length is cut to 32 bits: both of its chunks are empty. */
  lemma CutLengthCommitsNothing(s: ChunkStream)
    requires s.active == map[]
    ensures var begin := FileBegin(s.streamId, s.expectedSeq, 1, [97], 0x2_0000_0000, 0x1_0000_0000, 2,
                                   Checksum(0, 0, 0, []), 0, 0, Checksum(0, 0, 0, []));
      var first := Chunk(s.streamId, s.expectedSeq, 1, 0, 0, 0, NO_COMPRESSION, CRC32C, Crc32cBytes([]), []);
      var second := first.(chunkIndex := 1, offset := 0x1_0000_0000);
      var t := Next(s, OnBegin(begin, MADE));
      && Shaped(t) && Shaped(Next(t, OnChunk(first, Written)))
      && var p := Prepare(Next(Next(t, OnChunk(first, Written)), OnChunk(second, Written)),
                          FileCommit(s.streamId, s.expectedSeq, 1), false);
         p.Task? && p.file.temp == [] && !Exact(p.file.finalSize, p.file.chunkSize)
  {
    hide Crc32cBytes;
  }

  predicate SameContents(f: ActiveFile, g: ActiveFile) { g.temp == f.temp && g.received == f.received }

  lemma PendingIgnoresChunks(s: ChunkStream, log: Payloads, k: U64, m: ChunkMessage, disk: WriteDisk)
    requires Sound(s, log) && k in s.active && s.active[k].commitPending
    ensures Shaped(s)
    ensures var t := ApplyChunk(s, m, disk).0; k in t.active && SameContents(s.active[k], t.active[k])
  {
    CountBounds(s.active[k].received);
    hide BadPayload, ChunkCount, WriteAt, Holds, CountTrue;
    if Writes(s, m) {
      WriteFits(s, log, m);
      hide Refusal;
    } else {
      NothingWritten(s, m, disk);
      hide ApplyChunk;
    }
  }

  /** While a commit is pending nothing but its end changes the file: every chunk is already here. */
  lemma PendingFileIsFixed(s: ChunkStream, log: Payloads, k: U64, e: Event)
    requires Sound(s, log) && k in s.active && s.active[k].commitPending
    requires !(e.OnFinish? && Finish(s, e.result).Some? && e.result.seqNo == k)
    ensures Shaped(s) && k in Next(s, e).active && SameContents(s.active[k], Next(s, e).active[k])
  {
    hide ChunkCount, Holds, CountTrue, ApplyChunk;
    if e.OnChunk? {
      PendingIgnoresChunks(s, log, k, e.chunk, e.writeDisk);
    }
  }
}
