/** Manifests of a directory and their difference: the ordering and numbering of scan_manifest_stream, diff_stream
    and make_manifest2_stream of src/core/yisync_sync.cpp. A directory is a list of items with distinct names,
    in the order in which iteration happens to find them. */
module ManifestSync {
  import opened Wire
  import opened Messages
  import opened Checksums
  import opened AppendStreams

  datatype Item = Item(name: Blob, node: Node)

  function KindOf(node: Node): U8 {
    match node case File(_) => REGULAR_FILE case Directory => DIRECTORY case Symlink(_) => SYMLINK
  }

  // ---------- Identifiers ----------

  const SLASH: Byte := 47

  predicate TopLevel(name: Blob) { SLASH !in name }

  /** ".file" */
  const SUFFIX: Bytes := [46, 102, 105, 108, 101]

  /** A decimal number, None for any other byte or when it does not fit 64 bits. */
  function ParseDigits(digits: Bytes): Option<U64> {
    if digits == [] then Some(0)
    else
      match ParseDigits(digits[..|digits| - 1])
      case None => None
      case Some(high) =>
        var c: int := digits[|digits| - 1];
        var d: int := c - 48;
        if 0 <= d <= 9 && 10 * high + d < 0x1_0000_0000_0000_0000 then Some(10 * high + d) else None
  }

  function ParseFileId(name: Blob): Option<U64> {
    if |name| <= 5 || name[|name| - 5..] != SUFFIX then None else ParseDigits(name[..|name| - 5])
  }

  /** FNV-1a over the name. */
  function Hash(name: Bytes): bv64 {
    if name == [] then 1469598103934665603
    else Mix(Hash(name[..|name| - 1]), name[|name| - 1] as bv64)
  }

  function Mix(hash: bv64, c: bv64): bv64 { (hash ^ c) * 1099511628211 }

  function StablePathId(name: Blob): U64 { (Hash(name) | 0x8000_0000_0000_0000) as int }

  function FileId(name: Blob, kind: U8): U64 {
    if kind == REGULAR_FILE && TopLevel(name) && ParseFileId(name).Some? then ParseFileId(name).value else StablePathId(name)
  }

  function IdOf(item: Item): U64 { FileId(item.name, KindOf(item.node)) }

  // ---------- Order ----------

  /** The byte-wise order of names. */
  predicate LexLess(a: Bytes, b: Bytes) {
    if b == [] then false
    else if a == [] then true
    else a[0] < b[0] || (a[0] == b[0] && LexLess(a[1..], b[1..]))
  }

  predicate LegacyNumeric(item: Item) {
    item.node.File? && IdOf(item) < 0x8000_0000_0000_0000 && TopLevel(item.name)
  }

  /** Top-level numbered files first, by number; everything else by name. */
  predicate Before(a: Item, b: Item) {
    if LegacyNumeric(a) && LegacyNumeric(b) then IdOf(a) < IdOf(b)
    else if LegacyNumeric(a) != LegacyNumeric(b) then LegacyNumeric(a)
    else LexLess(a.name, b.name)
  }

  predicate Distinct(items: seq<Item>) {
    forall i, j :: 0 <= i < j < |items| ==> items[i].name != items[j].name && IdOf(items[i]) != IdOf(items[j])
  }

  predicate Sorted(items: seq<Item>) { forall i, j :: 0 <= i < j < |items| ==> Before(items[i], items[j]) }

  lemma {:induction false} LexTotal(a: Bytes, b: Bytes)
    ensures a == b || LexLess(a, b) || LexLess(b, a)
    ensures !(LexLess(a, b) && LexLess(b, a)) && !LexLess(a, a)
  {
    if a != [] {
      if b != [] && a[0] == b[0] {
        LexTotal(a[1..], b[1..]);
        assert a == [a[0]] + a[1..] && b == [b[0]] + b[1..];
      }
      LexTotal(a[1..], a[1..]);
    }
  }

  lemma {:induction false} LexTransitive(a: Bytes, b: Bytes, c: Bytes)
    requires LexLess(a, b) && LexLess(b, c)
    ensures LexLess(a, c)
  {
    if a != [] && a[0] == b[0] == c[0] {
      LexTransitive(a[1..], b[1..], c[1..]);
    }
  }

  lemma BeforeTotal(a: Item, b: Item)
    requires a.name != b.name && IdOf(a) != IdOf(b)
    ensures Before(a, b) <==> !Before(b, a)
  {
    hide FileId, LexLess;
    LexTotal(a.name, b.name);
  }

  lemma BeforeTransitive(a: Item, b: Item, c: Item)
    requires Before(a, b) && Before(b, c)
    ensures Before(a, c) && !Before(a, a)
  {
    hide FileId, LexLess;
    LexTotal(a.name, a.name);
    if LexLess(a.name, b.name) && LexLess(b.name, c.name) {
      LexTransitive(a.name, b.name, c.name);
    }
  }

  // ---------- Sorting ----------

  function Insert(item: Item, sorted: seq<Item>): seq<Item> {
    if sorted == [] || Before(item, sorted[0]) then [item] + sorted else [sorted[0]] + Insert(item, sorted[1..])
  }

  function Sort(items: seq<Item>): seq<Item> {
    if items == [] then [] else Insert(items[0], Sort(items[1..]))
  }

  lemma {:induction false} InsertSorts(item: Item, sorted: seq<Item>)
    requires Sorted(sorted)
    requires forall x <- sorted :: x.name != item.name && IdOf(x) != IdOf(item)
    ensures Sorted(Insert(item, sorted))
    ensures forall x :: x in Insert(item, sorted) <==> x == item || x in sorted
  {
    hide Before, IdOf;
    if sorted != [] {
      var head, rest := sorted[0], sorted[1..];
      assert sorted == [head] + rest;
      if Before(item, head) {
        forall x <- rest ensures Before(item, x) {
          BeforeTransitive(item, head, x);
        }
      } else {
        InsertSorts(item, rest);
        BeforeTotal(item, head);
        forall x <- Insert(item, rest) ensures Before(head, x) {}
      }
    }
  }

  lemma {:induction false} SortSorts(items: seq<Item>)
    requires Distinct(items)
    ensures Sorted(Sort(items))
    ensures forall x :: x in Sort(items) <==> x in items
  {
    hide Before, IdOf;
    if items != [] {
      SortSorts(items[1..]);
      InsertSorts(items[0], Sort(items[1..]));
      assert items == [items[0]] + items[1..];
    }
  }

  /** Sorting keeps the items distinct. */
  lemma SortDistinct(items: seq<Item>)
    requires Distinct(items)
    ensures Distinct(Sort(items))
  {
    SortSorts(items);
    hide Before, IdOf, Sort;
    var s := Sort(items);
    forall i, j | 0 <= i < j < |s| ensures s[i].name != s[j].name && IdOf(s[i]) != IdOf(s[j]) {
      assert s[i] in s && s[j] in s && Before(s[i], s[j]);
      if s[i] == s[j] {
        BeforeTransitive(s[i], s[j], s[i]);
      }
      var p :| 0 <= p < |items| && items[p] == s[i];
      var q :| 0 <= q < |items| && items[q] == s[j];
    }
  }

  /** A set of items has one sorted list: the order in which iteration found them does not matter. */
  lemma {:induction false} SortedIsUnique(a: seq<Item>, b: seq<Item>)
    requires Sorted(a) && Sorted(b) && forall x :: x in a <==> x in b
    ensures a == b
  {
    hide Before;
    if a == [] {
      if b != [] {
        HeadIn(b);
      }
    } else {
      assert a[0] in a && a[0] in b && b[0] in b && b[0] in a;
      if a[0] != b[0] {
        var i :| 0 <= i < |b| && b[i] == a[0];
        var j :| 0 <= j < |a| && a[j] == b[0];
        BeforeTransitive(a[0], b[0], a[0]);
      }
      forall x ensures x in a[1..] <==> x in b[1..] {
        TailMembers(a, x);
        TailMembers(b, x);
      }
      SortedIsUnique(a[1..], b[1..]);
      assert a == [a[0]] + a[1..] && b == [b[0]] + b[1..];
    }
  }

  lemma HeadIn(s: seq<Item>)
    requires s != []
    ensures s[0] in s
  {
  }

  lemma TailMembers(s: seq<Item>, x: Item)
    requires s != [] && Sorted(s)
    ensures x in s[1..] <==> x in s && x != s[0]
  {
    hide Before;
    if x in s[1..] {
      var i :| 0 < i < |s| && s[i] == x;
      if x == s[0] {
        BeforeTransitive(s[0], s[i], s[0]);
      }
    }
  }

  lemma SortOne(x: Item)
    ensures Sort([x]) == [x]
  {
    hide Before;
    assert [x][1..] == [];
    assert Sort([x][1..]) == [];
  }

  // ---------- Scanning ----------

  const RANGE: U64 := 4194304

  /** make_crc32c_range_checksum: the last bytes of the file, at most RANGE of them. */
  function RangeChecksum(content: Bytes): Checksum
    requires |content| < 0x1_0000_0000_0000_0000
  {
    var len := if |content| <= RANGE then |content| else RANGE;
    Checksum(if content == [] then 0 else 1, |content| - len, len,
             if len > 0 then Crc32cBytes(content[|content| - len..]) else [])
  }

  /** Of two files of the same size, the checksums agree exactly when the last 4 MiB have the same CRC-32C. */
  lemma SameRange(a: Bytes, b: Bytes)
    requires |a| == |b| < 0x1_0000_0000_0000_0000
    ensures RangeChecksum(a) == RangeChecksum(b) <==>
              if |a| <= 4 * 1024 * 1024 then a == b == [] || Crc32cBytes(a) == Crc32cBytes(b)
              else Crc32cBytes(a[|a| - 4 * 1024 * 1024..]) == Crc32cBytes(b[|b| - 4 * 1024 * 1024..])
  {
    hide Crc32cBytes;
    assert |a| <= RANGE ==> a[|a| - |a|..] == a && b[|a| - |a|..] == b;
  }

  predicate Sized(item: Item) { item.node.File? ==> |item.node.content| < 0x1_0000_0000_0000_0000 }

  function EntryOf(item: Item, seqNo: U64): Entry
    requires Sized(item)
  {
    match item.node
    case File(content) =>
      Entry(IdOf(item), seqNo, REGULAR_FILE, item.name, [], |content|, RangeChecksum(content))
    case Directory => Entry(IdOf(item), seqNo, DIRECTORY, item.name, [], 0, Checksum(0, 0, 0, []))
    case Symlink(target) => Entry(IdOf(item), seqNo, SYMLINK, item.name, target, 0, Checksum(0, 0, 0, []))
  }

  predicate Scannable(items: seq<Item>) {
    Distinct(items) && |items| < 0xFFFF_FFFF_FFFF_FFFF && forall x <- items :: Sized(x)
  }

  /** The entries of items already in order, numbered from 1. */
  function Numbered(sorted: seq<Item>): (entries: seq<Entry>)
    requires |sorted| < 0xFFFF_FFFF_FFFF_FFFF && forall x <- sorted :: Sized(x)
    ensures |entries| == |sorted| && forall i :: 0 <= i < |entries| ==> entries[i] == EntryOf(sorted[i], i + 1)
  {
    seq(|sorted|, i requires 0 <= i < |sorted| => EntryOf(sorted[i], i + 1))
  }

  lemma {:induction false} SortLength(items: seq<Item>)
    ensures |Sort(items)| == |items|
  {
    if items != [] {
      SortLength(items[1..]);
      InsertLength(items[0], Sort(items[1..]));
    }
  }

  lemma {:induction false} InsertLength(item: Item, sorted: seq<Item>)
    ensures |Insert(item, sorted)| == |sorted| + 1
  {
    hide Before;
    if sorted != [] {
      InsertLength(item, sorted[1..]);
    }
  }

  function Scan(items: seq<Item>): seq<Entry>
    requires Scannable(items)
  {
    SortSorts(items);
    SortLength(items);
    Numbered(Sort(items))
  }

  // ---------- Comparing ----------

  predicate SameIdentity(a: Entry, b: Entry) { a.fileId == b.fileId && a.kind == b.kind && a.name == b.name }

  predicate SameContent(a: Entry, b: Entry) {
    a.kind == b.kind &&
    (a.kind == DIRECTORY || (if a.kind == SYMLINK then a.linkTarget == b.linkTarget
                             else a.size == b.size && a.checksum == b.checksum))
  }

  datatype Start = Start(fileId: U64, offset: U64, resumes: bool)

  datatype Difference = InSync | StartAt(start: Start) | Conflict

  function Diff(sender: seq<Entry>, receiver: seq<Entry>): Difference
    decreases |sender|
  {
    if sender == [] then InSync
    else if receiver == [] then StartAt(Start(sender[0].fileId, 0, false))
    else if !SameIdentity(sender[0], receiver[0]) then Conflict
    else if sender[0].kind == DIRECTORY || sender[0].kind == SYMLINK then
      if SameContent(sender[0], receiver[0]) then Diff(sender[1..], receiver[1..]) else Conflict
    else if receiver[0].size > sender[0].size then Conflict
    else if receiver[0].size < sender[0].size then StartAt(Start(sender[0].fileId, receiver[0].size, true))
    else if sender[0].checksum != receiver[0].checksum then Conflict
    else Diff(sender[1..], receiver[1..])
  }

  method DiffStream(sender: seq<Entry>, receiver: seq<Entry>) returns (r: Difference)
    ensures r == Diff(sender, receiver)
  {
    var senderI, receiverI := 0, 0;
    while senderI < |sender|
      invariant senderI == receiverI <= |sender| && receiverI <= |receiver|
      invariant Diff(sender, receiver) == Diff(sender[senderI..], receiver[receiverI..])
    {
      var mine := sender[senderI];
      assert sender[senderI..][1..] == sender[senderI + 1..];
      if receiverI >= |receiver| {
        return StartAt(Start(mine.fileId, 0, false));
      }
      var theirs := receiver[receiverI];
      assert receiver[receiverI..][1..] == receiver[receiverI + 1..];
      if !SameIdentity(mine, theirs) {
        return Conflict;
      }
      if mine.kind == DIRECTORY || mine.kind == SYMLINK {
        if !SameContent(mine, theirs) {
          return Conflict;
        }
        senderI, receiverI := senderI + 1, receiverI + 1;
        continue;
      }
      if theirs.size > mine.size {
        return Conflict;
      }
      if theirs.size < mine.size {
        return StartAt(Start(mine.fileId, theirs.size, true));
      }
      if mine.checksum != theirs.checksum {
        return Conflict;
      }
      senderI, receiverI := senderI + 1, receiverI + 1;
    }
    return InSync;
  }

  /** Two entries agree: the same id, kind and name; links with the same target; files of the same size and checksum. */
  predicate Agree(a: Entry, b: Entry) {
    && a.fileId == b.fileId && a.kind == b.kind && a.name == b.name
    && (if a.kind == SYMLINK then a.linkTarget == b.linkTarget
        else a.kind == DIRECTORY || (a.size == b.size && a.checksum == b.checksum))
  }

  /** In sync means: the receiver has every entry of the sender, in place, and they agree. */
  lemma {:induction false} InSyncMeans(sender: seq<Entry>, receiver: seq<Entry>)
    ensures Diff(sender, receiver).InSync? <==>
              |receiver| >= |sender| && forall i :: 0 <= i < |sender| ==> Agree(sender[i], receiver[i])
    decreases |sender|
  {
    if sender != [] && receiver != [] {
      InSyncMeans(sender[1..], receiver[1..]);
      assert forall i :: 0 < i < |sender| ==> sender[i] == sender[1..][i - 1];
      assert forall i :: 0 < i < |receiver| ==> receiver[i] == receiver[1..][i - 1];
    }
  }

  /** Otherwise the first entry that does not agree decides: one that is missing is created, a shorter file of the same
      identity is resumed where it ends, and everything else is a conflict. */
  lemma {:induction false} FirstDifferenceDecides(sender: seq<Entry>, receiver: seq<Entry>, k: nat)
    requires k < |sender| && k <= |receiver|
    requires forall i :: 0 <= i < k ==> Agree(sender[i], receiver[i])
    requires k < |receiver| ==> !Agree(sender[k], receiver[k])
    ensures Diff(sender, receiver) ==
            if k == |receiver| then StartAt(Start(sender[k].fileId, 0, false))
            else if sender[k].fileId == receiver[k].fileId && sender[k].kind == receiver[k].kind
                    && sender[k].name == receiver[k].name && sender[k].kind !in [DIRECTORY, SYMLINK]
                    && receiver[k].size < sender[k].size then
              StartAt(Start(sender[k].fileId, receiver[k].size, true))
            else Conflict
  {
    if k > 0 {
      assert Agree(sender[0], receiver[0]);
      FirstDifferenceDecides(sender[1..], receiver[1..], k - 1);
    }
  }

  lemma BackOf(front: Bytes, back: Bytes)
    ensures (front + back)[|front|..] == back
  {
  }

  /** In sync does not mean equal: a difference in front of the last 4 MiB of a file is not seen. */
  lemma UnseenDifference(name: Blob, mine: Bytes, theirs: Bytes, tail: Bytes)
    requires |mine| == |theirs| && |tail| == 4 * 1024 * 1024 && |mine + tail| < 0x1_0000_0000_0000_0000
    ensures var sender, receiver := [Item(name, File(mine + tail))], [Item(name, File(theirs + tail))];
      Scannable(sender) && Scannable(receiver) && Diff(Scan(sender), Scan(receiver)) == InSync
  {
    hide Crc32cBytes, FileId, RangeChecksum;
    var sender, receiver := [Item(name, File(mine + tail))], [Item(name, File(theirs + tail))];
    SameRange(mine + tail, theirs + tail);
    BackOf(mine, tail);
    BackOf(theirs, tail);
    SortOne(sender[0]);
    SortOne(receiver[0]);
    hide Sort;
    InSyncMeans(Scan(sender), Scan(receiver));
  }

  /** Entries that agree are passed over. */
  lemma {:induction false} DiffSkips(sender: seq<Entry>, receiver: seq<Entry>, k: nat)
    requires k <= |sender| && k <= |receiver|
    requires forall i :: 0 <= i < k ==> SameIdentity(sender[i], receiver[i]) && SameContent(sender[i], receiver[i])
    ensures Diff(sender, receiver) == Diff(sender[k..], receiver[k..])
  {
    if k > 0 {
      DiffSkips(sender[1..], receiver[1..], k - 1);
      assert sender[1..][k - 1..] == sender[k..] && receiver[1..][k - 1..] == receiver[k..];
    } else {
      assert sender[0..] == sender && receiver[0..] == receiver;
    }
  }
}
