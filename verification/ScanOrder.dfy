/** Where each entry of a scan stands, told by names and numbers alone: the order and the numbering at the end of
    scan_manifest_stream of src/core/yisync_sync.cpp. */
module ScanOrder {
  import opened Wire
  import opened Messages
  import opened Checksums
  import opened AppendStreams
  import opened ManifestSync

  /** At the first place where they differ `a` has the smaller byte, or `a` ends there. */
  ghost predicate NameFirst(a: Bytes, b: Bytes) {
    exists k :: DiffersAt(a, b, k)
  }

  predicate DiffersAt(a: Bytes, b: Bytes, k: nat) {
    k <= |a| && k < |b| && a[..k] == b[..k] && (k == |a| || a[k] < b[k])
  }

  lemma {:induction false} LexIsFirst(a: Bytes, b: Bytes)
    requires LexLess(a, b)
    ensures NameFirst(a, b)
  {
    if a != [] && a[0] == b[0] {
      LexIsFirst(a[1..], b[1..]);
      var k: nat :| DiffersAt(a[1..], b[1..], k);
      assert a[..k + 1] == [a[0]] + a[1..][..k] && b[..k + 1] == [b[0]] + b[1..][..k];
      assert DiffersAt(a, b, k + 1);
    } else {
      assert DiffersAt(a, b, 0);
    }
  }

  lemma {:induction false} FirstIsLex(a: Bytes, b: Bytes, k: nat)
    requires DiffersAt(a, b, k)
    ensures LexLess(a, b)
  {
    if k > 0 {
      assert a[0] == a[..k][0] == b[..k][0] == b[0];
      assert a[1..][..k - 1] == a[..k][1..] == b[..k][1..] == b[1..][..k - 1];
      FirstIsLex(a[1..], b[1..], k - 1);
    }
  }

  lemma LexMeansFirst(a: Bytes, b: Bytes)
    ensures LexLess(a, b) <==> NameFirst(a, b)
  {
    if LexLess(a, b) {
      LexIsFirst(a, b);
    }
    if NameFirst(a, b) {
      var k: nat :| DiffersAt(a, b, k);
      FirstIsLex(a, b, k);
    }
  }

  /** A regular file at the top level whose id is a number of its name. */
  predicate IsNumbered(e: Entry) { e.kind == REGULAR_FILE && SLASH !in e.name && e.fileId < 0x8000_0000_0000_0000 }

  /** The entries of a scan are numbered from 1 in this order: numbered files, by number; then everything else, by name. */
  lemma ScanStands(items: seq<Item>, i: nat, j: nat)
    requires Scannable(items) && i < |Scan(items)| && j < |Scan(items)| && i != j
    ensures var e, f := Scan(items)[i], Scan(items)[j];
      && e.seqNo == i + 1
      && (i < j <==> if IsNumbered(e) && IsNumbered(f) then e.fileId < f.fileId
                     else if IsNumbered(e) || IsNumbered(f) then IsNumbered(e)
                     else NameFirst(e.name, f.name))
  {
    hide FileId, LexLess, Sort;
    SortSorts(items);
    SortLength(items);
    SortDistinct(items);
    var s := Sort(items);
    assert s[i] in s && s[j] in s;
    BeforeTotal(s[i], s[j]);
    LexMeansFirst(s[i].name, s[j].name);
    assert Before(s[i], s[j]) <==> i < j;
    hide NameFirst, RangeChecksum;
  }

  /** A directory stands before everything in it. */
  lemma DirectoryStandsFirst(items: seq<Item>, i: nat, j: nat, rest: Bytes)
    requires Scannable(items) && i < |Scan(items)| && j < |Scan(items)|
    requires Scan(items)[i].kind == DIRECTORY && Scan(items)[j].name == Scan(items)[i].name + [SLASH] + rest
    ensures i < j
  {
    hide Scan, LexLess;
    var d, inner := Scan(items)[i].name, Scan(items)[j].name;
    ScanStands(items, i, j);
    assert inner[|d|] == SLASH;
    assert inner[..|d|] == d && d[..|d|] == d;
    assert DiffersAt(d, inner, |d|);
  }

  /** What an entry says of its item: kind, target and size, and of a file's last 4 MiB where they are and their CRC-32C. */
  predicate Describes(e: Entry, x: Item)
    requires Sized(x)
  {
    && e.name == x.name && e.fileId == IdOf(x)
    && match x.node
       case File(content) =>
         var len := if |content| <= 4 * 1024 * 1024 then |content| else 4 * 1024 * 1024;
         && e.kind == 1 && e.linkTarget == [] && e.size == |content|
         && e.checksum.algo == (if content == [] then 0 else 1) && e.checksum.len == len && e.checksum.offset + len == |content|
         && e.checksum.value == if content == [] then [] else Crc32cBytes(content[|content| - len..])
       case Directory => e.kind == 2 && e.linkTarget == [] && e.size == 0 && e.checksum == Checksum(0, 0, 0, [])
       case Symlink(target) => e.kind == 3 && e.linkTarget == target && e.size == 0 && e.checksum == Checksum(0, 0, 0, [])
  }

  lemma EntryDescribes(x: Item, seqNo: U64)
    requires Sized(x)
    ensures Describes(EntryOf(x, seqNo), x)
  {
    hide FileId, Crc32cBytes;
  }

  /** Every item has its entry, */
  lemma ScanHasAll(items: seq<Item>, x: Item)
    requires Scannable(items) && x in items
    ensures exists i :: 0 <= i < |Scan(items)| && Describes(Scan(items)[i], x)
  {
    hide FileId, Sort, Crc32cBytes, EntryOf, Describes;
    SortSorts(items);
    SortLength(items);
    var i :| 0 <= i < |Sort(items)| && Sort(items)[i] == x;
    EntryDescribes(x, i + 1);
    assert Describes(Scan(items)[i], x);
  }

  /** and every entry its item. */
  lemma ScanHasNoMore(items: seq<Item>, i: nat)
    requires Scannable(items) && i < |Scan(items)|
    ensures exists x <- items :: Describes(Scan(items)[i], x)
  {
    hide FileId, Sort, Crc32cBytes, EntryOf, Describes;
    SortSorts(items);
    SortLength(items);
    var x := Sort(items)[i];
    assert x in Sort(items);
    EntryDescribes(x, i + 1);
  }

  // ---------- Ids ----------

  /** The decimal digits of a number, without leading zeros. */
  function Decimal(n: nat): (digits: Bytes)
    ensures |digits| > 0
  {
    if n < 10 then [48 + n] else Decimal(n / 10) + [48 + n % 10]
  }

  lemma {:induction false} ParsesDecimal(n: U64)
    ensures ParseDigits(Decimal(n)) == Some(n)
  {
    var digits := Decimal(n);
    if n >= 10 {
      ParsesDecimal(n / 10);
      assert digits[..|digits| - 1] == Decimal(n / 10);
    } else {
      assert digits[..0] == [];
    }
  }

  /** Leading zeros do not matter, */
  lemma {:induction false} LeadingZero(digits: Bytes)
    ensures ParseDigits([48] + digits) == ParseDigits(digits)
  {
    var longer := [48] + digits;
    if digits == [] {
      assert longer[..0] == [];
    } else {
      LeadingZero(digits[..|digits| - 1]);
      assert longer[..|longer| - 1] == [48] + digits[..|digits| - 1];
    }
  }

  /** and what is not a digit or does not fit 64 bits is no number. */
  lemma {:induction false} NotDigits(digits: Bytes, i: nat)
    requires i < |digits| && !(48 <= digits[i] <= 57)
    ensures ParseDigits(digits).None?
  {
    if i < |digits| - 1 {
      NotDigits(digits[..|digits| - 1], i);
    }
  }

  lemma {:induction false} TooLarge(n: nat)
    requires n >= 0x1_0000_0000_0000_0000
    ensures ParseDigits(Decimal(n)).None?
  {
    assert Decimal(n)[..|Decimal(n)| - 1] == Decimal(n / 10);
    if n / 10 < 0x1_0000_0000_0000_0000 {
      ParsesDecimal(n / 10);
    } else {
      TooLarge(n / 10);
    }
  }

  lemma {:induction false} NoSlash(n: nat)
    ensures SLASH !in Decimal(n)
  {
    if n >= 10 {
      NoSlash(n / 10);
    }
  }

  /** "<n>.file" at the top level has the id `n`; every other entry's id has the highest of its 64 bits set. */
  lemma NumberedName(n: U64)
    requires |Decimal(n) + SUFFIX| < 0x1_0000_0000
    ensures FileId(Decimal(n) + SUFFIX, REGULAR_FILE) == n
  {
    ParsesDecimal(n);
    NoSlash(n);
    var name := Decimal(n) + SUFFIX;
    assert name[|name| - 5..] == SUFFIX && name[..|name| - 5] == Decimal(n);
  }

  lemma PathIdIsHigh(name: Blob)
    ensures StablePathId(name) >= 0x8000_0000_0000_0000
  {
    HighBit(Hash(name));
  }

  lemma HighBit(h: bv64)
    ensures h | 0x8000_0000_0000_0000 >= 0x8000_0000_0000_0000
  {
  }

  lemma OneBeforeTheOther(a: Item, b: Item)
    requires a.node.File? && b.node.File? && a.name == Decimal(1) + SUFFIX && b.name == Decimal(2) + SUFFIX
    ensures Before(a, b) && !Before(b, a)
  {
    NumberedName(1);
    NumberedName(2);
    NoSlash(1);
    NoSlash(2);
    hide FileId, ParseFileId, LexLess, Decimal;
  }

  /** The hash of the name "ab", and of its first byte. */
  lemma NamesHash(a: Bytes, ab: Bytes)
    requires a == [97] && ab == [97, 98]
    ensures Hash(a) == 0x44BD_8AD4_73CD_9906 && Hash(ab) == 0x9BAC_4B00_C65B_A4EC
  {
    hide Mix;
    assert a[..0] == [] && ab[..1] == a;
    AsBits(a[0], ab[1]);
    FirstMix(1469598103934665603, 97);
    SecondMix(0x44BD_8AD4_73CD_9906, 98);
  }

  lemma AsBits(a: Byte, b: Byte)
    requires a == 97 && b == 98
    ensures a as bv64 == 97 && b as bv64 == 98
  {
  }

  lemma FirstMix(hash: bv64, b: bv64)
    requires hash == 1469598103934665603 && b == 97
    ensures Mix(hash, b) == 0x44BD_8AD4_73CD_9906
  {
  }

  lemma SecondMix(hash: bv64, b: bv64)
    requires hash == 0x44BD_8AD4_73CD_9906 && b == 98
    ensures Mix(hash, b) == 0x9BAC_4B00_C65B_A4EC
  {
  }

  /** "1.file" and "2.file" stand in that order, however the directory is listed. */
  lemma OneBeforeTwo(one: Bytes, two: Bytes)
    requires |one| < 0x1_0000_0000_0000_0000 && |two| < 0x1_0000_0000_0000_0000
    ensures var a, b := Item(Decimal(1) + SUFFIX, File(one)), Item(Decimal(2) + SUFFIX, File(two));
      Sort([a, b]) == Sort([b, a]) == [a, b]
  {
    var a, b := Item(Decimal(1) + SUFFIX, File(one)), Item(Decimal(2) + SUFFIX, File(two));
    OneBeforeTheOther(a, b);
    SortOne(a);
    SortOne(b);
    hide Before, Decimal;
    assert [a, b][1..] == [b] && [b, a][1..] == [a] && [b][1..] == [];
    assert Insert(b, []) == [b];
  }
}
