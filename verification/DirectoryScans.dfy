/** Directories and their scans: what a receiver that is behind holds, how it scans, and the difference that
    diff_stream of src/core/yisync_sync.cpp finds there. */
module DirectoryScans {
  import opened Wire
  import opened Messages
  import opened AppendStreams
  import opened ManifestSync

  // ---------- What the receiver has ----------

  /** `items` lists the directory, in any order. */
  predicate Lists(disk: map<Blob, Node>, items: seq<Item>) {
    && (forall x <- items :: x.name in disk && disk[x.name] == x.node)
    && (forall name <- disk :: Item(name, disk[name]) in items)
  }

  function DiskOf(items: seq<Item>): map<Blob, Node> {
    if items == [] then map[]
    else DiskOf(items[..|items| - 1])[items[|items| - 1].name := items[|items| - 1].node]
  }

  /** The sender's items in scan order. */
  predicate Ordered(s: seq<Item>) { Scannable(s) && Sorted(s) && |s| < 0xFFFF_FFFF }

  /** At most one file is short: a proper prefix of item `k`. */
  predicate IsShort(s: seq<Item>, k: nat, short: Option<Bytes>) {
    short.Some? ==> k < |s| && s[k].node.File? && short.value < s[k].node.content
  }

  function ShortItem(s: seq<Item>, k: nat, short: Option<Bytes>): seq<Item>
    requires IsShort(s, k, short)
  {
    if short.Some? then [Item(s[k].name, File(short.value))] else []
  }

  /** The first `k` items are complete, and the next one may have begun. */
  function Has(s: seq<Item>, k: nat, short: Option<Bytes>): seq<Item>
    requires k <= |s| && IsShort(s, k, short)
  {
    s[..k] + ShortItem(s, k, short)
  }

  lemma ListsOneMore(disk: map<Blob, Node>, items: seq<Item>, last: Item)
    requires Lists(disk, items) && forall x <- items :: x.name != last.name
    ensures Lists(disk[last.name := last.node], items + [last])
  {
    var more := disk[last.name := last.node];
    forall name <- more ensures Item(name, more[name]) in items + [last] {
      if name != last.name {
        assert Item(name, disk[name]) in items;
      } else {
        assert (items + [last])[|items|] == last;
      }
    }
  }

  lemma {:induction false} DiskLists(s: seq<Item>)
    requires Distinct(s)
    ensures Lists(DiskOf(s), s)
  {
    hide IdOf, Lists;
    if s == [] {
      NothingListed();
    } else {
      var n := |s| - 1;
      DiskLists(s[..n]);
      forall x <- s[..n] ensures x.name != s[n].name {
        var i :| 0 <= i < n && s[i] == x;
      }
      ListsOneMore(DiskOf(s[..n]), s[..n], s[n]);
      assert s == s[..n] + [s[n]];
    }
  }

  lemma NothingListed()
    ensures Lists(map[], [])
  {
  }

  lemma ListsSame(disk: map<Blob, Node>, a: seq<Item>, b: seq<Item>)
    requires Lists(disk, a) && Lists(disk, b)
    ensures forall x :: x in a <==> x in b
  {
    forall x | x in a ensures x in b { assert x == Item(x.name, disk[x.name]); }
    forall x | x in b ensures x in a { assert x == Item(x.name, disk[x.name]); }
  }

  /** A short file stands where the whole one would. */
  lemma HasOrdered(s: seq<Item>, k: nat, short: Option<Bytes>)
    requires Ordered(s) && k <= |s| && IsShort(s, k, short)
    ensures Scannable(Has(s, k, short)) && Sorted(Has(s, k, short))
  {
    hide FileId, LexLess;
    var h := Has(s, k, short);
    assert forall i :: 0 <= i < |h| ==> h[i].name == s[i].name && h[i].node.File? == s[i].node.File?
                                        && KindOf(h[i].node) == KindOf(s[i].node) && IdOf(h[i]) == IdOf(s[i]);
    forall i | 0 <= i < |h| ensures Sized(h[i]) {
      assert s[i] in s;
    }
    forall i, j | 0 <= i < j < |h| ensures Before(h[i], h[j]) {
      assert Before(s[i], s[j]);
    }
    hide Before, IdOf;
  }

  /** Re-scanning finds the same order and the same numbers, however the directory is iterated. */
  lemma RescanKeepsOrder(s: seq<Item>, k: nat, short: Option<Bytes>, held: seq<Item>)
    requires Ordered(s) && k <= |s| && IsShort(s, k, short) && Scannable(held)
    requires forall x :: x in held <==> x in Has(s, k, short)
    ensures Scannable(Has(s, k, short)) && Sort(held) == Has(s, k, short) && Scan(held) == Numbered(Has(s, k, short))
  {
    hide Before, IdOf, Sort;
    HasOrdered(s, k, short);
    SortSorts(held);
    SortedIsUnique(Sort(held), Has(s, k, short));
  }

  // ---------- The difference ----------

  /** Where the receiver's items end: at item `k`, or inside it. */
  function Gap(s: seq<Item>, k: nat, short: Option<Bytes>): Difference
    requires Ordered(s) && k <= |s| && IsShort(s, k, short)
  {
    if k == |s| then InSync
    else
      assert s[k] in s;
      StartAt(Start(IdOf(s[k]), if short.Some? then |short.value| else 0, short.Some?))
  }

  lemma EntriesAgree(s: seq<Item>, h: seq<Item>, i: nat)
    requires Scannable(s) && Scannable(h) && i < |s| && i < |h| && s[i] == h[i]
    ensures SameIdentity(Numbered(s)[i], Numbered(h)[i]) && SameContent(Numbered(s)[i], Numbered(h)[i])
  {
    hide IdOf, RangeChecksum;
  }

  /** diff_stream finds the first incomplete item, and how much of it is there. */
  lemma DiffFindsTheGap(s: seq<Item>, k: nat, short: Option<Bytes>)
    requires Ordered(s) && k <= |s| && IsShort(s, k, short) && Scannable(Has(s, k, short))
    ensures Diff(Numbered(s), Numbered(Has(s, k, short))) == Gap(s, k, short)
  {
    hide IdOf, RangeChecksum, Numbered;
    var h := Has(s, k, short);
    var mine, theirs := Numbered(s), Numbered(h);
    forall i | 0 <= i < k ensures SameIdentity(mine[i], theirs[i]) && SameContent(mine[i], theirs[i]) {
      EntriesAgree(s, h, i);
    }
    DiffSkips(mine, theirs, k);
    if k < |s| {
      assert mine[k..][0] == EntryOf(s[k], k + 1);
      if short.Some? {
        assert theirs[k..][0] == EntryOf(h[k], k + 1);
        assert IdOf(h[k]) == IdOf(s[k]) by { SameId(h[k], s[k]); }
      }
    }
  }

  lemma SameId(a: Item, b: Item)
    requires a.name == b.name && KindOf(a.node) == KindOf(b.node)
    ensures IdOf(a) == IdOf(b)
  {
  }
}
