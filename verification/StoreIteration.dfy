/** Range iteration over stacks of caches and prefixed stores. */
module StoreIteration {
  import opened ByteOrder
  import opened MergeIteration
  import opened PrefixRange
  import opened Stores

  // ---------------------------------------------------------------------------------------------
  // Restricting contents to a range

  ghost function Restrict(m: map<Bytes, Bytes>, start: Option<Bytes>, end: Option<Bytes>): map<Bytes, Bytes> {
    map k | k in m && InRange(k, start, end) :: m[k]
  }

  ghost function RestrictReverse(m: map<Bytes, Bytes>, start: Option<Bytes>, end: Option<Bytes>): map<Bytes, Bytes> {
    map k | k in m && InReverseRange(k, start, end) :: m[k]
  }

  /** The dirty entries kept by `newMemIterator`. */
  ghost function RestrictDirty(c: map<Bytes, Option<Bytes>>, start: Option<Bytes>,
                               end: Option<Bytes>): map<Bytes, Option<Bytes>> {
    map k | k in c && MemInDomain(k, start, end) :: c[k]
  }

  /** Cutting both layers to a range and then overlaying them gives the cut of the overlay, for all
      contents, exactly when the bounds are not crossed. */
  lemma ForwardCutExact(start: Option<Bytes>, end: Option<Bytes>)
    ensures (forall m, d :: Overlay(Restrict(m, start, end), RestrictDirty(d, start, end)) == Restrict(Overlay(m, d),
                                                                                                       start, end))
       <==> !BoundsCrossed(start, end)
  {
    GuessIsAscending(start, end);
    if BoundsCrossed(start, end) {
      LessIrreflexive(start.value);
      LessAsymmetric(end.value, start.value);
      var d := map[start.value := Some([])];
      assert start.value in Overlay(Restrict(map[], start, end), RestrictDirty(d, start, end));
      assert start.value !in Restrict(Overlay(map[], d), start, end);
    } else {
      forall m, d ensures Overlay(Restrict(m, start, end), RestrictDirty(d, start, end)) == Restrict(Overlay(m, d),
                                                                                                     start, end) {
        ForwardCut(m, d, start, end);
      }
    }
  }

  lemma ForwardCut(m: map<Bytes, Bytes>, d: map<Bytes, Option<Bytes>>, start: Option<Bytes>, end: Option<Bytes>)
    requires !BoundsCrossed(start, end)
    ensures Overlay(Restrict(m, start, end), RestrictDirty(d, start, end)) == Restrict(Overlay(m, d), start, end)
  {
    GuessIsAscending(start, end);
    var a, b := Overlay(Restrict(m, start, end), RestrictDirty(d, start, end)), Restrict(Overlay(m, d), start, end);
    forall k ensures Lookup(a, k) == Lookup(b, k) {
      OverlayLookup(m, d, k);
      OverlayLookup(Restrict(m, start, end), RestrictDirty(d, start, end), k);
      assert MemInDomain(k, start, end) <==> InRange(k, start, end);
    }
    SameLookup(a, b);
  }

  /** Both bounds open, or both given and `start >= end`. */
  predicate BoundsDescend(start: Option<Bytes>, end: Option<Bytes>) {
    (start.None? && end.None?) || (start.Some? && end.Some? && LessEq(end.value, start.value))
  }

  lemma ReverseCut(m: map<Bytes, Bytes>, d: map<Bytes, Option<Bytes>>, start: Option<Bytes>, end: Option<Bytes>)
    requires BoundsDescend(start, end)
    ensures Overlay(RestrictReverse(m, start, end), RestrictDirty(d, start, end)) == RestrictReverse(Overlay(m, d),
                                                                                                     start, end)
  {
    GuessIsDescending(start, end);
    var a, b := Overlay(RestrictReverse(m, start, end), RestrictDirty(d, start, end)), RestrictReverse(Overlay(m, d),
                                                                                                       start, end);
    forall k ensures Lookup(a, k) == Lookup(b, k) {
      OverlayLookup(m, d, k);
      OverlayLookup(RestrictReverse(m, start, end), RestrictDirty(d, start, end), k);
      assert MemInDomain(k, start, end) <==> InReverseRange(k, start, end);
    }
    SameLookup(a, b);
  }

  // ---------------------------------------------------------------------------------------------
  // Building sorted item lists

  lemma {:induction false} ToMapAt(s: seq<Item>, ascending: bool, i: nat)
    requires Sorted(s, ascending) && i < |s|
    ensures s[i].key in ToMap(s) && ToMap(s)[s[i].key] == s[i].value
  {
    if i > 0 {
      TailSorted(s, ascending);
      ToMapAt(s[1..], ascending, i - 1);
      BeforeTrichotomy(ascending, s[0].key, s[i].key);
    }
  }

  /** `s` mentions exactly the entries of `m`. */
  ghost predicate Mentions(s: seq<Item>, m: map<Bytes, Option<Bytes>>) {
    && (forall i :: 0 <= i < |s| ==> s[i].key in m && m[s[i].key] == s[i].value)
    && (forall k :: k in m ==> exists i :: 0 <= i < |s| && s[i].key == k)
  }

  lemma ListedKey(s: seq<Item>, m: map<Bytes, Option<Bytes>>, k: Bytes)
    requires Mentions(s, m)
    ensures k in ToMap(s) <==> k in m
  {
    KeyVisited(s, k);
  }

  lemma ListedValue(s: seq<Item>, m: map<Bytes, Option<Bytes>>, ascending: bool, k: Bytes)
    requires Sorted(s, ascending) && Mentions(s, m) && k in m
    ensures k in ToMap(s) && ToMap(s)[k] == m[k]
  {
    var i :| 0 <= i < |s| && s[i].key == k;
    ToMapAt(s, ascending, i);
  }

  /** A sorted list that mentions exactly the entries of `m` denotes `m`. */
  lemma ListingDenotes(s: seq<Item>, m: map<Bytes, Option<Bytes>>, ascending: bool)
    requires Sorted(s, ascending) && Mentions(s, m)
    ensures ToMap(s) == m
  {
    forall k ensures k in ToMap(s) <==> k in m {
      ListedKey(s, m, k);
    }
    forall k | k in m ensures ToMap(s)[k] == m[k] {
      ListedValue(s, m, ascending, k);
    }
  }

  /** The entries of `m` as a sorted list; the map may be visited in any order. */
  method SortedItems(m: map<Bytes, Option<Bytes>>, ascending: bool) returns (items: seq<Item>)
    ensures Sorted(items, ascending) && ToMap(items) == m
  {
    var keys := SortKeys(m.Keys, ascending);
    items := [];
    for n := 0 to |keys|
      invariant |items| == n
      invariant forall i :: 0 <= i < n ==> keys[i] in m && items[i] == Item(keys[i], m[keys[i]])
    {
      assert keys[n] in keys;
      items := items + [Item(keys[n], m[keys[n]])];
    }
    forall k | k in m ensures exists i :: 0 <= i < |items| && items[i].key == k {
      assert k in keys;
      var i :| 0 <= i < |keys| && keys[i] == k;
      assert items[i].key == k;
    }
    ListingDenotes(items, m, ascending);
  }

  lemma {:induction false} FilterSorted(s: seq<Item>, ascending: bool, start: Option<Bytes>, end: Option<Bytes>)
    requires Sorted(s, ascending)
    ensures Sorted(FilterDomain(s, start, end), ascending)
    ensures forall x :: x in FilterDomain(s, start, end) <==> x in s && MemInDomain(x.key, start, end)
  {
    if s != [] {
      var n := |s| - 1;
      var f := FilterDomain(s[..n], start, end);
      FilterSorted(s[..n], ascending, start, end);
      assert s == s[..n] + [s[n]];
      forall i | 0 <= i < |f| ensures Before(ascending, f[i].key, s[n].key) {
        assert f[i] in s[..n];
      }
    }
  }

  lemma FilterKeeps(s: seq<Item>, ascending: bool, start: Option<Bytes>, end: Option<Bytes>)
    requires Sorted(s, ascending)
    ensures Sorted(FilterDomain(s, start, end), ascending)
    ensures ToMap(FilterDomain(s, start, end)) == RestrictDirty(ToMap(s), start, end)
  {
    var f, m := FilterDomain(s, start, end), RestrictDirty(ToMap(s), start, end);
    FilterSorted(s, ascending, start, end);
    forall i | 0 <= i < |f| ensures f[i].key in m && m[f[i].key] == f[i].value {
      assert f[i] in s;
      var j :| 0 <= j < |s| && s[j] == f[i];
      ToMapAt(s, ascending, j);
    }
    forall k | k in m ensures exists i :: 0 <= i < |f| && f[i].key == k {
      KeyVisited(s, k);
      var j :| 0 <= j < |s| && s[j].key == k;
      assert s[j] in f;
    }
    ListingDenotes(f, m, ascending);
  }

  // ---------------------------------------------------------------------------------------------
  // Stripping prefixes

  lemma StripEnumerates(r: seq<Item>, m: map<Bytes, Bytes>, p: Bytes)
    requires Enumerates(r, m, true) && AllHavePrefix(r, p)
    ensures Enumerates(Strip(r, p), Unprefix(m, p), true)
  {
    var s := Strip(r, p);
    forall i | 0 <= i < |r| ensures p + s[i].key == r[i].key {
    }
    forall i, j | 0 <= i < j < |s| ensures Less(s[i].key, s[j].key) {
      assert Before(true, r[i].key, r[j].key);
      LessCommonPrefix(p, s[i].key, s[j].key);
    }
    var u := Unprefix(m, p);
    forall i | 0 <= i < |s| ensures s[i].key in u && Some(u[s[i].key]) == s[i].value {
      ToMapAt(r, true, i);
      assert r[i].key in Live(m);
      UnprefixLookup(m, p, s[i].key);
    }
    forall k | k in u ensures exists i :: 0 <= i < |s| && s[i].key == k {
      UnprefixLookup(m, p, k);
      assert p + k in Live(m);
      KeyVisited(r, p + k);
      var i :| 0 <= i < |r| && r[i].key == p + k;
      assert s[i].key == k;
    }
    ListingDenotes(s, Live(u), true);
  }

  /** The range that a prefixed store asks its underlying store for. */
  function InnerStart(p: Bytes, start: Option<Bytes>): Option<Bytes> {
    Some(p + if start.None? then [] else start.value)
  }

  function InnerEnd(p: Bytes, end: Option<Bytes>): Option<Bytes>
    requires p != []
  {
    if end.None? then PrefixEnd(p) else Some(p + end.value)
  }

  lemma InnerRange(p: Bytes, start: Option<Bytes>, end: Option<Bytes>, k: Bytes)
    requires p != []
    ensures InRange(p + k, InnerStart(p, start), InnerEnd(p, end)) <==> InRange(k, start, end)
  {
    LessCommonPrefix(p, k, if start.None? then [] else start.value);
    if end.Some? {
      LessCommonPrefix(p, k, end.value);
    } else {
      assert HasPrefix(p + k, p);
      PrefixIsRange(p, p + k);
    }
  }

  /** Whatever the inner range contains, under either reading of the bounds, has the prefix. */
  lemma InnerHasPrefix(p: Bytes, start: Option<Bytes>, end: Option<Bytes>, k: Bytes)
    requires p != []
    requires InRange(k, InnerStart(p, start), InnerEnd(p, end)) || MemInDomain(k, InnerStart(p, start), InnerEnd(p,
                                                                                                                 end))
    ensures HasPrefix(k, p)
  {
    var a := if start.None? then [] else start.value;
    LessTotal(k, p + a);
    if end.Some? {
      LessTotal(k, p + end.value);
      if InRange(k, InnerStart(p, start), InnerEnd(p, end)) {
        BetweenHasPrefix(p, a, end.value, k);
      } else {
        BetweenHasPrefix(p, end.value, a, k);
      }
    } else {
      InnerNotCrossed(p, start, end);
      GuessIsAscending(InnerStart(p, start), InnerEnd(p, end));
      assert InRange(k, InnerStart(p, start), InnerEnd(p, end));
      PrefixIsRange(p, k);
      PrefixIsLessEq(p, a);
      if Less(k, p) && Less(p, p + a) {
        LessTransitive(k, p, p + a);
      }
    }
  }

  lemma InnerNotCrossed(p: Bytes, start: Option<Bytes>, end: Option<Bytes>)
    requires p != [] && !BoundsCrossed(start, end)
    ensures !BoundsCrossed(InnerStart(p, start), InnerEnd(p, end))
  {
    var a := if start.None? then [] else start.value;
    if end.Some? {
      LessCommonPrefix(p, end.value, a);
    } else if PrefixEnd(p).Some? {
      assert HasPrefix(p + a, p);
      PrefixIsRange(p, p + a);
      LessAsymmetric(p + a, PrefixEnd(p).value);
    }
  }

  lemma PrefixedCut(m: map<Bytes, Bytes>, p: Bytes, start: Option<Bytes>, end: Option<Bytes>)
    requires p != []
    ensures Unprefix(Restrict(m, InnerStart(p, start), InnerEnd(p, end)), p) == Restrict(Unprefix(m, p), start, end)
  {
    var inner := Restrict(m, InnerStart(p, start), InnerEnd(p, end));
    var a, b := Unprefix(inner, p), Restrict(Unprefix(m, p), start, end);
    forall k ensures Lookup(a, k) == Lookup(b, k) {
      InnerRange(p, start, end, k);
      UnprefixLookup(inner, p, k);
      UnprefixLookup(m, p, k);
    }
    SameLookup(a, b);
  }

  // ---------------------------------------------------------------------------------------------
  // Iterating over a store

  /** No prefixed store in the stack. */
  ghost predicate PrefixFree(s: KVStore)
    requires s.Ok()
    reads s.Repr()
    decreases s.Height()
  {
    match s
    case Base(_) => true
    case Cached(c) => PrefixFree(c.parent)
    case Prefixed(_, _) => false
  }

  /** Whether the bottom of the stack is an IAVL tree. */
  ghost predicate OverIavl(s: KVStore)
    requires s.Ok()
    reads s.Repr()
    decreases s.Height()
  {
    match s
    case Base(b) => b.iavl
    case Cached(c) => OverIavl(c.parent)
    case Prefixed(u, _) => OverIavl(u)
  }

  /** The entries that iteration visits. An IAVL tree reads the bounds of a descending iteration as
      an ascending range; a database reads them from high to low. */
  ghost function Yield(s: KVStore, start: Option<Bytes>, end: Option<Bytes>, ascending: bool): map<Bytes, Bytes>
    requires s.Ok() && (ascending || PrefixFree(s))
    reads s.Repr()
    decreases s.Height()
  {
    match s
    case Base(b) => if ascending || b.iavl then Restrict(b.data, start, end) else RestrictReverse(b.data, start, end)
    case Cached(c) => Overlay(Yield(c.parent, start, end, ascending), RestrictDirty(Dirty(c.cache), start, end))
    case Prefixed(u, p) => Unprefix(Yield(u, InnerStart(p, start), InnerEnd(p, end), true), p)
  }

  lemma {:induction false} YieldInDomain(s: KVStore, start: Option<Bytes>, end: Option<Bytes>, k: Bytes)
    requires s.Ok() && k in Yield(s, start, end, true)
    ensures InRange(k, start, end) || MemInDomain(k, start, end)
    decreases s.Height()
  {
    match s
    case Base(b) =>
    case Cached(c) =>
      if k !in RestrictDirty(Dirty(c.cache), start, end) {
        YieldInDomain(c.parent, start, end, k);
      }
    case Prefixed(u, p) =>
      var y := Yield(u, InnerStart(p, start), InnerEnd(p, end), true);
      UnprefixLookup(y, p, k);
      YieldInDomain(u, InnerStart(p, start), InnerEnd(p, end), p + k);
      InnerInDomain(p, start, end, k);
  }

  /** The guessed domain of the inner bounds is, below the prefix, the guessed domain of the outer ones. */
  lemma InnerInDomain(p: Bytes, start: Option<Bytes>, end: Option<Bytes>, k: Bytes)
    requires p != []
    requires MemInDomain(p + k, InnerStart(p, start), InnerEnd(p, end)) || InRange(p + k, InnerStart(p, start),
                                                                                   InnerEnd(p, end))
    ensures InRange(k, start, end) || MemInDomain(k, start, end)
  {
    InnerRange(p, start, end, k);
    if BoundsCrossed(start, end) {
      LessCommonPrefix(p, start.value, k);
      LessCommonPrefix(p, end.value, k);
      LessAsymmetric(end.value, start.value);
    } else {
      InnerNotCrossed(p, start, end);
      GuessIsAscending(InnerStart(p, start), InnerEnd(p, end));
    }
  }

  /** Forward iteration over any stack of caches and prefixes visits exactly the entries of its view
      that lie in the range. */
  lemma {:induction false} YieldForward(s: KVStore, start: Option<Bytes>, end: Option<Bytes>)
    requires s.Ok() && !BoundsCrossed(start, end)
    ensures Yield(s, start, end, true) == Restrict(s.View(), start, end)
    decreases s.Height()
  {
    match s
    case Base(_) =>
    case Cached(c) =>
      YieldForward(c.parent, start, end);
      ForwardCut(c.parent.View(), Dirty(c.cache), start, end);
    case Prefixed(u, p) =>
      InnerNotCrossed(p, start, end);
      YieldForward(u, InnerStart(p, start), InnerEnd(p, end));
      PrefixedCut(u.View(), p, start, end);
  }

  /** Reverse iteration over any stack of caches visits exactly the entries of its view in the range
      that the bottom store reads from the bounds, provided the caches read the same range. */
  lemma {:induction false} YieldReverse(s: KVStore, start: Option<Bytes>, end: Option<Bytes>)
    requires s.Ok() && PrefixFree(s)
    ensures OverIavl(s) && !BoundsCrossed(start, end) ==>
              Yield(s, start, end, false) == Restrict(s.View(), start, end)
    ensures !OverIavl(s) && BoundsDescend(start, end) ==>
              Yield(s, start, end, false) == RestrictReverse(s.View(), start, end)
    decreases s.Height()
  {
    match s
    case Base(_) =>
    case Cached(c) =>
      YieldReverse(c.parent, start, end);
      if OverIavl(s) && !BoundsCrossed(start, end) {
        ForwardCut(c.parent.View(), Dirty(c.cache), start, end);
      } else if !OverIavl(s) && BoundsDescend(start, end) {
        ReverseCut(c.parent.View(), Dirty(c.cache), start, end);
      }
    case Prefixed(_, _) =>
  }

  /** `Iterator` and `ReverseIterator` of every kind of store. The store is left unchanged, and the
      new iterator lists, in strict key order, what `Yield` describes. */
  method NewIterator(s: KVStore, start: Option<Bytes>, end: Option<Bytes>, ascending: bool) returns (it: Iter)
    requires s.Ok() && (ascending || PrefixFree(s))
    ensures fresh(it.Repr()) && it.Ok()
    ensures Enumerates(it.Remaining(), old(Yield(s, start, end, ascending)), ascending)
    decreases s.Height(), 1
  {
    match s
    case Base(b) => it := BaseIterator(b, start, end, ascending);
    case Cached(c) => it := CacheIterator(c, start, end, ascending);
    case Prefixed(u, p) => it := PrefixIterator(u, p, start, end);
  }

  /** The cursor of the underlying database or tree. */
  method BaseIterator(b: BaseStore, start: Option<Bytes>, end: Option<Bytes>, ascending: bool) returns (it: Iter)
    ensures fresh(it.Repr()) && it.Ok()
    ensures Enumerates(it.Remaining(), old(Yield(Base(b), start, end, ascending)), ascending)
  {
    var entries: map<Bytes, Option<Bytes>>;
    if ascending || b.iavl {
      entries := map k | k in b.data && InRange(k, start, end) :: Some(b.data[k]);
      assert entries == Live(Restrict(b.data, start, end));
    } else {
      entries := map k | k in b.data && InReverseRange(k, start, end) :: Some(b.data[k]);
      assert entries == Live(RestrictReverse(b.data, start, end));
    }
    var items := SortedItems(entries, ascending);
    var m := new MemIterator.Over(items);
    it := Mem(m);
  }

  /** `cacheKVStore.iterator`. */
  method CacheIterator(c: CacheKVStore, start: Option<Bytes>, end: Option<Bytes>, ascending: bool) returns (it: Iter)
    requires Cached(c).Ok() && (ascending || PrefixFree(Cached(c)))
    ensures fresh(it.Repr()) && it.Ok()
    ensures Enumerates(it.Remaining(), old(Yield(Cached(c), start, end, ascending)), ascending)
    decreases c.height, 0
  {
    c.parent.ReprAllocated();
    ghost var y := Yield(c.parent, start, end, ascending);
    var cache := DirtyCursor(c.cache, start, end, ascending);
    var parent := NewIterator(c.parent, start, end, ascending);
    MergeIsOverlay(parent.Remaining(), cache.items, y, ascending);
    it := MergeCursors(parent, cache, ascending);
  }

  method MergeCursors(parent: Iter, cache: MemIterator, ascending: bool) returns (it: Iter)
    requires parent.Ok() && cache !in parent.Repr()
    ensures it.Ok() && it.Repr() == parent.Repr() + {cache}
    ensures it.Remaining() == Merge(old(parent.Remaining()), old(cache.items), ascending)
  {
    var g := new CacheMergeIterator(parent, cache, ascending);
    it := Merged(g);
  }

  /** `dirtyItems` handed to `newMemIterator`. */
  method DirtyCursor(c: map<Bytes, CValue>, start: Option<Bytes>, end: Option<Bytes>, ascending: bool)
      returns (m: MemIterator)
    ensures fresh(m) && Sorted(m.items, ascending)
    ensures ToMap(m.items) == RestrictDirty(Dirty(c), start, end)
  {
    var dirty := map k | k in c && c[k].dirty :: c[k].value;
    assert dirty == Dirty(c);
    var items := SortedItems(dirty, ascending);
    FilterKeeps(items, ascending, start, end);
    m := new MemIterator(start, end, items);
  }

  /** `prefixStore.Iterator`. */
  method PrefixIterator(u: KVStore, p: Bytes, start: Option<Bytes>, end: Option<Bytes>) returns (it: Iter)
    requires u.Ok() && p != []
    ensures fresh(it.Repr()) && it.Ok()
    ensures Enumerates(it.Remaining(), old(Yield(Prefixed(u, p), start, end, true)), true)
    decreases u.Height() + 1, 0
  {
    u.ReprAllocated();
    var innerEnd;
    if end.None? {
      innerEnd := PrefixEndBytes(Some(p));
    } else {
      innerEnd := Some(p + end.value);
    }
    var inner := NewIterator(u, InnerStart(p, start), innerEnd, true);
    PrefixKept(u, p, start, end, inner.Remaining());
    it := Stripped(p, inner);
  }

  lemma PrefixKept(u: KVStore, p: Bytes, start: Option<Bytes>, end: Option<Bytes>, r: seq<Item>)
    requires u.Ok() && p != []
    requires Enumerates(r, Yield(u, InnerStart(p, start), InnerEnd(p, end), true), true)
    ensures AllHavePrefix(r, p)
    ensures Enumerates(Strip(r, p), Unprefix(Yield(u, InnerStart(p, start), InnerEnd(p, end), true), p), true)
  {
    var y := Yield(u, InnerStart(p, start), InnerEnd(p, end), true);
    forall i | 0 <= i < |r| ensures HasPrefix(r[i].key, p) {
      KeyVisited(r, r[i].key);
      assert r[i].key in Live(y);
      YieldInDomain(u, InnerStart(p, start), InnerEnd(p, end), r[i].key);
      InnerHasPrefix(p, start, end, r[i].key);
    }
    StripEnumerates(r, y, p);
  }

  /** The `/subspace` query: drains the iterator over `[prefix, PrefixEndBytes(prefix))` and collects
      exactly the store's entries below the prefix, in key order. */
  method Subspace(s: KVStore, prefix: Bytes) returns (kvs: seq<Item>)
    requires s.Ok() && prefix != []
    ensures Enumerates(kvs, map k | k in old(s.View()) && HasPrefix(k, prefix) :: old(s.View())[k], true)
  {
    s.ReprAllocated();
    ghost var m := s.View();
    var end := PrefixEndBytes(Some(prefix));
    ghost var below := map k | k in m && HasPrefix(k, prefix) :: m[k];
    assert below == Restrict(m, Some(prefix), end);
    PrefixNotCrossed(prefix);
    YieldForward(s, Some(prefix), end);
    var it := NewIterator(s, Some(prefix), end, true);
    kvs := Drain(it);
  }

  /** Runs an iterator to its end. */
  method Drain(it: Iter) returns (kvs: seq<Item>)
    requires it.Ok()
    modifies it.Repr()
    ensures kvs == old(it.Remaining())
  {
    kvs := [];
    ghost var all := it.Remaining();
    var more := it.Valid();
    while more
      invariant it.Ok() && kvs + it.Remaining() == all
      invariant more <==> it.Remaining() != []
      decreases |it.Remaining()|
    {
      kvs, more := DrainOnce(it, kvs);
    }
  }

  /** The body of the loop. */
  method DrainOnce(it: Iter, kvs: seq<Item>) returns (kvs': seq<Item>, more: bool)
    requires it.Ok() && it.Remaining() != []
    modifies it.Repr()
    ensures it.Ok() && |it.Remaining()| < |old(it.Remaining())|
    ensures kvs' + it.Remaining() == kvs + old(it.Remaining())
    ensures more <==> it.Remaining() != []
  {
    ghost var rest := it.Remaining();
    var item := Take(it);
    Shift(kvs, rest);
    kvs' := kvs + [item];
    more := it.Valid();
  }

  lemma Shift(kvs: seq<Item>, rest: seq<Item>)
    requires rest != []
    ensures (kvs + [rest[0]]) + rest[1..] == kvs + rest
  {
  }

  method Take(it: Iter) returns (item: Item)
    requires it.Ok() && it.Remaining() != []
    modifies it.Repr()
    ensures it.Ok() && item == old(it.Remaining())[0] && it.Remaining() == old(it.Remaining())[1..]
  {
    var k := it.Key();
    var v := it.Value();
    it.Next();
    item := Item(k, v);
  }

  lemma PrefixNotCrossed(p: Bytes)
    requires p != []
    ensures !BoundsCrossed(Some(p), PrefixEnd(p))
  {
    PrefixIsRange(p, p);
    LessIrreflexive(p);
    if PrefixEnd(p).Some? {
      LessAsymmetric(p, PrefixEnd(p).value);
    }
  }
}
