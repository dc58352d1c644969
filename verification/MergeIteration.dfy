/** Iterators over key ranges: the cursor over dirty items (`memIterator`), the merge of a parent
    cursor with a cache cursor (`cacheMergeIterator`) and the prefix-stripping wrapper
    (`prefixIterator`), nested in each other to any depth. */
module MergeIteration {
  import opened ByteOrder

  /** One cursor position. In a cache cursor a `None` value marks a deleted key. */
  datatype Item = Item(key: Bytes, value: Option<Bytes>)

  // ---------------------------------------------------------------------------------------------
  // Sequences of items as finite maps

  /** `a` is visited before `b` in the given direction. */
  predicate Before(ascending: bool, a: Bytes, b: Bytes) {
    if ascending then Less(a, b) else Less(b, a)
  }

  ghost predicate Sorted(s: seq<Item>, ascending: bool) {
    forall i, j :: 0 <= i < j < |s| ==> Before(ascending, s[i].key, s[j].key)
  }

  ghost function ToMap(s: seq<Item>): map<Bytes, Option<Bytes>> {
    if s == [] then map[] else ToMap(s[1..])[s[0].key := s[0].value]
  }

  ghost function Live(m: map<Bytes, Bytes>): map<Bytes, Option<Bytes>> {
    map k | k in m :: Some(m[k])
  }

  /** `s` visits every entry of `m` exactly once, in strict key order. */
  ghost predicate Enumerates(s: seq<Item>, m: map<Bytes, Bytes>, ascending: bool) {
    Sorted(s, ascending) && ToMap(s) == Live(m)
  }

  /** The contents seen through a layer of dirty entries, where `None` hides a key. */
  function Overlay(p: map<Bytes, Bytes>, c: map<Bytes, Option<Bytes>>): map<Bytes, Bytes> {
    map k | k in p.Keys + c.Keys && (k in c ==> c[k].Some?) :: if k in c then c[k].value else p[k]
  }

  lemma BeforeTransitive(ascending: bool, a: Bytes, b: Bytes, c: Bytes)
    requires Before(ascending, a, b) && Before(ascending, b, c)
    ensures Before(ascending, a, c)
  {
    if ascending {
      LessTransitive(a, b, c);
    } else {
      LessTransitive(c, b, a);
    }
  }

  lemma BeforeTrichotomy(ascending: bool, a: Bytes, b: Bytes)
    ensures Before(ascending, a, b) ==> a != b && !Before(ascending, b, a)
    ensures a == b || Before(ascending, a, b) || Before(ascending, b, a)
  {
    Trichotomy(a, b);
  }

  /** The keys of `ToMap(s)` are the keys visited by `s`. */
  lemma {:induction false} KeyVisited(s: seq<Item>, k: Bytes)
    ensures k in ToMap(s) <==> exists i :: 0 <= i < |s| && s[i].key == k
  {
    if s != [] {
      KeyVisited(s[1..], k);
      if k in ToMap(s[1..]) {
        var i :| 0 <= i < |s[1..]| && s[1..][i].key == k;
        assert s[i + 1].key == k;
      }
      if i :| 0 <= i < |s| && s[i].key == k {
        assert i == 0 || s[1..][i - 1].key == k;
      }
    }
  }

  /** The first key of a sorted sequence precedes all other keys. */
  lemma HeadFirst(s: seq<Item>, ascending: bool, k: Bytes)
    requires s != [] && Sorted(s, ascending)
    ensures k in ToMap(s[1..]) ==> Before(ascending, s[0].key, k)
    ensures s[0].key !in ToMap(s[1..])
  {
    KeyVisited(s[1..], k);
    KeyVisited(s[1..], s[0].key);
    BeforeTrichotomy(ascending, s[0].key, s[0].key);
  }

  lemma TailSorted(s: seq<Item>, ascending: bool)
    requires s != [] && Sorted(s, ascending)
    ensures Sorted(s[1..], ascending)
  {
  }

  lemma EmptyListing(s: seq<Item>)
    ensures s == [] <==> ToMap(s) == map[]
  {
    if s != [] {
      assert s[0].key in ToMap(s);
    }
  }

  /** A strictly ordered listing is determined by its contents. */
  lemma {:induction false} EnumerationUnique(a: seq<Item>, b: seq<Item>, ascending: bool)
    requires Sorted(a, ascending) && Sorted(b, ascending)
    requires ToMap(a) == ToMap(b)
    ensures a == b
  {
    EmptyListing(a);
    EmptyListing(b);
    if a != [] && b != [] {
      HeadFirst(a, ascending, b[0].key);
      HeadFirst(b, ascending, a[0].key);
      BeforeTrichotomy(ascending, a[0].key, b[0].key);
      assert a[0].key in ToMap(a) && b[0].key in ToMap(b);
      assert a[0].key == b[0].key;
      assert ToMap(a)[a[0].key] == a[0].value && ToMap(b)[a[0].key] == b[0].value;
      assert ToMap(a[1..]) == ToMap(a) - {a[0].key};
      assert ToMap(b[1..]) == ToMap(b) - {a[0].key};
      EnumerationUnique(a[1..], b[1..], ascending);
      assert a == [a[0]] + a[1..] && b == [b[0]] + b[1..];
    }
  }

  // ---------------------------------------------------------------------------------------------
  // The merge as a function of the two remaining sequences

  /** What a merge iterator still has to yield. The cache shadows the parent; a `None` in the
      cache hides the parent's entry of the same key and is itself never yielded. */
  ghost function Merge(p: seq<Item>, c: seq<Item>, ascending: bool): seq<Item>
    decreases |p| + |c|
  {
    if c == [] then p
    else if p == [] || Before(ascending, c[0].key, p[0].key) then
      (if c[0].value.None? then [] else [c[0]]) + Merge(p, c[1..], ascending)
    else if p[0].key == c[0].key then
      (if c[0].value.None? then [] else [c[0]]) + Merge(p[1..], c[1..], ascending)
    else [p[0]] + Merge(p[1..], c, ascending)
  }

  /** Splitting off the first entry of a listing. */
  lemma EnumeratesTail(s: seq<Item>, m: map<Bytes, Bytes>, ascending: bool)
    requires s != [] && Enumerates(s, m, ascending)
    ensures s[0].key in m && s[0].value == Some(m[s[0].key])
    ensures Enumerates(s[1..], m - {s[0].key}, ascending)
    ensures forall k :: k in m && k != s[0].key ==> Before(ascending, s[0].key, k)
  {
    var h := s[0].key;
    assert h in ToMap(s) && ToMap(s)[h] == s[0].value;
    assert h in Live(m) && Live(m)[h] == Some(m[h]);
    HeadFirst(s, ascending, h);
    assert ToMap(s[1..]) == ToMap(s) - {h};
    assert ToMap(s[1..]) == Live(m - {h});
    forall k | k in m && k != h ensures Before(ascending, h, k) {
      assert k in Live(m);
      HeadFirst(s, ascending, k);
    }
  }

  /** Putting a smaller entry in front of a listing. */
  lemma EnumeratesCons(x: Item, s: seq<Item>, m: map<Bytes, Bytes>, ascending: bool)
    requires x.value.Some? && Enumerates(s, m, ascending)
    requires forall k :: k in m ==> Before(ascending, x.key, k)
    ensures Enumerates([x] + s, m[x.key := x.value.value], ascending)
  {
    var r := [x] + s;
    assert r[1..] == s;
    assert ToMap(r) == Live(m[x.key := x.value.value]);
    forall i, j | 0 <= i < j < |r| ensures Before(ascending, r[i].key, r[j].key) {
      if i == 0 {
        KeyVisited(s, r[j].key);
        assert s[j - 1].key == r[j].key;
        assert r[j].key in Live(m);
      }
    }
  }

  /** Merging two strictly ordered cursors, in either direction, yields the overlaid map in
      strict order. */
  lemma {:induction false} MergeIsOverlay(p: seq<Item>, c: seq<Item>, m: map<Bytes, Bytes>, ascending: bool)
    requires Enumerates(p, m, ascending) && Sorted(c, ascending)
    ensures Enumerates(Merge(p, c, ascending), Overlay(m, ToMap(c)), ascending)
    decreases |p| + |c|
  {
    if c == [] {
      assert Overlay(m, ToMap(c)) == m;
    } else if p == [] || Before(ascending, c[0].key, p[0].key) {
      MergeCacheFirst(p, c, m, ascending);
    } else if p[0].key == c[0].key {
      MergeSameKey(p, c, m, ascending);
    } else {
      MergeParentFirst(p, c, m, ascending);
    }
  }

  /** Overlaying one more dirty entry. */
  lemma OverlayDirty(m: map<Bytes, Bytes>, c: map<Bytes, Option<Bytes>>, h: Bytes, v: Option<Bytes>)
    requires h !in c
    ensures v.None? ==> Overlay(m, c[h := v]) == Overlay(m - {h}, c)
    ensures v.Some? ==> Overlay(m, c[h := v]) == Overlay(m - {h}, c)[h := v.value]
  {
  }

  /** Overlaying one more parent entry that the cache does not shadow. */
  lemma OverlayParent(m: map<Bytes, Bytes>, c: map<Bytes, Option<Bytes>>, h: Bytes)
    requires h !in c && h in m
    ensures Overlay(m, c) == Overlay(m - {h}, c)[h := m[h]]
  {
  }

  /** Prepending the cache's first item, unless it is a delete marker. */
  lemma ConsDirty(x: Item, rest: seq<Item>, m: map<Bytes, Bytes>, c: map<Bytes, Option<Bytes>>, ascending: bool)
    requires x.key !in c && Enumerates(rest, Overlay(m - {x.key}, c), ascending)
    requires forall k :: k in c || (k in m && k != x.key) ==> Before(ascending, x.key, k)
    ensures Enumerates((if x.value.None? then [] else [x]) + rest, Overlay(m, c[x.key := x.value]), ascending)
  {
    OverlayDirty(m, c, x.key, x.value);
    if x.value.Some? {
      EnumeratesCons(x, rest, Overlay(m - {x.key}, c), ascending);
    } else {
      assert [] + rest == rest;
    }
  }

  lemma MergeCacheFirst(p: seq<Item>, c: seq<Item>, m: map<Bytes, Bytes>, ascending: bool)
    requires Enumerates(p, m, ascending) && Sorted(c, ascending) && c != []
    requires p == [] || Before(ascending, c[0].key, p[0].key)
    ensures Enumerates(Merge(p, c, ascending), Overlay(m, ToMap(c)), ascending)
    decreases |p| + |c|, 0
  {
    var h := c[0].key;
    MergeIsOverlay(p, c[1..], m, ascending);
    forall k | k in m ensures Before(ascending, h, k) && k != h {
      AfterParentHead(h, p, m, ascending, k);
      BeforeTrichotomy(ascending, h, k);
    }
    forall k | k in ToMap(c[1..]) ensures Before(ascending, h, k) {
      HeadFirst(c, ascending, k);
    }
    HeadFirst(c, ascending, h);
    assert m - {h} == m;
    ConsDirty(c[0], Merge(p, c[1..], ascending), m, ToMap(c[1..]), ascending);
  }

  /** A key before the parent's first key is before all of the parent's keys. */
  lemma AfterParentHead(h: Bytes, p: seq<Item>, m: map<Bytes, Bytes>, ascending: bool, k: Bytes)
    requires Enumerates(p, m, ascending) && k in m
    requires p == [] || Before(ascending, h, p[0].key)
    ensures Before(ascending, h, k)
  {
    assert k in Live(m);
    if p != [] && k != p[0].key {
      HeadFirst(p, ascending, k);
      BeforeTransitive(ascending, h, p[0].key, k);
    }
  }

  lemma MergeSameKey(p: seq<Item>, c: seq<Item>, m: map<Bytes, Bytes>, ascending: bool)
    requires Enumerates(p, m, ascending) && Sorted(c, ascending) && c != [] && p != []
    requires p[0].key == c[0].key
    ensures Enumerates(Merge(p, c, ascending), Overlay(m, ToMap(c)), ascending)
    decreases |p| + |c|, 0
  {
    var h := c[0].key;
    EnumeratesTail(p, m, ascending);
    MergeIsOverlay(p[1..], c[1..], m - {h}, ascending);
    forall k | k in ToMap(c[1..]) ensures Before(ascending, h, k) {
      HeadFirst(c, ascending, k);
    }
    HeadFirst(c, ascending, h);
    BeforeTrichotomy(ascending, h, h);
    ConsDirty(c[0], Merge(p[1..], c[1..], ascending), m, ToMap(c[1..]), ascending);
  }

  lemma MergeParentFirst(p: seq<Item>, c: seq<Item>, m: map<Bytes, Bytes>, ascending: bool)
    requires Enumerates(p, m, ascending) && Sorted(c, ascending) && c != [] && p != []
    requires p[0].key != c[0].key && !Before(ascending, c[0].key, p[0].key)
    ensures Enumerates(Merge(p, c, ascending), Overlay(m, ToMap(c)), ascending)
    decreases |p| + |c|, 0
  {
    var h := p[0].key;
    BeforeTrichotomy(ascending, h, c[0].key);
    EnumeratesTail(p, m, ascending);
    MergeIsOverlay(p[1..], c, m - {h}, ascending);
    forall k | k in ToMap(c) ensures Before(ascending, h, k) && k != h {
      if k != c[0].key {
        HeadFirst(c, ascending, k);
        BeforeTransitive(ascending, h, c[0].key, k);
      }
      BeforeTrichotomy(ascending, h, k);
    }
    OverlayParent(m, ToMap(c), h);
    EnumeratesCons(p[0], Merge(p[1..], c, ascending), Overlay(m - {h}, ToMap(c)), ascending);
  }

  // ---------------------------------------------------------------------------------------------
  // Key ranges

  /** The ascending domain: from `start` inclusive to `end` exclusive, `None` meaning unbounded. */
  predicate InRange(k: Bytes, start: Option<Bytes>, end: Option<Bytes>) {
    (start.None? || !Less(k, start.value)) && (end.None? || Less(k, end.value))
  }

  /** The descending domain: from `start` inclusive down to `end` exclusive. */
  predicate InReverseRange(k: Bytes, start: Option<Bytes>, end: Option<Bytes>) {
    (start.None? || !Less(start.value, k)) && (end.None? || Less(end.value, k))
  }

  /** `keyCompare`: like `Compare`, except that a missing bound on either side gives -1. */
  function KeyCompare(a: Option<Bytes>, b: Option<Bytes>): int {
    if a.None? && b.None? then 0
    else if a.None? || b.None? then -1
    else Compare(a.value, b.value)
  }

  /** The domain test of `newMemIterator`, which guesses the direction from the bounds. */
  predicate MemInDomain(k: Bytes, start: Option<Bytes>, end: Option<Bytes>) {
    if KeyCompare(start, end) < 0 then InRange(k, start, end) else InReverseRange(k, start, end)
  }

  predicate BoundsCrossed(start: Option<Bytes>, end: Option<Bytes>) {
    start.Some? && end.Some? && Less(end.value, start.value)
  }

  /** The guess agrees with the ascending domain on every key exactly when the bounds are not crossed. */
  lemma GuessIsAscending(start: Option<Bytes>, end: Option<Bytes>)
    ensures (forall k :: MemInDomain(k, start, end) <==> InRange(k, start, end)) <==> !BoundsCrossed(start, end)
  {
    if BoundsCrossed(start, end) {
      LessIrreflexive(start.value);
      LessAsymmetric(end.value, start.value);
      assert MemInDomain(start.value, start, end) && !InRange(start.value, start, end);
    } else if start.Some? && end.Some? && start == end {
      forall k ensures !InRange(k, start, end) && !InReverseRange(k, start, end) {
        Trichotomy(k, start.value);
      }
    } else if start.Some? && end.Some? {
      LessTotal(start.value, end.value);
    }
  }

  /** With crossed bounds the guess takes in keys outside the ascending domain. */
  lemma CrossedBoundsGuessWrong()
    ensures MemInDomain([1], Some([2]), Some([0])) && !InRange([1], Some([2]), Some([0]))
  {
    assert Less([1], [2]) && Less([0], [1]) && Less([0], [2]);
  }

  /** The guess agrees with the descending domain on every key exactly when both bounds are open
      or both are given with `start >= end`. */
  lemma GuessIsDescending(start: Option<Bytes>, end: Option<Bytes>)
    ensures (forall k :: MemInDomain(k, start, end) <==> InReverseRange(k, start, end))
       <==> (start.None? && end.None?) || (start.Some? && end.Some? && LessEq(end.value, start.value))
  {
    if start.Some? && end.Some? {
      Trichotomy(start.value, end.value);
      if Less(start.value, end.value) {
        LessIrreflexive(start.value);
        assert MemInDomain(start.value, start, end) && !InReverseRange(start.value, start, end);
      }
    } else if start.Some? {
      var k := start.value + [0];
      LessCommonPrefix(start.value, [], [0]);
      assert start.value + [] == start.value;
      LessAsymmetric(start.value, k);
      assert MemInDomain(k, start, end) && !InReverseRange(k, start, end);
    } else if end.Some? {
      var k := end.value + [0];
      LessCommonPrefix(end.value, [], [0]);
      assert end.value + [] == end.value;
      LessAsymmetric(end.value, k);
      assert !MemInDomain(k, start, end) && InReverseRange(k, start, end);
    }
  }

  // ---------------------------------------------------------------------------------------------
  // Iterators as objects

  /** `memIterator`: a cursor over a list of items. It also stands for the cursor that an
      underlying database hands out. */
  class MemIterator {
    var items: seq<Item>

    /** `newMemIterator`: keeps the items of the guessed domain. */
    constructor (start: Option<Bytes>, end: Option<Bytes>, all: seq<Item>)
      ensures items == FilterDomain(all, start, end)
    {
      items := [];
      new;
      for n := 0 to |all|
        invariant items == FilterDomain(all[..n], start, end)
      {
        assert all[..n + 1][..n] == all[..n];
        if MemInDomain(all[n].key, start, end) {
          items := items + [all[n]];
        }
      }
      assert all[..|all|] == all;
    }

    constructor Over(all: seq<Item>)
      ensures items == all
    {
      items := all;
    }

    method Valid() returns (b: bool)
      ensures b <==> items != []
    {
      b := |items| > 0;
    }

    method Next()
      requires items != []
      modifies this
      ensures items == old(items)[1..]
    {
      items := items[1..];
    }
  }

  function FilterDomain(s: seq<Item>, start: Option<Bytes>, end: Option<Bytes>): seq<Item> {
    if s == [] then []
    else FilterDomain(s[..|s| - 1], start, end) +
         (if MemInDomain(s[|s| - 1].key, start, end) then [s[|s| - 1]] else [])
  }

  /** An iterator: a plain cursor, a merge of a parent with a cache, or an iterator whose keys are
      stripped of a prefix. Every mutable part is a `MemIterator` in `Repr()`. */
  datatype Iter = Mem(m: MemIterator) | Merged(g: CacheMergeIterator) | Stripped(prefix: Bytes, iter: Iter)
  {
    ghost function Height(): nat {
      match this
      case Mem(_) => 0
      case Merged(g) => g.height
      case Stripped(_, it) => it.Height() + 1
    }

    ghost function Repr(): set<MemIterator> {
      match this
      case Mem(m) => {m}
      case Merged(g) => g.repr
      case Stripped(_, it) => it.Repr()
    }

    ghost predicate Ok()
      reads Repr()
      decreases Height(), 0
    {
      match this
      case Mem(_) => true
      case Merged(g) =>
        && g.repr == g.parent.Repr() + {g.cache}
        && g.cache !in g.parent.Repr()
        && g.parent.Height() < g.height
        && g.parent.Ok()
      case Stripped(p, it) => it.Ok() && AllHavePrefix(it.Remaining(), p)
    }

    /** The items still to be yielded, in order. */
    ghost function Remaining(): seq<Item>
      requires Ok()
      reads Repr()
      decreases Height(), 1
    {
      match this
      case Mem(m) => m.items
      case Merged(g) => Merge(g.parent.Remaining(), g.cache.items, g.ascending)
      case Stripped(p, it) => Strip(it.Remaining(), p)
    }

    /** Whether another item exists. It may move cursors, but never changes what is yielded. */
    method Valid() returns (b: bool)
      requires Ok()
      modifies Repr()
      ensures Ok() && Remaining() == old(Remaining())
      ensures b <==> Remaining() != []
      decreases Height(), 5
    {
      match this
      case Mem(m) => b := m.Valid();
      case Merged(g) => b := g.Valid();
      case Stripped(p, it) => b := it.Valid();
    }

    method Key() returns (k: Bytes)
      requires Ok() && Remaining() != []
      modifies Repr()
      ensures Ok() && Remaining() == old(Remaining())
      ensures k == Remaining()[0].key
      decreases Height(), 5
    {
      match this
      case Mem(m) => k := m.items[0].key;
      case Merged(g) => k := g.Key();
      case Stripped(p, it) =>
        k := it.Key();
        k := k[|p|..];
    }

    method Value() returns (v: Option<Bytes>)
      requires Ok() && Remaining() != []
      modifies Repr()
      ensures Ok() && Remaining() == old(Remaining())
      ensures v == Remaining()[0].value
      decreases Height(), 5
    {
      match this
      case Mem(m) => v := m.items[0].value;
      case Merged(g) => v := g.Value();
      case Stripped(p, it) => v := it.Value();
    }

    /** Advances past the current item. */
    method Next()
      requires Ok() && Remaining() != []
      modifies Repr()
      ensures Ok() && Remaining() == old(Remaining())[1..]
      decreases Height(), 5
    {
      match this
      case Mem(m) => m.Next();
      case Merged(g) => g.Next();
      case Stripped(p, it) => it.Next();
    }
  }

  predicate HasPrefix(k: Bytes, p: Bytes) {
    |p| <= |k| && k[..|p|] == p
  }

  ghost predicate AllHavePrefix(s: seq<Item>, p: Bytes) {
    forall i :: 0 <= i < |s| ==> HasPrefix(s[i].key, p)
  }

  ghost function Strip(s: seq<Item>, p: Bytes): seq<Item>
    requires AllHavePrefix(s, p)
  {
    seq(|s|, i requires 0 <= i < |s| => Item(s[i].key[|p|..], s[i].value))
  }

  /** `cacheMergeIterator`. */
  class CacheMergeIterator {
    const parent: Iter
    const cache: MemIterator
    const ascending: bool
    ghost const height: nat
    ghost const repr: set<MemIterator>

    constructor (parent: Iter, cache: MemIterator, ascending: bool)
      requires parent.Ok() && cache !in parent.Repr()
      ensures Merged(this).Ok() && repr == parent.Repr() + {cache}
      ensures Merged(this).Remaining() == Merge(old(parent.Remaining()), old(cache.items), ascending)
    {
      this.parent := parent;
      this.cache := cache;
      this.ascending := ascending;
      height := parent.Height() + 1;
      repr := parent.Repr() + {cache};
    }

    function Compare(a: Bytes, b: Bytes): int {
      if ascending then ByteOrder.Compare(a, b) else ByteOrder.Compare(a, b) * -1
    }

    /** The current item of the merge is at the front of one of the two cursors. */
    ghost predicate Settled()
      requires Merged(this).Ok()
      reads repr
    {
      var p, c := parent.Remaining(), cache.items;
      c == [] || (p != [] && Before(ascending, p[0].key, c[0].key)) || c[0].value.Some?
    }

    /** Skips delete markers below `until`; they shadow nothing in the parent. */
    method SkipCacheDeletes(until: Option<Bytes>)
      requires Merged(this).Ok()
      requires until == if parent.Remaining() == [] then None else Some(parent.Remaining()[0].key)
      modifies cache
      ensures Merged(this).Ok() && Merged(this).Remaining() == old(Merged(this).Remaining())
      ensures cache.items == [] || cache.items[0].value.Some?
              || (until.Some? && Compare(cache.items[0].key, until.value) >= 0)
      ensures |cache.items| <= old(|cache.items|)
      ensures old(cache.items) != [] && old(cache.items)[0].value.None?
              && (until.Some? ==> Compare(old(cache.items)[0].key, until.value) < 0)
              ==> |cache.items| < old(|cache.items|)
    {
      while |cache.items| > 0 && cache.items[0].value == None
            && (until == None || Compare(cache.items[0].key, until.value) < 0)
        invariant Merged(this).Ok() && Merged(this).Remaining() == old(Merged(this).Remaining())
        invariant |cache.items| <= old(|cache.items|)
        invariant cache.items == old(cache.items) || |cache.items| < old(|cache.items|)
        decreases |cache.items|
      {
        ghost var p, c := parent.Remaining(), cache.items;
        if until.Some? {
          Trichotomy(c[0].key, until.value);
        }
        assert Merge(p, c, ascending) == [] + Merge(p, c[1..], ascending);
        cache.Next();
      }
    }

    /** One round of the skip loop: either the answer `b` is known, or an item was skipped. */
    method SkipOnce() returns (done: bool, b: bool)
      requires Merged(this).Ok()
      modifies repr
      ensures Merged(this).Ok() && Merged(this).Remaining() == old(Merged(this).Remaining())
      ensures done ==> (b <==> Merged(this).Remaining() != []) && Settled()
      ensures !done ==> |parent.Remaining()| + |cache.items| < old(|parent.Remaining()| + |cache.items|)
      decreases height, 0
    {
      var parentValid := parent.Valid();
      if !parentValid {
        SkipCacheDeletes(None);
        b := cache.Valid();
        return true, b;
      }
      var cacheValid := cache.Valid();
      if !cacheValid {
        return true, true;
      }
      var keyP := parent.Key();
      var keyC, valueC := cache.items[0].key, cache.items[0].value;
      Trichotomy(keyP, keyC);
      var cmp := Compare(keyP, keyC);
      if cmp == -1 || valueC.Some? {
        return true, true;
      } else if cmp == 0 {
        ghost var p, c := parent.Remaining(), cache.items;
        assert Merge(p, c, ascending) == [] + Merge(p[1..], c[1..], ascending);
        parent.Next();
        cache.Next();
        return false, false;
      } else {
        SkipCacheDeletes(Some(keyP));
        return false, false;
      }
    }

    method SkipUntilExistsOrInvalid() returns (b: bool)
      requires Merged(this).Ok()
      modifies repr
      ensures Merged(this).Ok() && Merged(this).Remaining() == old(Merged(this).Remaining())
      ensures b <==> Merged(this).Remaining() != []
      ensures Settled()
      decreases height, 1
    {
      while true
        invariant Merged(this).Ok() && Merged(this).Remaining() == old(Merged(this).Remaining())
        decreases |parent.Remaining()| + |cache.items|
      {
        var done;
        done, b := SkipOnce();
        if done {
          return;
        }
      }
    }

    method Valid() returns (b: bool)
      requires Merged(this).Ok()
      modifies repr
      ensures Merged(this).Ok() && Merged(this).Remaining() == old(Merged(this).Remaining())
      ensures b <==> Merged(this).Remaining() != []
      ensures Settled()
      decreases height, 2
    {
      b := SkipUntilExistsOrInvalid();
    }

    method Next()
      requires Merged(this).Ok() && Merged(this).Remaining() != []
      modifies repr
      ensures Merged(this).Ok() && Merged(this).Remaining() == old(Merged(this).Remaining())[1..]
      decreases height, 4
    {
      var _ := SkipUntilExistsOrInvalid();
      var _ := Valid();
      Advance();
    }

    /** The part of `Next` that runs once the current item is settled. */
    method Advance()
      requires Merged(this).Ok() && Merged(this).Remaining() != [] && Settled()
      modifies repr
      ensures Merged(this).Ok() && Merged(this).Remaining() == old(Merged(this).Remaining())[1..]
      decreases height, 3
    {
      var parentValid := parent.Valid();
      if !parentValid {
        cache.Next();
        return;
      }
      var cacheValid := cache.Valid();
      if !cacheValid {
        parent.Next();
        return;
      }
      var keyP := parent.Key();
      var keyC := cache.items[0].key;
      Trichotomy(keyP, keyC);
      var cmp := Compare(keyP, keyC);
      if cmp != 1 {
        parent.Next();
      }
      if cmp != -1 {
        cache.Next();
      }
    }

    method Key() returns (k: Bytes)
      requires Merged(this).Ok() && Merged(this).Remaining() != []
      modifies repr
      ensures Merged(this).Ok() && Merged(this).Remaining() == old(Merged(this).Remaining())
      ensures k == Merged(this).Remaining()[0].key
      decreases height, 4
    {
      var _ := SkipUntilExistsOrInvalid();
      var _ := Valid();
      var parentValid := parent.Valid();
      if !parentValid {
        return cache.items[0].key;
      }
      var cacheValid := cache.Valid();
      if !cacheValid {
        k := parent.Key();
        return;
      }
      var keyP := parent.Key();
      var keyC := cache.items[0].key;
      Trichotomy(keyP, keyC);
      k := if Compare(keyP, keyC) <= 0 then keyP else keyC;
    }

    method Value() returns (v: Option<Bytes>)
      requires Merged(this).Ok() && Merged(this).Remaining() != []
      modifies repr
      ensures Merged(this).Ok() && Merged(this).Remaining() == old(Merged(this).Remaining())
      ensures v == Merged(this).Remaining()[0].value
      decreases height, 4
    {
      var _ := SkipUntilExistsOrInvalid();
      var _ := Valid();
      var parentValid := parent.Valid();
      if !parentValid {
        return cache.items[0].value;
      }
      var cacheValid := cache.Valid();
      if !cacheValid {
        v := parent.Value();
        return;
      }
      var keyP := parent.Key();
      var keyC := cache.items[0].key;
      Trichotomy(keyP, keyC);
      if Compare(keyP, keyC) == -1 {
        v := parent.Value();
      } else {
        v := cache.items[0].value;
      }
    }
  }
}
