/** Key-value stores: a base store, write-back caches over a parent (`cacheKVStore`) and prefixed
    views of a store (`prefixStore`), stacked in any order and to any height. */
module Stores {
  import opened ByteOrder
  import opened MergeIteration

  // ---------------------------------------------------------------------------------------------
  // Contents as finite maps

  function Lookup(m: map<Bytes, Bytes>, k: Bytes): Option<Bytes> {
    if k in m then Some(m[k]) else None
  }

  /** A cache entry. A clean entry records what the parent returned. */
  datatype CValue = CValue(value: Option<Bytes>, deleted: bool, dirty: bool)

  /** The dirty entries, as they shadow the parent. */
  ghost function Dirty(c: map<Bytes, CValue>): map<Bytes, Option<Bytes>> {
    map k | k in c && c[k].dirty :: c[k].value
  }

  /** The entries that `Write` sends to the parent: a dirty nil value that is not a delete is skipped. */
  ghost function Writes(c: map<Bytes, CValue>): map<Bytes, Option<Bytes>> {
    map k | k in c && c[k].dirty && (c[k].deleted || c[k].value.Some?) :: c[k].value
  }

  /** No key was set to nil while the parent still has it. */
  ghost predicate NoNilOverLive(m: map<Bytes, Bytes>, c: map<Bytes, CValue>) {
    forall k :: k in c && c[k].dirty && !c[k].deleted && c[k].value.None? ==> k !in m
  }

  /** No entry is a nil value that was set. */
  ghost predicate NilFree(c: map<Bytes, CValue>) {
    forall k :: k in c && c[k].dirty && !c[k].deleted ==> c[k].value.Some?
  }

  /** A cache agrees with its parent: deletes are dirty nils, clean entries are up to date. */
  ghost predicate Coherent(m: map<Bytes, Bytes>, c: map<Bytes, CValue>) {
    forall k :: k in c ==>
      && (c[k].deleted ==> c[k].dirty && c[k].value.None?)
      && (!c[k].dirty ==> c[k].value == Lookup(m, k))
  }

  /** What a read through a cache over `m` returns. */
  function ReadThrough(m: map<Bytes, Bytes>, cache: map<Bytes, CValue>, k: Bytes): Option<Bytes> {
    if k in cache then cache[k].value else Lookup(m, k)
  }

  /** The contents below a prefix, with the prefix removed. */
  ghost function Unprefix(m: map<Bytes, Bytes>, p: Bytes): map<Bytes, Bytes> {
    var keys := set k | k in m && HasPrefix(k, p) :: k[|p|..];
    map k | k in keys && p + k in m :: m[p + k]
  }

  lemma UnprefixLookup(m: map<Bytes, Bytes>, p: Bytes, k: Bytes)
    ensures Lookup(Unprefix(m, p), k) == Lookup(m, p + k)
  {
    if p + k in m {
      assert HasPrefix(p + k, p) && (p + k)[|p|..] == k;
    }
  }

  lemma UnprefixSet(m: map<Bytes, Bytes>, p: Bytes, k: Bytes, v: Bytes)
    ensures Unprefix(m[p + k := v], p) == Unprefix(m, p)[k := v]
  {
    var a, b := Unprefix(m[p + k := v], p), Unprefix(m, p)[k := v];
    forall x ensures Lookup(a, x) == Lookup(b, x) {
      UnprefixLookup(m[p + k := v], p, x);
      UnprefixLookup(m, p, x);
      assert p + x == p + k ==> x == (p + x)[|p|..] == (p + k)[|p|..] == k;
    }
    SameLookup(a, b);
  }

  lemma UnprefixDelete(m: map<Bytes, Bytes>, p: Bytes, k: Bytes)
    ensures Unprefix(m - {p + k}, p) == Unprefix(m, p) - {k}
  {
    var a, b := Unprefix(m - {p + k}, p), Unprefix(m, p) - {k};
    forall x ensures Lookup(a, x) == Lookup(b, x) {
      UnprefixLookup(m - {p + k}, p, x);
      UnprefixLookup(m, p, x);
      assert p + x == p + k ==> x == (p + x)[|p|..] == (p + k)[|p|..] == k;
    }
    SameLookup(a, b);
  }

  lemma SameLookup(a: map<Bytes, Bytes>, b: map<Bytes, Bytes>)
    requires forall x :: Lookup(a, x) == Lookup(b, x)
    ensures a == b
  {
    forall x ensures x in a <==> x in b {
      assert Lookup(a, x) == Lookup(b, x);
    }
    forall x | x in a ensures a[x] == b[x] {
      assert Lookup(a, x) == Lookup(b, x);
    }
  }

  lemma OverlayLookup(m: map<Bytes, Bytes>, c: map<Bytes, Option<Bytes>>, k: Bytes)
    ensures Lookup(Overlay(m, c), k) == if k in c then c[k] else Lookup(m, k)
  {
  }

  /** Writing a cache back reproduces the child's view in the parent exactly when no live key of
      the parent was set to nil. */
  lemma WriteBackExact(m: map<Bytes, Bytes>, c: map<Bytes, CValue>)
    ensures Overlay(m, Writes(c)) == Overlay(m, Dirty(c)) <==> NoNilOverLive(m, c)
  {
    forall k ensures (Lookup(Overlay(m, Writes(c)), k) == Lookup(Overlay(m, Dirty(c)), k))
                <==> !(k in c && c[k].dirty && !c[k].deleted && c[k].value.None? && k in m) {
      OverlayLookup(m, Writes(c), k);
      OverlayLookup(m, Dirty(c), k);
    }
    if NoNilOverLive(m, c) {
      SameLookup(Overlay(m, Writes(c)), Overlay(m, Dirty(c)));
    }
  }

  /** A nil set over a live key reads as absent, but writing back leaves the key in the parent. */
  lemma NilOverLiveIsNotWritten()
    ensures var m: map<Bytes, Bytes>, c := map[[1] := [2]], map[[1] := CValue(None, false, true)];
            Coherent(m, c) && [1] !in Overlay(m, Dirty(c)) && [1] in Overlay(m, Writes(c))
  {
  }

  // ---------------------------------------------------------------------------------------------
  // Sorting of map keys

  ghost predicate SortedKeys(s: seq<Bytes>, ascending: bool) {
    forall i, j :: 0 <= i < j < |s| ==> Before(ascending, s[i], s[j])
  }

  /** Keys taken from a map in any order, sorted as `sort.Strings` and `sort.Slice` leave them. */
  method SortKeys(keys: set<Bytes>, ascending: bool) returns (r: seq<Bytes>)
    ensures SortedKeys(r, ascending)
    ensures forall k :: k in r <==> k in keys
  {
    r := [];
    var rest := keys;
    while rest != {}
      invariant rest <= keys && SortedKeys(r, ascending)
      invariant forall k :: k in r <==> k in keys && k !in rest
      decreases rest
    {
      var k :| k in rest;
      r := InsertKey(r, k, ascending);
      rest := rest - {k};
    }
  }

  method InsertKey(s: seq<Bytes>, k: Bytes, ascending: bool) returns (r: seq<Bytes>)
    requires SortedKeys(s, ascending) && k !in s
    ensures SortedKeys(r, ascending)
    ensures forall x :: x in r <==> x in s || x == k
  {
    var i := 0;
    while i < |s| && Before(ascending, s[i], k)
      invariant 0 <= i <= |s|
      invariant forall j :: 0 <= j < i ==> Before(ascending, s[j], k)
    {
      i := i + 1;
    }
    r := s[..i] + [k] + s[i..];
    forall j | i <= j < |s| ensures Before(ascending, k, s[j]) {
      BeforeTrichotomy(ascending, s[i], k);
      if i < j {
        BeforeTransitive(ascending, k, s[i], s[j]);
      }
    }
  }

  // ---------------------------------------------------------------------------------------------
  // Stores as objects

  /** A store without a cache: an IAVL tree or a database, seen as a finite map. */
  class BaseStore {
    var data: map<Bytes, Bytes>
    const iavl: bool

    constructor (data: map<Bytes, Bytes>, iavl: bool)
      ensures this.data == data && this.iavl == iavl
    {
      this.data := data;
      this.iavl := iavl;
    }
  }

  datatype KVStore = Base(b: BaseStore) | Cached(c: CacheKVStore) | Prefixed(s: KVStore, prefix: Bytes)
  {
    ghost function Height(): nat {
      match this
      case Base(_) => 0
      case Cached(c) => c.height
      case Prefixed(s, _) => s.Height() + 1
    }

    /** The objects below and including this store. */
    ghost function Repr(): set<object> {
      match this
      case Base(b) => {b}
      case Cached(c) => c.repr
      case Prefixed(s, _) => s.Repr()
    }

    lemma {:induction false} ReprAllocated()
      ensures forall o :: o in Repr() ==> allocated(o)
    {
      match this
      case Base(_) =>
      case Cached(_) =>
      case Prefixed(s, _) => s.ReprAllocated();
    }

    /** The one object that `Set` and `Delete` change. */
    ghost function Top(): object {
      match this
      case Base(b) => b
      case Cached(c) => c
      case Prefixed(s, _) => s.Top()
    }

    ghost predicate Ok()
      reads Repr()
      ensures Ok() ==> Top() in Repr()
      decreases Height(), 0
    {
      match this
      case Base(_) => true
      case Cached(c) =>
        && c.repr == {c} + c.parent.Repr()
        && c !in c.parent.Repr()
        && c.parent.Height() < c.height
        && c.parent.Ok()
        && Coherent(c.parent.View(), c.cache)
      case Prefixed(s, p) => p != [] && s.Ok()
    }

    /** The contents that reads through this store see. */
    ghost function View(): map<Bytes, Bytes>
      requires Ok()
      reads Repr()
      decreases Height(), 1
    {
      match this
      case Base(b) => b.data
      case Cached(c) => Overlay(c.parent.View(), Dirty(c.cache))
      case Prefixed(s, p) => Unprefix(s.View(), p)
    }

    /** The views of this stack's layers, top first. A prefixed store shares its layers. */
    ghost function Levels(): seq<map<Bytes, Bytes>>
      requires Ok()
      reads Repr()
      ensures Levels() != []
      decreases Height(), 1
    {
      match this
      case Base(b) => [b.data]
      case Cached(c) => [View()] + c.parent.Levels()
      case Prefixed(s, _) => s.Levels()
    }

    /** No layer holds a nil value that was set. */
    ghost predicate NoNils()
      requires Ok()
      reads Repr()
      decreases Height(), 1
    {
      match this
      case Base(_) => true
      case Cached(c) => NilFree(c.cache) && c.parent.NoNils()
      case Prefixed(s, _) => s.NoNils()
    }

    /** Every cache of the stack is empty. */
    ghost predicate Flushed()
      requires Ok()
      reads Repr()
      decreases Height(), 1
    {
      match this
      case Base(_) => true
      case Cached(c) => c.cache == map[] && c.parent.Flushed()
      case Prefixed(s, _) => s.Flushed()
    }

    /** The key under which the top layer stores `k`. */
    function FullKey(k: Bytes): Bytes {
      match this
      case Prefixed(s, p) => s.FullKey(p + k)
      case _ => k
    }

    method Get(k: Bytes) returns (v: Option<Bytes>)
      requires Ok()
      modifies Repr()
      ensures Ok() && Levels() == old(Levels()) && View() == old(View())
      ensures v == Lookup(View(), k)
      ensures old(NoNils()) ==> NoNils()
      decreases Height(), 1
    {
      match this
      case Base(b) =>
        v := if k in b.data then Some(b.data[k]) else None;
      case Cached(c) =>
        v := c.Get(k);
      case Prefixed(s, p) =>
        UnprefixLookup(s.View(), p, k);
        v := s.Get(p + k);
    }

    method Set(k: Bytes, v: Bytes)
      requires Ok()
      modifies Top()
      ensures Ok() && View() == old(View())[k := v]
      ensures Levels() == [old(Levels())[0][FullKey(k) := v]] + old(Levels())[1..]
      ensures old(NoNils()) ==> NoNils()
      decreases Height(), 1
    {
      match this
      case Base(b) =>
        b.data := b.data[k := v];
      case Cached(c) =>
        c.Set(k, Some(v));
      case Prefixed(s, p) =>
        UnprefixSet(s.View(), p, k, v);
        s.Set(p + k, v);
    }

    method Delete(k: Bytes)
      requires Ok()
      modifies Top()
      ensures Ok() && View() == old(View()) - {k}
      ensures Levels() == [old(Levels())[0] - {FullKey(k)}] + old(Levels())[1..]
      ensures old(NoNils()) ==> NoNils()
      decreases Height(), 1
    {
      match this
      case Base(b) =>
        b.data := b.data - {k};
      case Cached(c) =>
        c.Delete(k);
      case Prefixed(s, p) =>
        UnprefixDelete(s.View(), p, k);
        s.Delete(p + k);
    }
  }

  /** `cacheKVStore`. */
  class CacheKVStore {
    var cache: map<Bytes, CValue>
    const parent: KVStore
    ghost const height: nat
    ghost const repr: set<object>

    /** `NewCacheKVStore`: a fresh cache shows its parent's contents. */
    constructor (parent: KVStore)
      requires parent.Ok()
      ensures this.parent == parent && cache == map[]
      ensures repr == {this} + parent.Repr()
      ensures Cached(this).Ok() && Cached(this).View() == old(parent.View())
      ensures Cached(this).Levels() == [old(parent.View())] + old(parent.Levels())
      ensures old(parent.NoNils()) ==> Cached(this).NoNils()
    {
      parent.ReprAllocated();
      cache := map[];
      this.parent := parent;
      height := parent.Height() + 1;
      ghost var below := parent.Repr();
      repr := {this} + below;
      new;
      assert this !in below;
      assert Overlay(parent.View(), Dirty(cache)) == parent.View();
    }

    method Get(k: Bytes) returns (v: Option<Bytes>)
      requires Cached(this).Ok()
      modifies repr
      ensures Cached(this).Ok() && Cached(this).View() == old(Cached(this).View())
      ensures Cached(this).Levels() == old(Cached(this).Levels())
      ensures v == Lookup(Cached(this).View(), k)
      ensures cache == if k in old(cache) then old(cache) else old(cache)[k := CValue(v, false, false)]
      ensures parent.Ok() && parent.View() == old(parent.View()) && parent.Levels() == old(parent.Levels())
      ensures old(parent.NoNils()) ==> parent.NoNils()
      decreases height, 0
    {
      if k !in cache {
        v := parent.Get(k);
        Remember(k, v);
      } else {
        v := cache[k].value;
      }
      OverlayLookup(parent.View(), Dirty(cache), k);
    }

    /** Records a clean entry. */
    method Remember(k: Bytes, v: Option<Bytes>)
      requires Cached(this).Ok() && k !in cache && v == Lookup(parent.View(), k)
      modifies this
      ensures Cached(this).Ok() && cache == old(cache)[k := CValue(v, false, false)]
      ensures Cached(this).View() == old(Cached(this).View())
      ensures Cached(this).Levels() == old(Cached(this).Levels())
      ensures parent.Ok() && parent.View() == old(parent.View()) && parent.Levels() == old(parent.Levels())
      ensures old(parent.NoNils()) ==> parent.NoNils()
    {
      CleanEntry(parent.View(), cache, k);
      cache := cache[k := CValue(v, false, false)];
    }

    /** Shadows `k`. A nil value reads as absent but is not written back. */
    method Set(k: Bytes, v: Option<Bytes>)
      requires Cached(this).Ok()
      modifies this
      ensures Cached(this).Ok() && cache == old(cache)[k := CValue(v, false, true)]
      ensures Cached(this).View() ==
              if v.Some? then old(Cached(this).View())[k := v.value] else old(Cached(this).View()) - {k}
      ensures parent.Ok() && parent.View() == old(parent.View()) && parent.Levels() == old(parent.Levels())
      ensures old(parent.NoNils()) ==> parent.NoNils()
    {
      cache := cache[k := CValue(v, false, true)];
      DirtySet(parent.View(), old(cache), k, cache[k]);
    }

    method Delete(k: Bytes)
      requires Cached(this).Ok()
      modifies this
      ensures Cached(this).Ok() && cache == old(cache)[k := CValue(None, true, true)]
      ensures Cached(this).View() == old(Cached(this).View()) - {k}
      ensures parent.Ok() && parent.View() == old(parent.View()) && parent.Levels() == old(parent.Levels())
      ensures old(parent.NoNils()) ==> parent.NoNils()
    {
      cache := cache[k := CValue(None, true, true)];
      DirtySet(parent.View(), old(cache), k, cache[k]);
    }

    /** Flushes the dirty entries, in key order, into the parent and empties the cache. Layers below
        the parent are untouched, and the child keeps its view unless a live key was set to nil. */
    method Write()
      requires Cached(this).Ok()
      modifies this, parent.Top()
      ensures Cached(this).Ok() && cache == map[]
      ensures parent.View() == Overlay(old(parent.View()), Writes(old(cache)))
      ensures Cached(this).View() == parent.View()
      ensures parent.Levels()[1..] == old(parent.Levels())[1..]
      ensures parent.View() == old(Cached(this).View()) <==> NoNilOverLive(old(parent.View()), old(cache))
      ensures old(NilFree(cache)) ==> parent.View() == old(Cached(this).View())
      ensures old(parent.NoNils()) ==> parent.NoNils()
    {
      ghost var m, c := parent.View(), cache;
      var keys := SortKeys(set k | k in cache && cache[k].dirty, true);
      FlushKeys(keys);
      Clear();
      PickAll(c, keys);
      WriteBackExact(m, c);
    }

    /** An empty cache shows its parent's contents. */
    method Clear()
      requires parent.Ok() && this !in parent.Repr() && repr == {this} + parent.Repr() && parent.Height() < height
      modifies this
      ensures Cached(this).Ok() && cache == map[]
      ensures parent.Ok() && parent.View() == old(parent.View()) && parent.Levels() == old(parent.Levels())
      ensures Cached(this).View() == parent.View()
      ensures old(parent.NoNils()) ==> parent.NoNils()
    {
      cache := map[];
      assert Overlay(parent.View(), Dirty(cache)) == parent.View();
    }

    /** The write-back loop. */
    method FlushKeys(keys: seq<Bytes>)
      requires parent.Ok() && this !in parent.Repr() && Coherent(parent.View(), cache)
      requires SortedKeys(keys, true) && forall k :: k in keys ==> k in cache && cache[k].dirty
      modifies parent.Top()
      ensures parent.Ok() && parent.Levels()[1..] == old(parent.Levels())[1..]
      ensures cache == old(cache)
      ensures parent.View() == Overlay(old(parent.View()), Writes(Pick(cache, keys)))
      ensures old(parent.NoNils()) ==> parent.NoNils()
    {
      ghost var m, c := parent.View(), cache;
      for n := 0 to |keys|
        invariant parent.Ok() && cache == c
        invariant parent.View() == Overlay(m, Writes(Pick(c, keys[..n])))
        invariant parent.Levels()[1..] == old(parent.Levels())[1..]
        invariant old(parent.NoNils()) ==> parent.NoNils()
      {
        var k := keys[n];
        PickMore(c, keys, n);
        NotEarlier(keys, n);
        WriteStep(m, Pick(c, keys[..n]), k, c[k]);
        WriteEntry(k);
      }
      assert keys[..|keys|] == keys;
    }

    /** The body of the write-back loop. */
    method WriteEntry(k: Bytes)
      requires parent.Ok() && k in cache && this !in parent.Repr()
      modifies parent.Top()
      ensures parent.Ok() && parent.Levels()[1..] == old(parent.Levels())[1..]
      ensures cache == old(cache)
      ensures parent.View() ==
              if cache[k].deleted then old(parent.View()) - {k}
              else if cache[k].value.None? then old(parent.View())
              else old(parent.View())[k := cache[k].value.value]
      ensures old(parent.NoNils()) ==> parent.NoNils()
    {
      var e := cache[k];
      if e.deleted {
        parent.Delete(k);
      } else if e.value.None? {
        // Already absent from the parent, or so the code takes it.
      } else {
        parent.Set(k, e.value.value);
      }
    }
  }

  lemma NotEarlier(keys: seq<Bytes>, n: nat)
    requires n < |keys| && SortedKeys(keys, true)
    ensures keys[n] !in keys[..n]
  {
    if keys[n] in keys[..n] {
      var i :| 0 <= i < n && keys[i] == keys[n];
      BeforeTrichotomy(true, keys[i], keys[n]);
    }
  }

  lemma OverlayUpdate(m: map<Bytes, Bytes>, c: map<Bytes, Option<Bytes>>, k: Bytes, v: Option<Bytes>)
    ensures Overlay(m, c[k := v]) ==
            if v.Some? then Overlay(m, c)[k := v.value] else Overlay(m, c) - {k}
  {
  }

  lemma CleanEntry(m: map<Bytes, Bytes>, c: map<Bytes, CValue>, k: Bytes)
    requires k !in c && Coherent(m, c)
    ensures var c' := c[k := CValue(Lookup(m, k), false, false)]; Dirty(c') == Dirty(c) && Coherent(m, c')
  {
  }

  lemma DirtySet(m: map<Bytes, Bytes>, c: map<Bytes, CValue>, k: Bytes, e: CValue)
    requires e.dirty
    ensures Overlay(m, Dirty(c[k := e])) ==
            if e.value.Some? then Overlay(m, Dirty(c))[k := e.value.value] else Overlay(m, Dirty(c)) - {k}
  {
    assert Dirty(c[k := e]) == Dirty(c)[k := e.value];
    OverlayUpdate(m, Dirty(c), k, e.value);
  }

  /** The entries of `c` at the given keys. */
  ghost function Pick(c: map<Bytes, CValue>, keys: seq<Bytes>): map<Bytes, CValue> {
    map k | k in c && k in keys :: c[k]
  }

  lemma PickMore(c: map<Bytes, CValue>, keys: seq<Bytes>, n: nat)
    requires n < |keys| && keys[n] in c
    ensures Pick(c, keys[..n + 1]) == Pick(c, keys[..n])[keys[n] := c[keys[n]]]
  {
    assert keys[..n + 1] == keys[..n] + [keys[n]];
  }

  lemma PickAll(c: map<Bytes, CValue>, keys: seq<Bytes>)
    requires forall k :: k in keys <==> k in c && c[k].dirty
    ensures Writes(Pick(c, keys)) == Writes(c)
  {
  }

  /** One round of the write-back loop. */
  lemma WriteStep(m: map<Bytes, Bytes>, c: map<Bytes, CValue>, k: Bytes, e: CValue)
    requires e.dirty && k !in c && (e.deleted ==> e.value.None?)
    ensures Overlay(m, Writes(c[k := e])) ==
            if e.deleted then Overlay(m, Writes(c)) - {k}
            else if e.value.None? then Overlay(m, Writes(c))
            else Overlay(m, Writes(c))[k := e.value.value]
  {
    if e.deleted || e.value.Some? {
      assert Writes(c[k := e]) == Writes(c)[k := e.value];
      OverlayUpdate(m, Writes(c), k, e.value);
    } else {
      assert Writes(c[k := e]) == Writes(c);
    }
  }

  /** A cache whose objects did not change keeps its contents and its parent's. */
  twostate lemma Frame(c: CacheKVStore)
    requires old(Cached(c).Ok()) && unchanged(c.repr)
    ensures Cached(c).Ok() && c.cache == old(c.cache)
    ensures Cached(c).View() == old(Cached(c).View()) && c.parent.View() == old(c.parent.View())
    ensures c.parent.Levels() == old(c.parent.Levels()) && c.parent.NoNils() == old(c.parent.NoNils())
  {
  }
}
