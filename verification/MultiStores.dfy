/** `cacheMultiStore`: one cache per mounted store, the raw database counting as one of them. */
module MultiStores {
  import opened ByteOrder
  import opened MergeIteration
  import opened Stores

  type StoreKey = Bytes
  type Parents = map<StoreKey, KVStore>
  type Caches = map<StoreKey, CacheKVStore>

  /** What a store shows, the views of its layers, and whether no layer holds a nil that was set. */
  datatype Snap = Snap(view: View, levels: seq<View>, nilFree: bool)

  type Snaps = map<StoreKey, Snap>

  ghost predicate Is(s: KVStore, snap: Snap)
    reads s.Repr()
  {
    s.Ok() && snap == Snap(s.View(), s.Levels(), s.NoNils())
  }

  /** Stores that share no object. */
  ghost predicate Apart(parents: Parents) {
    forall j, k :: j in parents && k in parents && j != k ==> parents[j].Repr() !! parents[k].Repr()
  }

  ghost predicate CachesApart(m: Caches) {
    forall j, k :: j in m && k in m && j != k ==> m[j].repr !! m[k].repr
  }

  /** Caches over some of the parents, none of them part of a parent. */
  ghost predicate Over(parents: Parents, m: Caches) {
    && m.Keys <= parents.Keys
    && (forall k :: k in m ==> m[k].parent == parents[k] && m[k].repr == {m[k]} + parents[k].Repr())
    && (forall j, k :: j in m && k in parents ==> m[j] !in parents[k].Repr())
  }

  /** One more cache. */
  lemma OverMore(parents: Parents, m: Caches, k: StoreKey, c: CacheKVStore)
    requires Apart(parents) && Over(parents, m) && CachesApart(m) && k in parents && k !in m
    requires c.parent == parents[k] && c.repr == {c} + parents[k].Repr()
    requires forall j :: j in parents ==> c !in parents[j].Repr()
    requires forall j :: j in m ==> c != m[j]
    ensures Over(parents, m[k := c]) && CachesApart(m[k := c])
  {
    forall j | j in m ensures m[j].repr !! c.repr {
      assert m[j].repr == {m[j]} + parents[j].Repr();
    }
  }

  /** The stores are coherent, with the given contents. */
  ghost predicate Mounted(parents: Parents, snaps: Snaps)
    reads Objects(parents)
  {
    forall k :: k in parents ==> k in snaps && Is(parents[k], snaps[k])
  }

  /** An empty cache over a store with the given contents. */
  ghost predicate Empty(c: CacheKVStore, snap: Snap)
    reads c.repr
  {
    Cached(c).Ok() && c.cache == map[] && Is(c.parent, snap)
  }

  ghost predicate AllEmpty(m: Caches, snaps: Snaps)
    reads set k, o | k in m && o in m[k].repr :: o
  {
    forall k :: k in m ==> k in snaps && Empty(m[k], snaps[k])
  }

  /** An empty cache shows its parent's contents. */
  lemma EmptyShows(c: CacheKVStore)
    requires Cached(c).Ok() && c.cache == map[]
    ensures Cached(c).View() == c.parent.View()
  {
    assert Overlay(c.parent.View(), Dirty(c.cache)) == c.parent.View();
  }

  /** A store whose objects did not change keeps its contents. */
  twostate lemma StoreFrame(s: KVStore)
    requires old(s.Ok())
    requires forall o :: o in s.Repr() ==> old(allocated(o))
    requires unchanged(s.Repr())
    ensures s.Ok() && s.View() == old(s.View()) && s.Levels() == old(s.Levels()) && s.NoNils() == old(s.NoNils())
  {
  }

  method NewCache(parents: Parents, m: Caches, k: StoreKey, ghost snap: Snap) returns (c: CacheKVStore)
    requires Apart(parents) && Over(parents, m) && CachesApart(m) && k in parents && k !in m && Is(parents[k], snap)
    ensures fresh(c) && Over(parents, m[k := c]) && CachesApart(m[k := c]) && Empty(c, snap)
  {
    forall j | j in parents ensures forall o :: o in parents[j].Repr() ==> allocated(o) {
      parents[j].ReprAllocated();
    }
    c := new CacheKVStore(parents[k]);
    OverMore(parents, m, k, c);
    StoreFrame(parents[k]);
  }

  /** A new cache shows its parent's contents and disturbs no other. */
  method WrapOne(parents: Parents, m: Caches, k: StoreKey, ghost snaps: Snaps) returns (c: CacheKVStore)
    requires Apart(parents) && Over(parents, m) && CachesApart(m) && k in parents && k !in m
    requires k in snaps && Is(parents[k], snaps[k]) && AllEmpty(m, snaps)
    ensures fresh(c) && Over(parents, m[k := c]) && CachesApart(m[k := c]) && AllEmpty(m[k := c], snaps)
  {
    c := NewCache(parents, m, k, snaps[k]);
    forall j | j in m ensures Empty(m[j], snaps[j]) {
      assert old(Empty(m[j], snaps[j]));
      Frame(m[j]);
    }
  }

  method WrapNext(parents: Parents, m: Caches, k: StoreKey, ghost snaps: Snaps) returns (c: CacheKVStore)
    requires Apart(parents) && Over(parents, m) && CachesApart(m) && k in parents && k !in m
    requires Mounted(parents, snaps) && AllEmpty(m, snaps)
    ensures fresh(c) && Over(parents, m[k := c]) && CachesApart(m[k := c])
    ensures Mounted(parents, snaps) && AllEmpty(m[k := c], snaps)
  {
    forall j | j in parents ensures forall o :: o in parents[j].Repr() ==> allocated(o) {
      parents[j].ReprAllocated();
    }
    c := WrapOne(parents, m, k, snaps);
    forall j | j in parents ensures Is(parents[j], snaps[j]) {
      assert old(Is(parents[j], snaps[j]));
      StoreFrame(parents[j]);
    }
  }

  /** The rounds of the loop for some of the stores, in any order. */
  method WrapAll(parents: Parents, keys: set<StoreKey>, ghost snaps: Snaps)
    returns (m: Caches, ghost made: set<object>)
    requires Apart(parents) && Mounted(parents, snaps) && keys <= parents.Keys
    ensures m.Keys == keys && Over(parents, m) && CachesApart(m) && AllEmpty(m, snaps) && Mounted(parents, snaps)
    ensures fresh(made) && AmongCaches(m, made)
    decreases keys
  {
    m, made := map[], {};
    if keys != {} {
      var k :| k in keys;
      var before, older := WrapAll(parents, keys - {k}, snaps);
      var c := WrapNext(parents, before, k, snaps);
      m, made := before[k := c], older + {c};
      assert m.Keys == before.Keys + {k} == keys;
    }
  }

  ghost predicate AmongCaches(m: Caches, made: set<object>) {
    forall k :: k in m ==> m[k] in made
  }

  /** The objects of the mounted stores. */
  ghost function Objects(parents: Parents): set<object> {
    set k, o | k in parents && o in parents[k].Repr() :: o
  }

  class CacheMultiStore {
    const stores: Caches
    ghost const repr: set<object>

    /** No two caches share an object. */
    ghost predicate Shape() {
      CachesApart(stores) && forall k :: k in stores ==> stores[k].repr <= repr
    }

    /** Every cache is coherent and no two of them share an object. */
    ghost predicate Ok()
      reads repr
    {
      Shape() && forall k :: k in stores ==> Cached(stores[k]).Ok()
    }

    constructor (m: Caches, ghost objects: set<object>, ghost snaps: Snaps)
      requires CachesApart(m) && AllEmpty(m, snaps) && forall k :: k in m ==> m[k].repr <= objects
      ensures stores == m && repr == objects && Ok() && AllEmpty(m, snaps)
    {
      stores, repr := m, objects;
      new;
      forall k | k in m ensures Empty(m[k], snaps[k]) {
        assert old(Empty(m[k], snaps[k]));
        Frame(m[k]);
      }
    }

    /** The stores in `rest` are as they were, the others written back. */
    ghost predicate Midway(was: map<StoreKey, Was>, rest: set<StoreKey>)
      requires Shape()
      reads repr
    {
      forall k :: k in stores ==>
        k in was && if k in rest then Stands(stores[k], was[k]) else Emptied(stores[k], was[k])
    }

    /** Writes one store's cache back; all other stores keep their caches and parents. */
    method WriteStore(k: StoreKey, ghost was: map<StoreKey, Was>, ghost rest: set<StoreKey>)
      requires Shape() && k in stores && k in rest && Midway(was, rest)
      modifies stores[k].repr
      ensures Midway(was, rest - {k})
    {
      assert Stands(stores[k], was[k]);
      WriteCache(stores[k], was[k]);
      forall j | j in stores && j != k
        ensures if j in rest then Stands(stores[j], was[j]) else Emptied(stores[j], was[j])
      {
        assert old(if j in rest then Stands(stores[j], was[j]) else Emptied(stores[j], was[j]));
        Frame(stores[j]);
      }
    }

    /** The rounds of the loop for the stores not yet visited. */
    method WriteAll(rest: set<StoreKey>, ghost was: map<StoreKey, Was>)
      requires Shape() && rest <= stores.Keys && Midway(was, rest)
      modifies repr
      ensures Midway(was, {})
    {
      if rest != {} {
        var k :| k in rest;
        WriteStore(k, was, rest);
        WriteAll(rest - {k}, was);
      }
    }

    /** Writes every cache back, visiting the map of stores in any order. The outcome does not depend
        on that order: every parent shows what its cache showed, unless a live key was set to nil. */
    method Write()
      requires Ok()
      modifies repr
      ensures Ok()
      ensures forall k :: k in stores ==> Emptied(stores[k], old(WasOf(stores[k])))
      ensures forall k :: k in stores && NoNilOverLive(old(stores[k].parent.View()), old(stores[k].cache)) ==>
                Cached(stores[k]).View() == stores[k].parent.View() == old(Cached(stores[k]).View())
    {
      ghost var was := map k | k in stores :: WasOf(stores[k]);
      WriteAll(stores.Keys, was);
      forall k | k in stores && NoNilOverLive(old(stores[k].parent.View()), old(stores[k].cache))
        ensures Cached(stores[k]).View() == stores[k].parent.View() == old(Cached(stores[k]).View())
      {
        WriteBackExact(old(stores[k].parent.View()), old(stores[k].cache));
      }
    }
  }

  /** A cache's entries and what its parent held. */
  datatype Was = Was(cache: map<Bytes, CValue>, snap: Snap)

  ghost function WasOf(c: CacheKVStore): Was
    requires Cached(c).Ok()
    reads c.repr
  {
    Was(c.cache, Snap(c.parent.View(), c.parent.Levels(), c.parent.NoNils()))
  }

  ghost predicate Stands(c: CacheKVStore, was: Was)
    reads c.repr
  {
    Cached(c).Ok() && c.cache == was.cache && Is(c.parent, was.snap)
  }

  /** The cache was emptied into its parent, with the layers below as they were. */
  ghost predicate Emptied(c: CacheKVStore, was: Was)
    reads c.repr
  {
    && Cached(c).Ok() && c.cache == map[]
    && Cached(c).View() == c.parent.View() == Overlay(was.snap.view, Writes(was.cache))
    && KeptBelow(c, was.snap.levels) && (was.snap.nilFree ==> c.parent.NoNils())
  }

  /** The layers below the parent, which had the layers `levels`, are as they were. */
  ghost predicate KeptBelow(c: CacheKVStore, levels: seq<View>)
    requires Cached(c).Ok()
    reads c.repr
  {
    levels != [] && c.parent.Levels()[1..] == levels[1..]
  }

  method WriteCache(c: CacheKVStore, ghost was: Was)
    requires Stands(c, was)
    modifies c.repr
    ensures Emptied(c, was)
  {
    c.Write();
  }

  /** Caches over all stores, when their contents are known. */
  method CacheMounted(parents: Parents, ghost snaps: Snaps) returns (cms: CacheMultiStore)
    requires Apart(parents) && Mounted(parents, snaps)
    ensures cms.Ok() && cms.stores.Keys == parents.Keys && Over(parents, cms.stores) && AllEmpty(cms.stores, snaps)
    ensures fresh(cms) && fresh(cms.repr - Objects(parents)) && AmongCaches(cms.stores, cms.repr - Objects(parents))
  {
    var m, made := WrapAll(parents, parents.Keys, snaps);
    cms := new CacheMultiStore(m, made + Objects(parents), snaps);
  }

  /** `newCacheMultiStoreFromRMS`: a new cache over every mounted store, each showing the store's contents. */
  method CacheStores(parents: Parents) returns (cms: CacheMultiStore)
    requires Apart(parents) && forall k :: k in parents ==> parents[k].Ok()
    ensures cms.Ok() && cms.stores.Keys == parents.Keys && Over(parents, cms.stores)
    ensures forall k :: k in cms.stores ==> cms.stores[k].cache == map[]
    ensures forall k :: k in cms.stores ==> Cached(cms.stores[k]).View() == old(parents[k].View())
    ensures fresh(cms) && fresh(cms.repr - Objects(parents)) && AmongCaches(cms.stores, cms.repr - Objects(parents))
  {
    ghost var snaps := map k | k in parents :: Snap(parents[k].View(), parents[k].Levels(), parents[k].NoNils());
    cms := CacheMounted(parents, snaps);
    forall k | k in cms.stores ensures Cached(cms.stores[k]).View() == snaps[k].view {
      EmptyShows(cms.stores[k]);
    }
  }

  /** `newCacheMultiStoreFromCMS`: a new cache over every cache of another multistore. */
  method CacheCaches(below: CacheMultiStore) returns (cms: CacheMultiStore)
    requires below.Ok()
    ensures cms.Ok() && cms.stores.Keys == below.stores.Keys
    ensures forall k :: k in cms.stores ==>
              cms.stores[k].parent == Cached(below.stores[k]) && cms.stores[k].cache == map[]
    ensures forall k :: k in cms.stores ==> Cached(cms.stores[k]).View() == old(Cached(below.stores[k]).View())
    ensures fresh(cms) && fresh(cms.repr - below.repr) && AmongCaches(cms.stores, cms.repr - below.repr)
    ensures forall k :: k in cms.stores ==> cms.stores[k].repr == {cms.stores[k]} + below.stores[k].repr
  {
    var parents := map k | k in below.stores :: Cached(below.stores[k]);
    cms := CacheStores(parents);
  }
}
