/** Runs over all the stores of a multistore, and writing them back. */
module MultiRuns {
  import opened ByteOrder
  import opened MergeIteration
  import opened Stores
  import opened StoreRuns
  import opened MultiStores

  type Views = map<StoreKey, map<Bytes, Bytes>>

  /** A call on one of the mounted stores. */
  datatype StoreCall = StoreCall(store: StoreKey, call: Call)

  ghost predicate Mentioned(calls: seq<StoreCall>, keys: set<StoreKey>) {
    forall i :: 0 <= i < |calls| ==> calls[i].store in keys
  }

  /** The calls on one store, in order. */
  function CallsOn(calls: seq<StoreCall>, k: StoreKey): seq<Call> {
    if calls == [] then []
    else
      var last := calls[|calls| - 1];
      CallsOn(calls[..|calls| - 1], k) + if last.store == k then [last.call] else []
  }

  /** What the reads of a run return when every store is a plain map. */
  ghost function AllAnswers(views: Views, calls: seq<StoreCall>): seq<Option<Bytes>>
    requires Mentioned(calls, views.Keys)
  {
    if calls == [] then []
    else
      var before, last := calls[..|calls| - 1], calls[|calls| - 1];
      var m := After(views[last.store], CallsOn(before, last.store));
      AllAnswers(views, before) + if last.call.Get? then [Lookup(m, last.call.key)] else []
  }

  /** Plain maps after a run: each after its own calls. */
  ghost function AllAfter(views: Views, calls: seq<StoreCall>): Views {
    map k | k in views :: After(views[k], CallsOn(calls, k))
  }

  lemma AfterNothing(views: Views)
    ensures AllAfter(views, []) == views
  {
  }

  lemma AfterLast(m: View, calls: seq<StoreCall>, k: StoreKey)
    requires calls != []
    ensures var n := |calls| - 1;
            var v := After(m, CallsOn(calls[..n], k));
            After(m, CallsOn(calls, k)) == if calls[n].store == k then Apply(v, calls[n].call) else v
  {
    var n := |calls| - 1;
    var on := CallsOn(calls[..n], k);
    assert (on + [calls[n].call])[..|on|] == on && on + [] == on;
  }

  lemma UpdatedMap(a: Views, m: Views, k: StoreKey, v: View)
    requires a.Keys == m.Keys && k in m && forall j :: j in m ==> a[j] == if j == k then v else m[j]
    ensures a == m[k := v]
  {
  }

  lemma AllAfterLast(views: Views, calls: seq<StoreCall>)
    requires calls != [] && calls[|calls| - 1].store in views
    ensures var last := calls[|calls| - 1];
            var m := AllAfter(views, calls[..|calls| - 1]);
            AllAfter(views, calls) == m[last.store := Apply(m[last.store], last.call)]
  {
    var last := calls[|calls| - 1];
    var m := AllAfter(views, calls[..|calls| - 1]);
    var a, v := AllAfter(views, calls), Apply(m[last.store], last.call);
    forall k | k in views ensures a[k] == if k == last.store then v else m[k] {
      AfterLast(views[k], calls, k);
    }
    UpdatedMap(a, m, last.store, v);
  }

  // ---------------------------------------------------------------------------------------------
  // Calls on the caches

  /** A cache without set nils that shows `view`, over a parent with the given contents. */
  ghost predicate At(c: CacheKVStore, view: View, snap: Snap)
    reads c.repr
  {
    Cached(c).Ok() && NilFree(c.cache) && Cached(c).View() == view && Is(c.parent, snap)
  }

  ghost predicate AllAt(m: Caches, views: Views, snaps: Snaps)
    reads set k, o | k in m && o in m[k].repr :: o
  {
    forall k :: k in m ==> k in views && k in snaps && At(m[k], views[k], snaps[k])
  }

  lemma AtUpdate(m: Caches, views: Views, snaps: Snaps, k: StoreKey, v: View)
    requires k in m && k in snaps && At(m[k], v, snaps[k])
    requires forall j :: j in m && j != k ==> j in views && j in snaps && At(m[j], views[j], snaps[j])
    ensures AllAt(m, views[k := v], snaps)
  {
  }

  /** A call on a cache leaves its parent's contents alone. */
  method CallCache(c: CacheKVStore, call: Call, ghost view: View, ghost snap: Snap)
    returns (answers: seq<Option<Bytes>>)
    requires At(c, view, snap) && snap.nilFree
    modifies c.repr
    ensures At(c, Apply(view, call), snap)
    ensures answers == if call.Get? then [Lookup(view, call.key)] else []
  {
    answers := [];
    match call {
      case Get(k) =>
        var v := c.Get(k);
        answers := [v];
      case Set(k, v) =>
        c.Set(k, Some(v));
      case Delete(k) =>
        c.Delete(k);
    }
  }

  /** A call on one cache disturbs no other. */
  method PerformOne(cms: CacheMultiStore, c: StoreCall, ghost views: Views, ghost snaps: Snaps)
    returns (answers: seq<Option<Bytes>>)
    requires cms.Shape() && c.store in cms.stores && AllAt(cms.stores, views, snaps) && snaps[c.store].nilFree
    modifies cms.stores[c.store].repr
    ensures AllAt(cms.stores, views[c.store := Apply(views[c.store], c.call)], snaps)
    ensures answers == if c.call.Get? then [Lookup(views[c.store], c.call.key)] else []
  {
    var k := c.store;
    answers := CallCache(cms.stores[k], c.call, views[k], snaps[k]);
    forall j | j in cms.stores && j != k ensures At(cms.stores[j], views[j], snaps[j]) {
      assert old(At(cms.stores[j], views[j], snaps[j]));
      Frame(cms.stores[j]);
    }
    AtUpdate(cms.stores, views, snaps, k, Apply(views[k], c.call));
  }

  /** Any calls on the caches of a multistore: every cache shows the plain map after its own calls. */
  method Perform(cms: CacheMultiStore, calls: seq<StoreCall>, ghost views: Views, ghost snaps: Snaps)
    returns (answers: seq<Option<Bytes>>)
    requires cms.Shape() && AllAt(cms.stores, views, snaps) && views.Keys == cms.stores.Keys
    requires Mentioned(calls, cms.stores.Keys) && forall k :: k in snaps ==> snaps[k].nilFree
    modifies cms.repr
    ensures AllAt(cms.stores, AllAfter(views, calls), snaps)
    ensures answers == AllAnswers(views, calls)
  {
    if calls == [] {
      AfterNothing(views);
      return [];
    }
    var n := |calls| - 1;
    answers := Perform(cms, calls[..n], views, snaps);
    AllAfterLast(views, calls);
    var more := PerformOne(cms, calls[n], AllAfter(views, calls[..n]), snaps);
    answers := answers + more;
  }

  // ---------------------------------------------------------------------------------------------
  // Writing back

  /** The cache was emptied into its parent, which now shows `view`; the layers below are as they were. */
  ghost predicate Back(c: CacheKVStore, view: View, snap: Snap)
    reads c.repr
  {
    && Cached(c).Ok() && c.cache == map[] && Cached(c).View() == c.parent.View() == view && c.parent.NoNils()
    && KeptBelow(c, snap.levels)
  }

  ghost predicate AllBack(m: Caches, views: Views, snaps: Snaps)
    reads set k, o | k in m && o in m[k].repr :: o
  {
    forall k :: k in m ==> k in views && k in snaps && Back(m[k], views[k], snaps[k])
  }

  method WriteBack(cms: CacheMultiStore, ghost views: Views, ghost snaps: Snaps)
    requires cms.Shape() && AllAt(cms.stores, views, snaps) && forall k :: k in snaps ==> snaps[k].nilFree
    modifies cms.repr
    ensures cms.Ok() && AllBack(cms.stores, views, snaps)
  {
    forall k | k in cms.stores ensures NoNilOverLive(cms.stores[k].parent.View(), cms.stores[k].cache) {
      assert At(cms.stores[k], views[k], snaps[k]);
    }
    cms.Write();
    forall k | k in cms.stores ensures Back(cms.stores[k], views[k], snaps[k]) {
      assert old(At(cms.stores[k], views[k], snaps[k]));
    }
  }

  /** Empty caches over stores without set nils. */
  lemma EmptyAt(m: Caches, snaps: Snaps, views: Views)
    requires AllEmpty(m, snaps) && views.Keys == snaps.Keys
    requires forall k :: k in snaps ==> views[k] == snaps[k].view
    ensures AllAt(m, views, snaps)
  {
    forall k | k in m ensures At(m[k], views[k], snaps[k]) {
      assert Empty(m[k], snaps[k]);
      EmptyShows(m[k]);
    }
  }

  /** Caches over all mounted stores, any calls on them, and a write, when the contents are known. */
  method RunMounted(parents: Parents, calls: seq<StoreCall>, ghost snaps: Snaps, ghost views: Views)
    returns (cms: CacheMultiStore, answers: seq<Option<Bytes>>)
    requires Apart(parents) && Mounted(parents, snaps) && Mentioned(calls, parents.Keys)
    requires snaps.Keys == views.Keys == parents.Keys
    requires forall k :: k in snaps ==> views[k] == snaps[k].view && snaps[k].nilFree
    modifies Objects(parents)
    ensures cms.Ok() && cms.stores.Keys == parents.Keys && Over(parents, cms.stores)
    ensures answers == AllAnswers(views, calls) && AllBack(cms.stores, AllAfter(views, calls), snaps)
  {
    cms := CacheMounted(parents, snaps);
    EmptyAt(cms.stores, snaps, views);
    answers := Perform(cms, calls, views, snaps);
    WriteBack(cms, AllAfter(views, calls), snaps);
  }

  /** The contents of the mounted stores. */
  ghost function ViewsOf(parents: Parents): Views
    requires forall k :: k in parents ==> parents[k].Ok()
    reads set k, o | k in parents && o in parents[k].Repr() :: o
  {
    map k | k in parents :: parents[k].View()
  }

  lemma BackOne(c: CacheKVStore, view: View, snap: Snap)
    requires Back(c, view, snap)
    ensures c.parent.Ok() && c.parent.NoNils() && c.cache == map[] && c.parent.View() == view
    ensures snap.levels != [] && c.parent.Levels()[1..] == snap.levels[1..]
  {
  }

  lemma BackParents(parents: Parents, m: Caches, views: Views, snaps: Snaps)
    requires Over(parents, m) && m.Keys == views.Keys == parents.Keys && AllBack(m, views, snaps)
    ensures forall k :: k in parents ==> parents[k].Ok() && parents[k].NoNils() && m[k].cache == map[]
    ensures forall k :: k in parents ==> snaps[k].levels != [] && parents[k].Levels()[1..] == snaps[k].levels[1..]
    ensures ViewsOf(parents) == views
  {
    forall k | k in parents
      ensures parents[k].Ok() && parents[k].NoNils() && m[k].cache == map[]
      ensures parents[k].View() == views[k]
      ensures snaps[k].levels != [] && parents[k].Levels()[1..] == snaps[k].levels[1..]
    {
      BackOne(m[k], views[k], snaps[k]);
    }
  }

  /** Caches over all mounted stores, any calls on them in any order, and a write: every store is the plain
      map after its own calls, every read returned what it returns there, and no lower layer changed. */
  method RunAndWriteAll(parents: Parents, calls: seq<StoreCall>)
    returns (cms: CacheMultiStore, answers: seq<Option<Bytes>>)
    requires Apart(parents) && forall k :: k in parents ==> parents[k].Ok() && parents[k].NoNils()
    requires Mentioned(calls, parents.Keys)
    modifies Objects(parents)
    ensures cms.Ok() && cms.stores.Keys == parents.Keys && Over(parents, cms.stores)
    ensures answers == AllAnswers(old(ViewsOf(parents)), calls)
    ensures forall k :: k in parents ==> parents[k].Ok() && parents[k].NoNils()
    ensures ViewsOf(parents) == AllAfter(old(ViewsOf(parents)), calls)
    ensures forall k :: k in parents ==> parents[k].Levels()[1..] == old(parents[k].Levels())[1..]
    ensures forall k :: k in parents ==> cms.stores[k].cache == map[]
  {
    ghost var views := ViewsOf(parents);
    ghost var snaps := map k | k in parents :: Snap(parents[k].View(), parents[k].Levels(), parents[k].NoNils());
    cms, answers := RunMounted(parents, calls, snaps, views);
    BackParents(parents, cms.stores, AllAfter(views, calls), snaps);
  }
}
