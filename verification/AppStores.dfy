/** The check and deliver states of `BaseApp` as multistores of caches over the same mounted stores. */
module AppStores {
  import opened ByteOrder
  import opened MergeIteration
  import opened Stores
  import opened StoreRuns
  import opened MultiStores
  import opened MultiRuns

  // ---------------------------------------------------------------------------------------------
  // What becomes of a cache when the store below it is written by another

  /** A cache over a store that changed reads what the layer of its dirty entries shows exactly when no key that
      it remembers from reading has changed. */
  lemma FreshReadsIff(m: View, m': View, c: map<Bytes, CValue>)
    requires Coherent(m, c)
    ensures (forall k :: ReadThrough(m', c, k) == Lookup(Overlay(m', Dirty(c)), k)) <==>
            (forall k :: k in c && !c[k].dirty ==> Lookup(m', k) == Lookup(m, k))
  {
    forall k
      ensures (ReadThrough(m', c, k) == Lookup(Overlay(m', Dirty(c)), k)) <==>
              (k in c && !c[k].dirty ==> Lookup(m', k) == Lookup(m, k))
    {
      OverlayLookup(m', Dirty(c), k);
    }
  }

  /** A cache that has read a key still returns the old value after another cache wrote a new one. */
  lemma StaleRead()
    ensures var m: View, m': View, c := map[[1] := [2]], map[[1] := [3]], map[[1] := CValue(Some([2]), false, false)];
            Coherent(m, c) && ReadThrough(m', c, [1]) == Some([2]) && Lookup(Overlay(m', Dirty(c)), [1]) == Some([3])
  {
    OverlayLookup(map[[1] := [3]], Dirty(map[[1] := CValue(Some([2]), false, false)]), [1]);
  }

  // ---------------------------------------------------------------------------------------------
  // The reference: unrelated plain maps

  datatype Tiers = Tiers(committed: Views, check: Option<Views>, deliver: Option<Views>)

  /** `Tx` makes the ante handler's calls on a state and the messages' calls on a cache over it, which is written
      back or dropped; with no messages it is a hook. `Open` and `Begin` set the states for `InitChain` and
      `BeginBlock`. */
  datatype Step =
    | Open
    | Begin
    | Tx(onDeliver: bool, ante: seq<StoreCall>, msgs: seq<StoreCall>, keep: bool)
    | Commit

  function Target(t: Tiers, onDeliver: bool): Option<Views> {
    if onDeliver then t.deliver else t.check
  }

  ghost function TxViews(views: Views, ante: seq<StoreCall>, msgs: seq<StoreCall>, keep: bool): Views {
    var v := AllAfter(views, ante);
    if keep then AllAfter(v, msgs) else v
  }

  ghost function TierStep(t: Tiers, s: Step): Tiers {
    match s
    case Open => t.(check := Some(t.committed), deliver := Some(t.committed))
    case Begin => if t.deliver.None? then t.(deliver := Some(t.committed)) else t
    case Tx(onDeliver, ante, msgs, keep) =>
      if Target(t, onDeliver).None? then t
      else
        var v := Some(TxViews(Target(t, onDeliver).value, ante, msgs, keep));
        if onDeliver then t.(deliver := v) else t.(check := v)
    case Commit => if t.deliver.None? then t else Tiers(t.deliver.value, t.deliver, None)
  }

  ghost function TierRun(t: Tiers, steps: seq<Step>): Tiers {
    if steps == [] then t else TierStep(TierRun(t, steps[..|steps| - 1]), steps[|steps| - 1])
  }

  /** `Commit` dereferences the deliver state. */
  ghost predicate Enabled(t: Tiers, s: Step) {
    s.Commit? ==> t.deliver.Some?
  }

  ghost predicate CanRun(t: Tiers, steps: seq<Step>) {
    steps == [] ||
    (CanRun(t, steps[..|steps| - 1]) && Enabled(TierRun(t, steps[..|steps| - 1]), steps[|steps| - 1]))
  }

  /** What the reads of a step return. */
  ghost function StepAnswers(t: Tiers, s: Step): seq<Option<Bytes>>
    requires StepMentions(s, t.committed.Keys) && SameKeys(t)
  {
    if s.Tx? && Target(t, s.onDeliver).Some? then
      var v := Target(t, s.onDeliver).value;
      AllAnswers(v, s.ante) + AllAnswers(AllAfter(v, s.ante), s.msgs)
    else []
  }

  ghost predicate StepMentions(s: Step, keys: set<StoreKey>) {
    s.Tx? ==> Mentioned(s.ante, keys) && Mentioned(s.msgs, keys)
  }

  ghost predicate StepsMention(steps: seq<Step>, keys: set<StoreKey>) {
    forall i :: 0 <= i < |steps| ==> StepMentions(steps[i], keys)
  }

  /** All states have the same stores. */
  ghost predicate SameKeys(t: Tiers) {
    && (t.check.Some? ==> t.check.value.Keys == t.committed.Keys)
    && (t.deliver.Some? ==> t.deliver.value.Keys == t.committed.Keys)
  }

  lemma StepSameKeys(t: Tiers, s: Step)
    requires SameKeys(t)
    ensures SameKeys(TierStep(t, s)) && TierStep(t, s).committed.Keys == t.committed.Keys
  {
  }

  lemma {:induction false} RunSameKeys(t: Tiers, steps: seq<Step>)
    requires SameKeys(t)
    ensures SameKeys(TierRun(t, steps)) && TierRun(t, steps).committed.Keys == t.committed.Keys
  {
    if steps != [] {
      RunSameKeys(t, steps[..|steps| - 1]);
      StepSameKeys(TierRun(t, steps[..|steps| - 1]), steps[|steps| - 1]);
    }
  }

  ghost function RunAnswers(t: Tiers, steps: seq<Step>): seq<Option<Bytes>>
    requires SameKeys(t) && StepsMention(steps, t.committed.Keys)
  {
    if steps == [] then []
    else
      var before := steps[..|steps| - 1];
      RunSameKeys(t, before);
      RunAnswers(t, before) + StepAnswers(TierRun(t, before), steps[|steps| - 1])
  }

  /** The writes of a run, as a layer of dirty entries. */
  function DeltaOf(calls: seq<Call>): map<Bytes, Option<Bytes>> {
    if calls == [] then map[]
    else
      var before := DeltaOf(calls[..|calls| - 1]);
      match calls[|calls| - 1]
      case Get(_) => before
      case Set(k, v) => before[k := Some(v)]
      case Delete(k) => before[k := None]
  }

  /** A run of calls changes a plain map as its layer of writes does. */
  lemma {:induction false} CallsAreDelta(m: View, calls: seq<Call>)
    ensures After(m, calls) == Overlay(m, DeltaOf(calls))
  {
    if calls == [] {
      assert Overlay(m, map[]) == m;
    } else {
      var before, last := calls[..|calls| - 1], calls[|calls| - 1];
      CallsAreDelta(m, before);
      if !last.Get? {
        OverlayUpdate(m, DeltaOf(before), last.key, if last.Set? then Some(last.value) else None);
      }
    }
  }

  // ---------------------------------------------------------------------------------------------
  // A state as caches over the mounted stores

  /** One cache over every mounted store. */
  ghost predicate Placed(parents: Parents, cms: CacheMultiStore) {
    && cms.Shape() && cms.stores.Keys == parents.Keys && Over(parents, cms.stores)
    && forall k :: k in cms.stores ==> parents[k].Height() < cms.stores[k].height
  }

  /** The caches show the given contents, over stores with the given contents. */
  ghost predicate Layered(parents: Parents, cms: CacheMultiStore, views: Views, snaps: Snaps)
    reads cms.repr
  {
    && Placed(parents, cms) && views.Keys == snaps.Keys == parents.Keys
    && (forall k :: k in snaps ==> snaps[k].nilFree) && AllAt(cms.stores, views, snaps)
  }

  lemma LayeredMounts(parents: Parents, cms: CacheMultiStore, views: Views, snaps: Snaps)
    requires Layered(parents, cms, views, snaps)
    ensures Mounted(parents, snaps)
  {
    forall k | k in parents ensures Is(parents[k], snaps[k]) {
      assert At(cms.stores[k], views[k], snaps[k]);
    }
  }

  /** The caches' entries show `views` over contents `snaps`. */
  ghost predicate Shows(cms: CacheMultiStore, views: Views, snaps: Snaps)
    reads set k | k in cms.stores :: cms.stores[k]
  {
    forall k :: k in cms.stores ==> k in views && k in snaps && ShowsOne(cms.stores[k].cache, views[k], snaps[k].view)
  }

  ghost predicate ShowsOne(cache: map<Bytes, CValue>, view: View, below: View) {
    Coherent(below, cache) && NilFree(cache) && view == Overlay(below, Dirty(cache))
  }

  lemma LayeredShows(parents: Parents, cms: CacheMultiStore, views: Views, snaps: Snaps)
    requires Layered(parents, cms, views, snaps)
    ensures Shows(cms, views, snaps)
  {
    forall k | k in cms.stores ensures ShowsOne(cms.stores[k].cache, views[k], snaps[k].view) {
      assert At(cms.stores[k], views[k], snaps[k]);
    }
  }

  lemma AtOnce(c: CacheKVStore, view: View, snap: Snap)
    requires c.repr == {c} + c.parent.Repr() && c !in c.parent.Repr() && c.parent.Height() < c.height
    requires Is(c.parent, snap) && ShowsOne(c.cache, view, snap.view)
    ensures At(c, view, snap)
  {
    assert Cached(c).Ok();
  }

  /** Caches that nobody touched, over stores that show what they showed. */
  lemma StillLayered(parents: Parents, cms: CacheMultiStore, views: Views, snaps: Snaps)
    requires Placed(parents, cms) && views.Keys == snaps.Keys == parents.Keys
    requires (forall k :: k in snaps ==> snaps[k].nilFree) && Mounted(parents, snaps)
    requires Shows(cms, views, snaps)
    ensures Layered(parents, cms, views, snaps)
  {
    forall k | k in cms.stores ensures At(cms.stores[k], views[k], snaps[k]) {
      AtOnce(cms.stores[k], views[k], snaps[k]);
    }
  }

  // ---------------------------------------------------------------------------------------------
  // A transaction on one state

  /** The view of a store whose top layer has the given contents. */
  ghost function ShownBy(s: KVStore, top: View): View {
    match s
    case Prefixed(u, p) => Unprefix(ShownBy(u, top), p)
    case _ => top
  }

  lemma {:induction false} ViewShown(s: KVStore)
    requires s.Ok()
    ensures s.View() == ShownBy(s, s.Levels()[0])
  {
    match s
    case Base(_) =>
    case Cached(_) =>
    case Prefixed(u, _) => ViewShown(u);
  }

  /** The contents are those of stores with the given layers. */
  ghost predicate Genuine(parents: Parents, snaps: Snaps) {
    forall k :: k in parents ==>
      k in snaps && snaps[k].levels != [] && snaps[k].view == ShownBy(parents[k], snaps[k].levels[0])
  }

  lemma MountedGenuine(parents: Parents, snaps: Snaps)
    requires Mounted(parents, snaps)
    ensures Genuine(parents, snaps)
  {
    forall k | k in parents
      ensures snaps[k].levels != [] && snaps[k].view == ShownBy(parents[k], snaps[k].levels[0])
    {
      assert Is(parents[k], snaps[k]);
      ViewShown(parents[k]);
    }
  }

  lemma LevelsBelow(c: CacheKVStore)
    requires Cached(c).Ok()
    ensures c.parent.Ok() && c.parent.Levels() == Cached(c).Levels()[1..]
  {
  }

  /** A cache over a store whose layers are as they were. */
  lemma AtByLevels(c: CacheKVStore, view: View, snap: Snap)
    requires Cached(c).Ok() && Cached(c).NoNils() && Cached(c).View() == view && c.parent.Levels() == snap.levels
    requires snap.nilFree && snap.levels != [] && snap.view == ShownBy(c.parent, snap.levels[0])
    ensures At(c, view, snap)
  {
    ViewShown(c.parent);
  }

  /** The caches as stores for other caches. */
  function Above(cms: CacheMultiStore): (above: Parents)
    ensures above.Keys == cms.stores.Keys
  {
    map k | k in cms.stores :: Cached(cms.stores[k])
  }

  ghost function SnapsAbove(views: Views, snaps: Snaps): Snaps
    requires views.Keys == snaps.Keys
  {
    map k | k in views :: Snap(views[k], [views[k]] + snaps[k].levels, true)
  }

  lemma AboveIs(c: CacheKVStore, view: View, snap: Snap)
    requires At(c, view, snap) && snap.nilFree
    ensures Is(Cached(c), Snap(view, [view] + snap.levels, true))
  {
  }

  lemma AboveApart(cms: CacheMultiStore)
    requires cms.Shape()
    ensures Apart(Above(cms)) && Objects(Above(cms)) <= cms.repr
  {
  }

  lemma AboveMounted(parents: Parents, cms: CacheMultiStore, views: Views, snaps: Snaps)
    requires Layered(parents, cms, views, snaps)
    ensures Mounted(Above(cms), SnapsAbove(views, snaps))
  {
    forall k | k in cms.stores ensures Is(Cached(cms.stores[k]), SnapsAbove(views, snaps)[k]) {
      AboveIs(cms.stores[k], views[k], snaps[k]);
    }
  }

  /** The contents of caches over stores with the contents `snaps`. */
  ghost predicate OneAbove(above: Snaps, snaps: Snaps) {
    && above.Keys == snaps.Keys
    && (forall k :: k in above ==> above[k].levels == [above[k].view] + snaps[k].levels)
    && (forall k :: k in above ==> above[k].nilFree && snaps[k].nilFree)
  }

  /** A cache into which another was written back. */
  lemma KeptOne(c: CacheKVStore, u: CacheKVStore, view: View, above: Snap, snap: Snap)
    requires u.parent == Cached(c) && Back(u, view, above) && above.levels == [above.view] + snap.levels
    requires snap.nilFree && snap.levels != [] && snap.view == ShownBy(c.parent, snap.levels[0])
    ensures At(c, view, snap)
  {
    LevelsBelow(c);
    AtByLevels(c, view, snap);
  }

  /** A cache above which another is dropped. */
  lemma DroppedOne(c: CacheKVStore, u: CacheKVStore, view: View, above: Snap, snap: Snap)
    requires u.parent == Cached(c) && At(u, view, above) && above.levels == [above.view] + snap.levels && above.nilFree
    requires snap.nilFree && snap.levels != [] && snap.view == ShownBy(c.parent, snap.levels[0])
    ensures At(c, above.view, snap)
  {
    assert Is(Cached(c), above);
    LevelsBelow(c);
    AtByLevels(c, above.view, snap);
  }

  /** What is above was written back. */
  lemma KeptAbove(parents: Parents, cms: CacheMultiStore, up: Caches, views: Views, above: Snaps, snaps: Snaps)
    requires Over(parents, cms.stores) && Over(Above(cms), up) && up.Keys == cms.stores.Keys && Genuine(parents, snaps)
    requires OneAbove(above, snaps) && AllBack(up, views, above)
    ensures AllAt(cms.stores, views, snaps)
  {
    forall k | k in cms.stores ensures k in views && k in snaps && At(cms.stores[k], views[k], snaps[k]) {
      assert k in up && Back(up[k], views[k], above[k]);
      KeptOne(cms.stores[k], up[k], views[k], above[k], snaps[k]);
    }
  }

  /** What is above is dropped. */
  lemma DroppedAbove(parents: Parents, cms: CacheMultiStore, up: Caches, shown: Views, views: Views, above: Snaps,
                     snaps: Snaps)
    requires Over(parents, cms.stores) && Over(Above(cms), up) && up.Keys == cms.stores.Keys && Genuine(parents, snaps)
    requires OneAbove(above, snaps) && AllAt(up, shown, above)
    requires above.Keys == views.Keys && forall k :: k in views ==> above[k].view == views[k]
    ensures AllAt(cms.stores, views, snaps)
  {
    forall k | k in cms.stores ensures k in views && k in snaps && At(cms.stores[k], views[k], snaps[k]) {
      assert k in up && At(up[k], shown[k], above[k]);
      DroppedOne(cms.stores[k], up[k], shown[k], above[k], snaps[k]);
    }
  }

  /** The messages' calls on a cache over the state, which is written back or dropped. */
  method RunMsgs(parents: Parents, cms: CacheMultiStore, msgs: seq<StoreCall>, keep: bool, ghost views: Views,
                 ghost snaps: Snaps)
    returns (answers: seq<Option<Bytes>>)
    requires Layered(parents, cms, views, snaps) && Mentioned(msgs, parents.Keys)
    modifies cms.repr
    ensures Layered(parents, cms, if keep then AllAfter(views, msgs) else views, snaps)
    ensures answers == AllAnswers(views, msgs)
  {
    LayeredMounts(parents, cms, views, snaps);
    MountedGenuine(parents, snaps);
    AboveApart(cms);
    AboveMounted(parents, cms, views, snaps);
    ghost var above := SnapsAbove(views, snaps);
    var up := CacheMounted(Above(cms), above);
    EmptyAt(up.stores, above, views);
    answers := Perform(up, msgs, views, above);
    if keep {
      WriteBack(up, AllAfter(views, msgs), above);
      KeptAbove(parents, cms, up.stores, AllAfter(views, msgs), above, snaps);
    } else {
      DroppedAbove(parents, cms, up.stores, AllAfter(views, msgs), views, above, snaps);
    }
  }

  /** `runTx` on one state. */
  method RunTx(parents: Parents, cms: CacheMultiStore, ante: seq<StoreCall>, msgs: seq<StoreCall>, keep: bool,
               ghost views: Views, ghost snaps: Snaps)
    returns (answers: seq<Option<Bytes>>)
    requires Layered(parents, cms, views, snaps) && Mentioned(ante, parents.Keys) && Mentioned(msgs, parents.Keys)
    modifies cms.repr
    ensures Layered(parents, cms, TxViews(views, ante, msgs, keep), snaps)
    ensures answers == AllAnswers(views, ante) + AllAnswers(AllAfter(views, ante), msgs)
  {
    answers := Perform(cms, ante, views, snaps);
    var more := RunMsgs(parents, cms, msgs, keep, AllAfter(views, ante), snaps);
    answers := answers + more;
  }

  // ---------------------------------------------------------------------------------------------
  // Two states side by side

  ghost function ReprOf(l: Option<CacheMultiStore>): set<object> {
    if l.Some? then l.value.repr else {}
  }

  ghost predicate LayerAt(parents: Parents, l: Option<CacheMultiStore>, views: Option<Views>, snaps: Snaps)
    reads ReprOf(l)
  {
    l.Some? == views.Some? && (l.Some? ==> Layered(parents, l.value, views.value, snaps))
  }

  /** No cache of the state is among the objects. */
  ghost predicate Clear(l: Option<CacheMultiStore>, objects: set<object>) {
    l.Some? ==> forall k :: k in l.value.stores ==> l.value.stores[k] !in objects
  }

  /** A transaction on one state leaves the other alone. */
  method RunTxBeside(parents: Parents, cms: CacheMultiStore, beside: Option<CacheMultiStore>, ante: seq<StoreCall>,
                     msgs: seq<StoreCall>, keep: bool, ghost views: Views, ghost others: Option<Views>,
                     ghost snaps: Snaps)
    returns (answers: seq<Option<Bytes>>)
    requires Layered(parents, cms, views, snaps) && Mentioned(ante, parents.Keys) && Mentioned(msgs, parents.Keys)
    requires LayerAt(parents, beside, others, snaps) && Clear(beside, cms.repr)
    modifies cms.repr
    ensures Layered(parents, cms, TxViews(views, ante, msgs, keep), snaps)
    ensures LayerAt(parents, beside, others, snaps)
    ensures answers == AllAnswers(views, ante) + AllAnswers(AllAfter(views, ante), msgs)
  {
    if beside.Some? {
      LayeredShows(parents, beside.value, others.value, snaps);
    }
    answers := RunTx(parents, cms, ante, msgs, keep, views, snaps);
    LayeredMounts(parents, cms, TxViews(views, ante, msgs, keep), snaps);
    if beside.Some? {
      StillLayered(parents, beside.value, others.value, snaps);
    }
  }

  /** The stores' contents, without set nils. */
  ghost predicate Committed(parents: Parents, snaps: Snaps, views: Views)
    reads Objects(parents)
  {
    && Apart(parents) && Mounted(parents, snaps) && snaps.Keys == views.Keys == parents.Keys
    && forall k :: k in snaps ==> snaps[k].nilFree && snaps[k].view == views[k]
  }

  /** `setCheckState` and `setDeliverState`: a new state that shows the committed contents. */
  method NewState(parents: Parents, ghost snaps: Snaps, ghost views: Views) returns (cms: CacheMultiStore)
    requires Committed(parents, snaps, views)
    ensures Committed(parents, snaps, views) && Layered(parents, cms, views, snaps)
    ensures fresh(cms) && fresh(cms.repr - Objects(parents)) && AmongCaches(cms.stores, cms.repr - Objects(parents))
  {
    cms := CacheMounted(parents, snaps);
    EmptyAt(cms.stores, snaps, views);
    NewPlaced(parents, cms, snaps);
    LayeredMounts(parents, cms, views, snaps);
  }

  lemma NewPlaced(parents: Parents, cms: CacheMultiStore, snaps: Snaps)
    requires cms.Shape() && cms.stores.Keys == parents.Keys && Over(parents, cms.stores) && AllEmpty(cms.stores, snaps)
    ensures Placed(parents, cms)
  {
    forall k | k in cms.stores ensures parents[k].Height() < cms.stores[k].height {
      assert Empty(cms.stores[k], snaps[k]);
    }
  }

  ghost function SnapsOf(parents: Parents): Snaps
    requires forall k :: k in parents ==> parents[k].Ok()
    reads set k, o | k in parents && o in parents[k].Repr() :: o
  {
    map k | k in parents :: Snap(parents[k].View(), parents[k].Levels(), parents[k].NoNils())
  }

  lemma CommittedNow(parents: Parents, views: Views)
    requires Apart(parents) && forall k :: k in parents ==> parents[k].Ok() && parents[k].NoNils()
    requires ViewsOf(parents) == views
    ensures Committed(parents, SnapsOf(parents), views)
  {
    var snaps := SnapsOf(parents);
    forall k | k in parents ensures Is(parents[k], snaps[k]) && snaps[k].nilFree && snaps[k].view == views[k] {
    }
  }

  /** The write of `Commit`. */
  method WriteState(parents: Parents, cms: CacheMultiStore, ghost views: Views, ghost snaps: Snaps)
    returns (ghost after: Snaps)
    requires Apart(parents) && Layered(parents, cms, views, snaps)
    modifies cms.repr
    ensures Committed(parents, after, views)
  {
    WriteBack(cms, views, snaps);
    BackParents(parents, cms.stores, views, snaps);
    CommittedNow(parents, views);
    after := SnapsOf(parents);
  }

  /** A new state shares no cache with the one beside it, which stays as it is. */
  method NewBeside(parents: Parents, beside: Option<CacheMultiStore>, ghost others: Option<Views>, ghost snaps: Snaps,
                   ghost views: Views)
    returns (cms: CacheMultiStore)
    requires Committed(parents, snaps, views) && LayerAt(parents, beside, others, snaps)
    ensures Committed(parents, snaps, views) && LayerAt(parents, beside, others, snaps)
    ensures Layered(parents, cms, views, snaps) && fresh(cms.repr - Objects(parents))
    ensures Clear(beside, cms.repr) && Clear(Some(cms), ReprOf(beside))
  {
    if beside.None? {
      cms := NewState(parents, snaps, views);
    } else {
      LayeredShows(parents, beside.value, others.value, snaps);
      cms := NewState(parents, snaps, views);
      StillLayered(parents, beside.value, others.value, snaps);
      ClearOfNew(parents, beside, cms.repr - Objects(parents), cms.repr);
    }
  }

  lemma ClearOfNew(parents: Parents, l: Option<CacheMultiStore>, made: set<object>, objects: set<object>)
    requires l.Some? ==> Over(parents, l.value.stores)
    requires objects <= made + Objects(parents) && Clear(l, made)
    ensures Clear(l, objects)
  {
  }

  // ---------------------------------------------------------------------------------------------
  // The application's stores

  class App {
    const parents: Parents
    var check: Option<CacheMultiStore>
    var deliver: Option<CacheMultiStore>
    /** What the mounted stores hold, and the reference state. */
    ghost var snaps: Snaps
    ghost var tiers: Tiers

    ghost function Footprint(): set<object>
      reads this
    {
      {this} + Objects(parents) + ReprOf(check) + ReprOf(deliver)
    }

    /** The states share no cache, and the application is no part of a store. */
    ghost predicate Separate(c: Option<CacheMultiStore>, d: Option<CacheMultiStore>) {
      Clear(c, ReprOf(d)) && Clear(d, ReprOf(c)) && this !in Objects(parents) + ReprOf(c) + ReprOf(d)
    }

    ghost predicate Valid()
      reads this, Objects(parents), ReprOf(check), ReprOf(deliver)
    {
      && Separate(check, deliver) && Committed(parents, snaps, tiers.committed)
      && LayerAt(parents, check, tiers.check, snaps) && LayerAt(parents, deliver, tiers.deliver, snaps)
    }

    constructor (ps: Parents)
      requires Apart(ps) && forall k :: k in ps ==> ps[k].Ok() && ps[k].NoNils()
      ensures parents == ps && Valid() && tiers == Tiers(old(ViewsOf(ps)), None, None)
      ensures Footprint() == {this} + Objects(ps)
    {
      forall k | k in ps ensures forall o :: o in ps[k].Repr() ==> allocated(o) {
        ps[k].ReprAllocated();
      }
      CommittedNow(ps, ViewsOf(ps));
      parents, check, deliver := ps, None, None;
      snaps, tiers := SnapsOf(ps), Tiers(ViewsOf(ps), None, None);
    }

    /** The mounted stores hold the committed contents. */
    lemma StoresAreCommitted()
      requires Valid()
      ensures forall k :: k in parents ==>
                k in tiers.committed && parents[k].Ok() && parents[k].View() == tiers.committed[k]
    {
      forall k | k in parents ensures parents[k].Ok() && parents[k].View() == tiers.committed[k] {
        assert Is(parents[k], snaps[k]);
      }
    }

    /** Sets the fields, which are no part of a store. */
    method Assign(c: Option<CacheMultiStore>, d: Option<CacheMultiStore>, ghost s: Snaps, ghost t: Tiers)
      requires Mounted(parents, s) && this !in Objects(parents)
      modifies this
      ensures Mounted(parents, s) && check == c && deliver == d && snaps == s && tiers == t
      ensures c.Some? ==> forall k :: k in c.value.stores ==> unchanged(c.value.stores[k])
      ensures d.Some? ==> forall k :: k in d.value.stores ==> unchanged(d.value.stores[k])
    {
      forall k | k in parents ensures forall o :: o in parents[k].Repr() ==> allocated(o) {
        parents[k].ReprAllocated();
      }
      check, deliver, snaps, tiers := c, d, s, t;
      forall k | k in parents ensures Is(parents[k], s[k]) {
        assert old(Is(parents[k], s[k]));
        StoreFrame(parents[k]);
      }
    }

    method Install(c: Option<CacheMultiStore>, d: Option<CacheMultiStore>, ghost s: Snaps, ghost t: Tiers)
      requires Separate(c, d) && Committed(parents, s, t.committed)
      requires LayerAt(parents, c, t.check, s) && LayerAt(parents, d, t.deliver, s)
      modifies this
      ensures Valid() && check == c && deliver == d && snaps == s && tiers == t
    {
      if c.Some? {
        LayeredShows(parents, c.value, t.check.value, s);
      }
      if d.Some? {
        LayeredShows(parents, d.value, t.deliver.value, s);
      }
      Assign(c, d, s, t);
      if c.Some? {
        StillLayered(parents, c.value, t.check.value, s);
      }
      if d.Some? {
        StillLayered(parents, d.value, t.deliver.value, s);
      }
    }

    method SetDeliver()
      requires Valid()
      modifies this
      ensures Valid() && tiers == old(tiers).(deliver := Some(old(tiers).committed))
      ensures fresh(Footprint() - old(Footprint()))
    {
      var cms := NewBeside(parents, check, tiers.check, snaps, tiers.committed);
      Install(check, Some(cms), snaps, tiers.(deliver := Some(tiers.committed)));
    }

    method SetCheck()
      requires Valid()
      modifies this
      ensures Valid() && tiers == old(tiers).(check := Some(old(tiers).committed))
      ensures fresh(Footprint() - old(Footprint()))
    {
      var cms := NewBeside(parents, deliver, tiers.deliver, snaps, tiers.committed);
      Install(Some(cms), deliver, snaps, tiers.(check := Some(tiers.committed)));
    }

    /** A transaction or hook on one of the states. */
    method RunOn(cms: CacheMultiStore, beside: Option<CacheMultiStore>, tx: Step, ghost views: Views,
                 ghost others: Option<Views>)
      returns (answers: seq<Option<Bytes>>)
      requires tx.Tx? && StepMentions(tx, parents.Keys) && Committed(parents, snaps, tiers.committed)
      requires Layered(parents, cms, views, snaps) && LayerAt(parents, beside, others, snaps) && Clear(beside, cms.repr)
      requires this !in cms.repr
      modifies cms.repr
      ensures Committed(parents, snaps, tiers.committed) && LayerAt(parents, beside, others, snaps)
      ensures Layered(parents, cms, TxViews(views, tx.ante, tx.msgs, tx.keep), snaps)
      ensures answers == AllAnswers(views, tx.ante) + AllAnswers(AllAfter(views, tx.ante), tx.msgs)
    {
      answers := RunTxBeside(parents, cms, beside, tx.ante, tx.msgs, tx.keep, views, others, snaps);
      LayeredMounts(parents, cms, TxViews(views, tx.ante, tx.msgs, tx.keep), snaps);
    }

    method DeliverTx(tx: Step) returns (answers: seq<Option<Bytes>>)
      requires Valid() && tx.Tx? && tx.onDeliver && StepMentions(tx, parents.Keys)
      modifies Footprint()
      ensures Valid() && tiers == TierStep(old(tiers), tx) && Footprint() == old(Footprint())
      ensures SameKeys(old(tiers)) && answers == StepAnswers(old(tiers), tx)
    {
      answers := [];
      if deliver.Some? {
        ghost var views := tiers.deliver.value;
        answers := RunOn(deliver.value, check, tx, views, tiers.check);
        Install(check, deliver, snaps, tiers.(deliver := Some(TxViews(views, tx.ante, tx.msgs, tx.keep))));
      }
    }

    method CheckTx(tx: Step) returns (answers: seq<Option<Bytes>>)
      requires Valid() && tx.Tx? && !tx.onDeliver && StepMentions(tx, parents.Keys)
      modifies Footprint()
      ensures Valid() && tiers == TierStep(old(tiers), tx) && Footprint() == old(Footprint())
      ensures SameKeys(old(tiers)) && answers == StepAnswers(old(tiers), tx)
    {
      answers := [];
      if check.Some? {
        ghost var views := tiers.check.value;
        answers := RunOn(check.value, deliver, tx, views, tiers.deliver);
        Install(check, deliver, snaps, tiers.(check := Some(TxViews(views, tx.ante, tx.msgs, tx.keep))));
      }
    }

    /** Writes the deliver state and replaces the check state, whose caches may be stale by then. */
    method Commit()
      requires Valid() && deliver.Some?
      modifies Footprint()
      ensures Valid() && tiers == TierStep(old(tiers), Step.Commit) && fresh(Footprint() - old(Footprint()))
    {
      ghost var views := tiers.deliver.value;
      ghost var after := WriteState(parents, deliver.value, views, snaps);
      var cms := NewState(parents, after, views);
      Install(Some(cms), None, after, Tiers(views, Some(views), None));
    }

    method Act(s: Step) returns (answers: seq<Option<Bytes>>)
      requires Valid() && StepMentions(s, parents.Keys) && Enabled(tiers, s)
      modifies Footprint()
      ensures Valid() && tiers == TierStep(old(tiers), s) && fresh(Footprint() - old(Footprint()))
      ensures SameKeys(old(tiers)) && old(tiers).committed.Keys == parents.Keys
      ensures answers == StepAnswers(old(tiers), s)
    {
      answers := [];
      match s {
        case Open =>
          SetDeliver();
          SetCheck();
        case Begin =>
          if deliver.None? {
            SetDeliver();
          }
        case Tx(onDeliver, _, _, _) =>
          if onDeliver {
            answers := DeliverTx(s);
          } else {
            answers := CheckTx(s);
          }
        case Commit =>
          Commit();
      }
    }

    /** Over any steps, the states and the mounted stores show what unrelated plain maps would, and every read
        returned what it returns there: none of them was stale. */
    method RunSteps(steps: seq<Step>) returns (answers: seq<Option<Bytes>>)
      requires Valid() && StepsMention(steps, parents.Keys) && CanRun(tiers, steps)
      modifies Footprint()
      ensures Valid() && tiers == TierRun(old(tiers), steps) && fresh(Footprint() - old(Footprint()))
      ensures SameKeys(old(tiers)) && old(tiers).committed.Keys == parents.Keys
      ensures answers == RunAnswers(old(tiers), steps)
      decreases |steps|
    {
      answers := [];
      if steps != [] {
        answers := RunSteps(steps[..|steps| - 1]);
        var more := Act(steps[|steps| - 1]);
        answers := answers + more;
      }
    }
  }

  /** An application over stores without set nils, and any steps: after them the stores hold the committed contents
      of the reference run. */
  method RunApp(parents: Parents, steps: seq<Step>) returns (app: App, answers: seq<Option<Bytes>>)
    requires Apart(parents) && forall k :: k in parents ==> parents[k].Ok() && parents[k].NoNils()
    requires StepsMention(steps, parents.Keys) && CanRun(Tiers(ViewsOf(parents), None, None), steps)
    modifies Objects(parents)
    ensures app.Valid() && app.parents == parents
    ensures var start := Tiers(old(ViewsOf(parents)), None, None);
            app.tiers == TierRun(start, steps) && answers == RunAnswers(start, steps)
    ensures forall k :: k in parents ==> parents[k].Ok() && parents[k].View() == app.tiers.committed[k]
  {
    app := new App(parents);
    answers := app.RunSteps(steps);
    app.StoresAreCommitted();
  }
}
