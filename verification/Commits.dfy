/** Committing a multistore: the pruning rule of `iavlStore.Commit`, and `rootMultiStore.Commit` and
    `LoadVersion` as seen by a process that may stop between any two writes to disk. */
module Commits {
  import opened ByteOrder

  type Name = Bytes

  // ---------------------------------------------------------------------------------------------
  // Pruning

  /** How many recent versions to keep besides the latest, and the distance between waypoints. */
  datatype Pruning = Pruning(numRecent: nat, storeEvery: nat)

  predicate Waypoint(p: Pruning, k: nat) {
    p.storeEvery != 0 && k % p.storeEvery == 0
  }

  /** The version that committing `version` deletes. */
  function Released(p: Pruning, version: nat): Option<nat>
    requires version >= 1
  {
    var previous := version - 1;
    if p.numRecent < previous then
      var toRelease := previous - p.numRecent;
      if p.storeEvery == 0 || toRelease % p.storeEvery != 0 then Some(toRelease) else None
    else None
  }

  /** The versions present after `n` commits from an empty tree. */
  function Kept(p: Pruning, n: nat): set<nat> {
    set k | 1 <= k <= n && (k >= n - p.numRecent || Waypoint(p, k))
  }

  /** Saving version `n + 1` and deleting the released version turns one kept set into the next. */
  lemma KeptStep(p: Pruning, n: nat)
    ensures Released(p, n + 1).Some? ==>
              Released(p, n + 1).value in Kept(p, n) && Released(p, n + 1).value != n + 1 &&
              Kept(p, n + 1) == Kept(p, n) + {n + 1} - {Released(p, n + 1).value}
    ensures Released(p, n + 1).None? ==> Kept(p, n + 1) == Kept(p, n) + {n + 1}
  {
  }

  /** `iavlStore` over a versioned tree. */
  class IavlStore {
    const pruning: Pruning
    var versions: map<nat, View>
    var version: nat
    var working: View

    /** The tree holds exactly the versions the pruning rule keeps. */
    ghost predicate Regular()
      reads this
    {
      versions.Keys == Kept(pruning, version)
    }

    constructor (pruning: Pruning)
      ensures this.pruning == pruning && version == 0 && versions == map[] && Regular()
    {
      this.pruning := pruning;
      version, versions, working := 0, map[], map[];
    }

    method SaveVersion()
      modifies this
      ensures version == old(version) + 1 && working == old(working)
      ensures versions == old(versions)[version := working]
    {
      version := version + 1;
      versions := versions[version := working];
    }

    /** The tree refuses to delete an absent version and the latest one. */
    method DeleteVersion(v: nat)
      requires v in versions && v != version
      modifies this
      ensures version == old(version) && working == old(working)
      ensures versions == old(versions) - {v}
    {
      versions := versions - {v};
    }

    /** Neither error of `DeleteVersion` can arise, and the kept set stays exact. */
    method Commit() returns (v: nat)
      requires Regular()
      modifies this
      ensures Regular() && v == version == old(version) + 1 && working == old(working)
      ensures version in versions && versions[version] == working
      ensures forall k :: k in versions && k != version ==> k in old(versions) && versions[k] == old(versions)[k]
    {
      KeptStep(pruning, version);
      SaveVersion();
      var previous := version - 1;
      if pruning.numRecent < previous {
        var toRelease := previous - pruning.numRecent;
        if pruning.storeEvery == 0 || toRelease % pruning.storeEvery != 0 {
          DeleteVersion(toRelease);
        }
      }
      v := version;
    }

    /** After any number of commits from an empty tree the versions are exactly the kept ones, each
        with the contents of its commit. */
    method CommitAll(contents: seq<View>)
      requires version == 0 && versions == map[]
      modifies this
      ensures version == |contents|
      ensures versions == map k | k in Kept(pruning, |contents|) :: contents[k - 1]
    {
      for i := 0 to |contents|
        invariant version == i && Regular()
        invariant forall k :: k in versions ==> versions[k] == contents[k - 1]
      {
        working := contents[i];
        var _ := Commit();
      }
    }
  }

  // ---------------------------------------------------------------------------------------------
  // The disk, one write at a time

  /** What survives a crash: the latest recorded version, the commit records and all trees. */
  datatype Disk = Disk(latest: nat, infos: map<nat, map<Name, nat>>, trees: map<Name, map<nat, View>>)

  /** Saving a version of one store's tree. */
  function Saved(d: Disk, n: Name, version: nat, contents: View): Disk
    requires n in d.trees
  {
    var tree: map<nat, View> := d.trees[n][version := contents];
    d.(trees := d.trees[n := tree])
  }

  /** Deleting the version that the pruning rule releases from one store's tree. */
  function Pruned(p: Pruning, d: Disk, n: Name, version: nat): Disk
    requires n in d.trees && version >= 1
  {
    var r := Released(p, version);
    d.(trees := d.trees[n := if r.None? then d.trees[n] else d.trees[n] - {r.value}])
  }

  /** The atomic batch that records a version. */
  function Recorded(d: Disk, names: set<Name>, version: nat): Disk {
    d.(latest := version, infos := d.infos[version := map n | n in names :: version])
  }

  /** The disk together with the commit in progress and, for the statement of the theorem, the
      contents of every recorded commit. */
  datatype State = State(disk: Disk, working: map<Name, View>, saved: set<Name>, pruned: set<Name>,
                         history: map<nat, map<Name, View>>)

  /** The writes that committing consists of, in any order between stores. `Crash` restarts the
      process at the recorded version, after which the block is executed again. */
  datatype Write = Save(name: Name) | Prune(name: Name) | Batch | Execute(working: map<Name, View>) | Crash

  ghost predicate Allowed(p: Pruning, names: set<Name>, s: State, w: Write) {
    var v := s.disk.latest + 1;
    match w
    case Save(n) =>
      // A version already on disk can only be saved again unchanged.
      n in names && n !in s.saved && n in s.working && n in s.disk.trees &&
      (v in s.disk.trees[n] ==> s.disk.trees[n][v] == s.working[n])
    case Prune(n) =>
      n in s.saved && n !in s.pruned && n in s.disk.trees &&
      (Released(p, v).Some? ==> Released(p, v).value in s.disk.trees[n])
    case Batch => s.saved == names && s.pruned == names && s.working.Keys == names
    case Execute(c) => s.saved == {} && c.Keys == names
    case Crash => true
  }

  ghost function Apply(p: Pruning, names: set<Name>, s: State, w: Write): State
    requires Allowed(p, names, s, w)
  {
    var d := s.disk;
    var v: nat := d.latest + 1;
    match w
    case Save(n) =>
      s.(disk := Saved(d, n, v, s.working[n]), saved := s.saved + {n})
    case Prune(n) =>
      s.(disk := Pruned(p, d, n, v), pruned := s.pruned + {n})
    case Batch =>
      State(Recorded(d, names, v), s.working, {}, {}, s.history[v := s.working])
    case Execute(c) => s.(working := c)
    case Crash => s.(working := map[], saved := {}, pruned := {})
  }

  ghost predicate CanRun(p: Pruning, names: set<Name>, s: State, ws: seq<Write>)
    decreases |ws|
  {
    ws == [] || (Allowed(p, names, s, ws[0]) && CanRun(p, names, Apply(p, names, s, ws[0]), ws[1..]))
  }

  ghost function Run(p: Pruning, names: set<Name>, s: State, ws: seq<Write>): State
    requires CanRun(p, names, s, ws)
    decreases |ws|
  {
    if ws == [] then s else Run(p, names, Apply(p, names, s, ws[0]), ws[1..])
  }

  ghost function Fresh(names: set<Name>): State {
    State(Disk(0, map[], map n | n in names :: map[]), map[], {}, {}, map[])
  }

  /** What `LoadVersion` finds for a recorded version: every store's contents, or an error. */
  function Load(names: set<Name>, d: Disk, ver: nat): Option<map<Name, View>> {
    if ver !in d.infos || d.infos[ver].Keys != names then None
    else if forall n | n in names :: n in d.trees && d.infos[ver][n] in d.trees[n] then
      Some(map n | n in names :: d.trees[n][d.infos[ver][n]])
    else None
  }

  /** The recorded version loads, with the contents of that one commit in every store. */
  ghost predicate Recoverable(names: set<Name>, s: State) {
    s.disk.latest >= 1 ==>
      s.disk.latest in s.history && Load(names, s.disk, s.disk.latest) == Some(s.history[s.disk.latest])
  }

  /** The stores already saved hold the contents being committed. */
  ghost predicate Progress(names: set<Name>, s: State) {
    && s.disk.trees.Keys == names
    && s.saved <= names && s.pruned <= s.saved
    && (s.working == map[] || s.working.Keys == names)
    && (forall n :: n in s.saved ==>
          n in s.working && s.disk.latest + 1 in s.disk.trees[n] && s.disk.trees[n][s.disk.latest + 1] == s.working[n])
  }

  /** The recorded version is in every store, with the contents of its commit. */
  ghost predicate Present(names: set<Name>, s: State) {
    s.disk.latest >= 1 ==>
      && s.disk.latest in s.history && s.history[s.disk.latest].Keys == names
      && s.disk.latest in s.disk.infos && s.disk.infos[s.disk.latest] == (map n | n in names :: s.disk.latest)
      && (forall n :: n in names ==>
            n in s.disk.trees && s.disk.latest in s.disk.trees[n] &&
            s.disk.trees[n][s.disk.latest] == s.history[s.disk.latest][n])
  }

  ghost predicate Inv(names: set<Name>, s: State) {
    Progress(names, s) && Present(names, s)
  }

  lemma InvRecoverable(names: set<Name>, s: State)
    requires Inv(names, s)
    ensures Recoverable(names, s)
  {
    if s.disk.latest >= 1 {
      var l := Load(names, s.disk, s.disk.latest);
      assert l.Some? && l.value == s.history[s.disk.latest];
    }
  }

  /** Every write keeps the progress of a commit, whatever is pruned. */
  lemma ApplyKeepsProgress(p: Pruning, names: set<Name>, s: State, w: Write)
    requires Progress(names, s) && Allowed(p, names, s, w)
    ensures Progress(names, Apply(p, names, s, w))
  {
  }

  lemma SaveKeepsPresent(p: Pruning, names: set<Name>, s: State, n: Name)
    requires Present(names, s) && Allowed(p, names, s, Save(n))
    ensures Present(names, Apply(p, names, s, Save(n)))
  {
  }

  lemma PruneKeepsPresent(p: Pruning, names: set<Name>, s: State, n: Name)
    requires Present(names, s) && Allowed(p, names, s, Prune(n))
    requires s.disk.latest >= 1 ==> Released(p, s.disk.latest + 1) != Some(s.disk.latest)
    ensures Present(names, Apply(p, names, s, Prune(n)))
  {
  }

  lemma BatchKeepsPresent(p: Pruning, names: set<Name>, s: State)
    requires Progress(names, s) && Allowed(p, names, s, Batch)
    ensures Present(names, Apply(p, names, s, Batch))
  {
  }

  /** A recent version is kept, every version is a waypoint, or there is nothing to lose. */
  predicate Safe(p: Pruning, names: set<Name>) {
    p.numRecent >= 1 || p.storeEvery == 1 || names == {}
  }

  lemma ApplyKeepsInv(p: Pruning, names: set<Name>, s: State, w: Write)
    requires Inv(names, s) && Allowed(p, names, s, w) && Safe(p, names)
    ensures Inv(names, Apply(p, names, s, w))
  {
    ApplyKeepsProgress(p, names, s, w);
    match w
    case Save(n) => SaveKeepsPresent(p, names, s, n);
    case Prune(n) => PruneKeepsPresent(p, names, s, n);
    case Batch => BatchKeepsPresent(p, names, s);
    case Execute(_) =>
    case Crash =>
  }

  /** With safe pruning, a process that stops after any sequence of writes, over any number of commits,
      crashes and re-executions, finds on disk the recorded version of every store, with the contents of
      the one commit that recorded it. */
  lemma {:induction false} CrashSafe(p: Pruning, names: set<Name>, s: State, ws: seq<Write>)
    requires Inv(names, s) && CanRun(p, names, s, ws) && Safe(p, names)
    ensures Inv(names, Run(p, names, s, ws)) && Recoverable(names, Run(p, names, s, ws))
    decreases |ws|
  {
    if ws == [] {
      InvRecoverable(names, s);
    } else {
      ApplyKeepsInv(p, names, s, ws[0]);
      CrashSafe(p, names, Apply(p, names, s, ws[0]), ws[1..]);
    }
  }

  /** The pruning of one store's next commit deletes the recorded version exactly when no recent
      version is kept and the recorded version is not a waypoint. */
  lemma ReleasesRecorded(p: Pruning, latest: nat)
    requires latest >= 1
    ensures Released(p, latest + 1) == Some(latest) <==> p.numRecent == 0 && !Waypoint(p, latest)
  {
  }

  /** Where the claim ends: once a store has pruned, a crash before the batch can be recovered from
      exactly when that pruning did not delete the recorded version. */
  lemma PrunedRecoverableIff(p: Pruning, names: set<Name>, s: State, n: Name)
    requires Inv(names, s) && s.disk.latest >= 1 && Allowed(p, names, s, Prune(n))
    ensures Recoverable(names, Apply(p, names, s, Prune(n))) <==> !(p.numRecent == 0 && !Waypoint(p, s.disk.latest))
  {
    ReleasesRecorded(p, s.disk.latest);
    var s' := Apply(p, names, s, Prune(n));
    if Released(p, s.disk.latest + 1) == Some(s.disk.latest) {
      assert n in names && s.disk.latest !in s'.disk.trees[n];
    } else {
      ApplyKeepsProgress(p, names, s, Prune(n));
      PruneKeepsPresent(p, names, s, n);
      InvRecoverable(names, s');
    }
  }

  /** A store that pruned before a crash is asked, when the block is executed again, to delete the
      released version a second time. The tree accepts exactly when nothing is to be released. */
  lemma ReplayedPruneIff(p: Pruning, names: set<Name>, s: State, n: Name)
    requires Progress(names, s) && Allowed(p, names, s, Prune(n))
    ensures var again := [Crash, Execute(s.working), Save(n)];
            var s' := Apply(p, names, s, Prune(n));
            CanRun(p, names, s', again) &&
            (Allowed(p, names, Run(p, names, s', again), Prune(n)) <==> Released(p, s.disk.latest + 1).None?)
  {
    var again := [Crash, Execute(s.working), Save(n)];
    var s0 := Apply(p, names, s, Prune(n));
    var s1 := Apply(p, names, s0, Crash);
    var s2 := Apply(p, names, s1, Execute(s.working));
    assert Allowed(p, names, s2, Save(n));
    var s3 := Apply(p, names, s2, Save(n));
    assert again[1..] == [Execute(s.working), Save(n)] && again[1..][1..] == [Save(n)] && again[1..][1..][1..] == [];
    assert CanRun(p, names, s3, []);
    assert CanRun(p, names, s2, [Save(n)]) && Run(p, names, s2, [Save(n)]) == s3;
    assert CanRun(p, names, s1, again[1..]) && Run(p, names, s1, again[1..]) == s3;
  }

  // ---------------------------------------------------------------------------------------------
  // Runs from an empty disk, and exactly when all of them are safe

  lemma {:induction false} RunSnoc(p: Pruning, names: set<Name>, s: State, ws: seq<Write>, w: Write)
    requires CanRun(p, names, s, ws) && Allowed(p, names, Run(p, names, s, ws), w)
    ensures CanRun(p, names, s, ws + [w])
    ensures Run(p, names, s, ws + [w]) == Apply(p, names, Run(p, names, s, ws), w)
    decreases |ws|
  {
    var all := ws + [w];
    if ws == [] {
      assert all[1..] == [];
    } else {
      assert all[1..] == ws[1..] + [w];
      RunSnoc(p, names, Apply(p, names, s, ws[0]), ws[1..], w);
    }
  }

  /** Between commits, with exactly the kept versions in every tree. */
  ghost predicate Settled(p: Pruning, names: set<Name>, s: State) {
    && s.saved == {} && s.pruned == {} && s.disk.trees.Keys == names
    && (forall n :: n in names ==> s.disk.trees[n].Keys == Kept(p, s.disk.latest))
    && (s.disk.latest >= 1 ==>
          s.disk.latest in s.disk.infos && s.disk.infos[s.disk.latest] == map n | n in names :: s.disk.latest)
  }

  /** `t` is on the way from `s` to its next version: the stores in `rest` still have the versions `before`,
      the others already the versions `after`. */
  ghost predicate Underway(names: set<Name>, s: State, t: State, rest: set<Name>, before: set<nat>, after: set<nat>) {
    && t.disk.latest == s.disk.latest && t.saved == t.pruned == names - rest && rest <= names
    && t.working.Keys == names && t.disk.trees.Keys == names
    && (forall n :: n in rest ==> t.disk.trees[n].Keys == before)
    && (forall n :: n in names && n !in rest ==> t.disk.trees[n].Keys == after)
  }

  /** Committing a tree with the versions `before` is possible and leaves the versions `after`. */
  ghost predicate TreeStep(p: Pruning, latest: nat, before: set<nat>, after: set<nat>) {
    var r := Released(p, latest + 1);
    && latest + 1 !in before && (r.Some? ==> r.value in before)
    && after == if r.None? then before + {latest + 1} else before + {latest + 1} - {r.value}
  }

  /** The tree that saving and pruning one store leaves. */
  ghost function TreeAfter(p: Pruning, latest: nat, tree: map<nat, View>, contents: View): map<nat, View> {
    var r, saved := Released(p, latest + 1), tree[latest + 1 := contents];
    if r.None? then saved else saved - {r.value}
  }

  lemma TreeAfterKeys(p: Pruning, latest: nat, tree: map<nat, View>, contents: View, before: set<nat>, after: set<nat>)
    requires tree.Keys == before && TreeStep(p, latest, before, after)
    ensures TreeAfter(p, latest, tree, contents).Keys == after
  {
    var saved := tree[latest + 1 := contents];
    assert saved.Keys == before + {latest + 1};
  }

  /** Saving and pruning one store changes its tree only. */
  lemma SaveAndPrune(p: Pruning, names: set<Name>, t: State, n: Name)
    requires n in names && n !in t.saved && n !in t.pruned && n in t.working && n in t.disk.trees
    requires t.disk.latest + 1 in t.disk.trees[n] ==> t.disk.trees[n][t.disk.latest + 1] == t.working[n]
    requires var r := Released(p, t.disk.latest + 1); r.Some? ==> r.value in t.disk.trees[n]
    ensures Allowed(p, names, t, Save(n)) && Allowed(p, names, Apply(p, names, t, Save(n)), Prune(n))
    ensures var tree := TreeAfter(p, t.disk.latest, t.disk.trees[n], t.working[n]);
            Apply(p, names, Apply(p, names, t, Save(n)), Prune(n)) ==
            t.(disk := t.disk.(trees := t.disk.trees[n := tree]), saved := t.saved + {n}, pruned := t.pruned + {n})
  {
    var saved: map<nat, View> := t.disk.trees[n][t.disk.latest + 1 := t.working[n]];
    var tree := TreeAfter(p, t.disk.latest, t.disk.trees[n], t.working[n]);
    assert t.disk.trees[n := saved][n := tree] == t.disk.trees[n := tree];
  }

  lemma UnderwayMore(names: set<Name>, s: State, t: State, rest: set<Name>, before: set<nat>, after: set<nat>, n: Name,
                     tree: map<nat, View>)
    requires Underway(names, s, t, rest, before, after) && n in rest && tree.Keys == after
    ensures Underway(names, s,
              t.(disk := t.disk.(trees := t.disk.trees[n := tree]), saved := t.saved + {n}, pruned := t.pruned + {n}),
              rest - {n}, before, after)
  {
    assert names - (rest - {n}) == names - rest + {n};
    assert t.disk.trees[n := tree].Keys == names;
  }

  /** A store not yet committed can be saved and pruned. */
  lemma StoreStep(p: Pruning, names: set<Name>, s: State, t: State, rest: set<Name>, before: set<nat>,
                  after: set<nat>, n: Name)
    requires Underway(names, s, t, rest, before, after) && n in rest && TreeStep(p, s.disk.latest, before, after)
    ensures Allowed(p, names, t, Save(n)) && Allowed(p, names, Apply(p, names, t, Save(n)), Prune(n))
    ensures Underway(names, s, Apply(p, names, Apply(p, names, t, Save(n)), Prune(n)), rest - {n}, before, after)
  {
    SaveAndPrune(p, names, t, n);
    TreeAfterKeys(p, s.disk.latest, t.disk.trees[n], t.working[n], before, after);
    UnderwayMore(names, s, t, rest, before, after, n, TreeAfter(p, s.disk.latest, t.disk.trees[n], t.working[n]));
  }

  lemma StoreRun(p: Pruning, names: set<Name>, s: State, ws: seq<Write>, rest: set<Name>, before: set<nat>,
                 after: set<nat>,
                 n: Name)
    requires CanRun(p, names, s, ws) && Underway(names, s, Run(p, names, s, ws), rest, before, after)
    requires n in rest && TreeStep(p, s.disk.latest, before, after)
    ensures CanRun(p, names, s, ws + [Save(n)] + [Prune(n)])
    ensures Underway(names, s, Run(p, names, s, ws + [Save(n)] + [Prune(n)]), rest - {n}, before, after)
  {
    StoreStep(p, names, s, Run(p, names, s, ws), rest, before, after, n);
    RunSnoc(p, names, s, ws, Save(n));
    RunSnoc(p, names, s, ws + [Save(n)], Prune(n));
  }

  lemma StoreRuns(p: Pruning, names: set<Name>, s: State, ws0: seq<Write>, before: set<nat>, after: set<nat>)
    returns (ws: seq<Write>)
    requires CanRun(p, names, s, ws0) && Underway(names, s, Run(p, names, s, ws0), names, before, after)
    requires TreeStep(p, s.disk.latest, before, after)
    ensures CanRun(p, names, s, ws) && Underway(names, s, Run(p, names, s, ws), {}, before, after)
  {
    ws := ws0;
    var rest := names;
    while rest != {}
      invariant CanRun(p, names, s, ws) && Underway(names, s, Run(p, names, s, ws), rest, before, after)
      decreases rest
    {
      var n :| n in rest;
      StoreRun(p, names, s, ws, rest, before, after, n);
      ws, rest := ws + [Save(n)] + [Prune(n)], rest - {n};
    }
  }

  lemma KeptTreeStep(p: Pruning, latest: nat)
    ensures TreeStep(p, latest, Kept(p, latest), Kept(p, latest + 1))
  {
    KeptStep(p, latest);
  }

  lemma ExecuteRun(p: Pruning, names: set<Name>, s: State, c: map<Name, View>)
    requires Settled(p, names, s) && c.Keys == names
    ensures CanRun(p, names, s, [Execute(c)])
    ensures Run(p, names, s, [Execute(c)]) == s.(working := c)
    ensures Underway(names, s, s.(working := c), names, Kept(p, s.disk.latest), Kept(p, s.disk.latest + 1))
  {
    assert [Execute(c)][1..] == [];
  }

  lemma RecordSettles(p: Pruning, names: set<Name>, s: State, t: State)
    requires Underway(names, s, t, {}, Kept(p, s.disk.latest), Kept(p, s.disk.latest + 1))
    ensures Allowed(p, names, t, Batch)
    ensures var u := Apply(p, names, t, Batch); Settled(p, names, u) && u.disk.latest == s.disk.latest + 1
  {
  }

  /** From a settled state a whole commit can be run, and it ends settled. */
  lemma CommitRun(p: Pruning, names: set<Name>, s: State, c: map<Name, View>) returns (ws: seq<Write>)
    requires Settled(p, names, s) && c.Keys == names
    ensures CanRun(p, names, s, ws)
    ensures var t := Run(p, names, s, ws); Settled(p, names, t) && t.disk.latest == s.disk.latest + 1
  {
    ExecuteRun(p, names, s, c);
    KeptTreeStep(p, s.disk.latest);
    ws := StoreRuns(p, names, s, [Execute(c)], Kept(p, s.disk.latest), Kept(p, s.disk.latest + 1));
    RunSnoc(p, names, s, ws, Batch);
    RecordSettles(p, names, s, Run(p, names, s, ws));
    ws := ws + [Batch];
  }

  lemma {:induction false} RunConcat(p: Pruning, names: set<Name>, s: State, a: seq<Write>, b: seq<Write>)
    requires CanRun(p, names, s, a) && CanRun(p, names, Run(p, names, s, a), b)
    ensures CanRun(p, names, s, a + b) && Run(p, names, s, a + b) == Run(p, names, Run(p, names, s, a), b)
    decreases |a|
  {
    if a == [] {
      assert a + b == b;
    } else {
      assert (a + b)[1..] == a[1..] + b;
      RunConcat(p, names, Apply(p, names, s, a[0]), a[1..], b);
    }
  }

  /** Every version can be reached from an empty disk. */
  lemma {:induction false} ReachVersion(p: Pruning, names: set<Name>, v: nat) returns (ws: seq<Write>)
    ensures CanRun(p, names, Fresh(names), ws)
    ensures var t := Run(p, names, Fresh(names), ws); Settled(p, names, t) && t.disk.latest == v
  {
    if v == 0 {
      ws := [];
    } else {
      ws := ReachVersion(p, names, v - 1);
      var more := CommitRun(p, names, Run(p, names, Fresh(names), ws), map n | n in names :: map[]);
      RunConcat(p, names, Fresh(names), ws, more);
      ws := ws + more;
    }
  }

  /** From a settled state, one store can be saved, and is then to be pruned. */
  lemma FirstSave(p: Pruning, names: set<Name>, s: State, n: Name) returns (ws: seq<Write>)
    requires Settled(p, names, s) && n in names
    ensures CanRun(p, names, s, ws)
    ensures var t := Run(p, names, s, ws);
            && t.disk.latest == s.disk.latest && t.disk.infos == s.disk.infos && t.disk.trees.Keys == names
            && Allowed(p, names, t, Prune(n))
  {
    var v := s.disk.latest;
    var c: map<Name, View> := map m | m in names :: map[];
    ExecuteRun(p, names, s, c);
    KeptTreeStep(p, v);
    StoreStep(p, names, s, s.(working := c), names, Kept(p, v), Kept(p, v + 1), n);
    RunSnoc(p, names, s, [Execute(c)], Save(n));
    ws := [Execute(c)] + [Save(n)];
  }

  lemma ReachPrune(p: Pruning, names: set<Name>, v: nat, n: Name) returns (ws: seq<Write>)
    requires n in names
    ensures CanRun(p, names, Fresh(names), ws)
    ensures var t := Run(p, names, Fresh(names), ws);
            && t.disk.latest == v && Allowed(p, names, t, Prune(n)) && t.disk.trees.Keys == names
            && (v >= 1 ==> v in t.disk.infos && t.disk.infos[v] == map m | m in names :: v)
  {
    ws := ReachVersion(p, names, v);
    var more := FirstSave(p, names, Run(p, names, Fresh(names), ws), n);
    RunConcat(p, names, Fresh(names), ws, more);
    ws := ws + more;
  }

  /** Without safe pruning a run ends with the recorded version deleted from a store, so that it does not load. */
  lemma UnsafeLosesRecorded(p: Pruning, names: set<Name>) returns (ws: seq<Write>)
    requires !Safe(p, names)
    ensures CanRun(p, names, Fresh(names), ws)
    ensures var d := Run(p, names, Fresh(names), ws).disk; d.latest == 1 && Load(names, d, d.latest) == None
  {
    var n :| n in names;
    ws := ReachPrune(p, names, 1, n);
    var s := Run(p, names, Fresh(names), ws);
    RunSnoc(p, names, Fresh(names), ws, Prune(n));
    assert Released(p, 2) == Some(1);
    assert 1 !in Apply(p, names, s, Prune(n)).disk.trees[n];
    ws := ws + [Prune(n)];
  }

  /** Every run from an empty disk can be recovered from if and only if the pruning is safe. */
  lemma CrashSafeIff(p: Pruning, names: set<Name>)
    ensures (forall ws :: CanRun(p, names, Fresh(names), ws) ==> Recoverable(names, Run(p, names, Fresh(names), ws)))
       <==> Safe(p, names)
  {
    if Safe(p, names) {
      forall ws | CanRun(p, names, Fresh(names), ws) ensures Recoverable(names, Run(p, names, Fresh(names), ws)) {
        CrashSafe(p, names, Fresh(names), ws);
      }
    } else {
      var ws := UnsafeLosesRecorded(p, names);
      assert !Recoverable(names, Run(p, names, Fresh(names), ws));
    }
  }

  lemma {:induction false} RunKeepsProgress(p: Pruning, names: set<Name>, s: State, ws: seq<Write>)
    requires Progress(names, s) && CanRun(p, names, s, ws)
    ensures Progress(names, Run(p, names, s, ws))
    decreases |ws|
  {
    if ws != [] {
      ApplyKeepsProgress(p, names, s, ws[0]);
      RunKeepsProgress(p, names, Apply(p, names, s, ws[0]), ws[1..]);
    }
  }

  /** In state `s`, about to prune store `n`: a crash after the prune can be followed by the same commit. */
  ghost predicate Replayable(p: Pruning, names: set<Name>, s: State, n: Name) {
    Allowed(p, names, s, Prune(n)) &&
    var again, t := [Crash, Execute(s.working), Save(n)], Apply(p, names, s, Prune(n));
    CanRun(p, names, t, again) && Allowed(p, names, Run(p, names, t, again), Prune(n))
  }

  /** Every prune of every run from an empty disk can be replayed after a crash. */
  ghost predicate AlwaysReplayable(p: Pruning, names: set<Name>) {
    forall ws, n ::
      CanRun(p, names, Fresh(names), ws) && Allowed(p, names, Run(p, names, Fresh(names), ws), Prune(n)) ==>
      Replayable(p, names, Run(p, names, Fresh(names), ws), n)
  }

  /** That is so if and only if all versions are waypoints or there are no stores; keeping recent versions
      does not help. */
  lemma ReplayableIff(p: Pruning, names: set<Name>)
    ensures AlwaysReplayable(p, names) <==> p.storeEvery == 1 || names == {}
  {
    if p.storeEvery == 1 || names == {} {
      forall ws, n | CanRun(p, names, Fresh(names), ws) && Allowed(p, names, Run(p, names, Fresh(names), ws), Prune(n))
        ensures Replayable(p, names, Run(p, names, Fresh(names), ws), n)
      {
        RunKeepsProgress(p, names, Fresh(names), ws);
        ReplayedPruneIff(p, names, Run(p, names, Fresh(names), ws), n);
      }
    } else {
      var ws, n := RefusedReplay(p, names);
    }
  }

  /** A run after which a replayed prune is refused, however many recent versions are kept. */
  lemma RefusedReplay(p: Pruning, names: set<Name>) returns (ws: seq<Write>, n: Name)
    requires p.storeEvery != 1 && names != {}
    ensures CanRun(p, names, Fresh(names), ws)
    ensures var s := Run(p, names, Fresh(names), ws); Allowed(p, names, s, Prune(n)) && !Replayable(p, names, s, n)
  {
    n :| n in names;
    ws := ReachPrune(p, names, p.numRecent + 1, n);
    RunKeepsProgress(p, names, Fresh(names), ws);
    ReplayedPruneIff(p, names, Run(p, names, Fresh(names), ws), n);
  }

  // ---------------------------------------------------------------------------------------------
  // The multistore as an object

  /** Recording the version once every store has committed. */
  lemma BatchLast(p: Pruning, names: set<Name>, s: State, ws: seq<Write>)
    requires CanRun(p, names, s, ws)
    requires var t := Run(p, names, s, ws); t.saved == names && t.pruned == names && t.working.Keys == names
    ensures CanRun(p, names, s, ws + [Batch])
    ensures var d := Run(p, names, s, ws).disk;
            Run(p, names, s, ws + [Batch]).disk == Recorded(d, names, d.latest + 1)
  {
    RunSnoc(p, names, s, ws, Batch);
  }

  /** The tree accepts the next version, which it lacks or already holds unchanged. */
  predicate CanSave(version: nat, tree: map<nat, View>, contents: View) {
    version in tree ==> tree[version] == contents
  }

  /** The tree has the version that is to be released. */
  predicate CanPrune(p: Pruning, version: nat, tree: map<nat, View>)
    requires version >= 1
  {
    var r := Released(p, version);
    r.Some? ==> r.value in tree
  }

  /** The tree refuses neither the save nor the delete. */
  predicate Committable(p: Pruning, version: nat, tree: map<nat, View>, contents: View)
    requires version >= 1
  {
    CanSave(version, tree, contents) && CanPrune(p, version, tree)
  }

  /** No store's tree refuses the commit. */
  ghost predicate AllCommittable(p: Pruning, names: set<Name>, d: Disk, stores: map<Name, View>)
    requires d.trees.Keys == stores.Keys == names
  {
    forall n :: n in names ==> Committable(p, d.latest + 1, d.trees[n], stores[n])
  }

  lemma LoadsTo(names: set<Name>, d: Disk, k: nat, stores: map<Name, View>)
    requires RecordOk(names, d, k) && stores.Keys == names
    requires forall n :: n in names ==> n in d.trees && k in d.trees[n] && d.trees[n][k] == stores[n]
    ensures Load(names, d, k) == Some(stores)
  {
    var l := Load(names, d, k);
    assert l.Some? && l.value == stores;
  }

  ghost predicate RecordOk(names: set<Name>, d: Disk, k: nat) {
    k in d.infos && d.infos[k] == map n | n in names :: k
  }

  /** One tree after a commit: the kept versions, the new one among them. */
  lemma TreeCommitted(p: Pruning, latest: nat, tree: map<nat, View>, contents: View)
    requires tree.Keys == Kept(p, latest)
    ensures var after := TreeAfter(p, latest, tree, contents);
            after.Keys == Kept(p, latest + 1) && latest + 1 in after && after[latest + 1] == contents
  {
    KeptTreeStep(p, latest);
    TreeAfterKeys(p, latest, tree, contents, Kept(p, latest), Kept(p, latest + 1));
  }

  /** Every version still in the tree has the contents that its commit had for store `n`. */
  ghost predicate TreeHolds(tree: map<nat, View>, contents: seq<map<Name, View>>, n: Name) {
    forall k :: k in tree ==> 1 <= k <= |contents| && n in contents[k - 1] && tree[k] == contents[k - 1][n]
  }

  ghost predicate HoldsCommits(names: set<Name>, d: Disk, contents: seq<map<Name, View>>) {
    && (forall k :: 1 <= k <= |contents| ==> RecordOk(names, d, k))
    && (forall n :: n in names ==> n in d.trees && TreeHolds(d.trees[n], contents, n))
  }

  lemma TreeHoldsMore(p: Pruning, tree: map<nat, View>, contents: seq<map<Name, View>>, i: nat, n: Name)
    requires i < |contents| && n in contents[i] && TreeHolds(tree, contents[..i], n)
    ensures TreeHolds(TreeAfter(p, i, tree, contents[i][n]), contents[..i + 1], n)
  {
    var before, all, after := contents[..i], contents[..i + 1], TreeAfter(p, i, tree, contents[i][n]);
    forall k | k in after ensures 1 <= k <= |all| && n in all[k - 1] && after[k] == all[k - 1][n] {
      if k != i + 1 {
        assert k in tree && all[k - 1] == before[k - 1];
      }
    }
  }

  lemma CommitLoads(p: Pruning, names: set<Name>, before: Disk, after: Disk, contents: seq<map<Name, View>>, i: nat)
    requires i < |contents| && before.latest == i && contents[i].Keys == names
    requires HoldsCommits(names, before, contents[..i])
    requires AllAfter(p, before, after, contents[i]) && after.infos == Recorded(before, names, i + 1).infos
    ensures HoldsCommits(names, after, contents[..i + 1])
  {
    forall n | n in names ensures TreeHolds(after.trees[n], contents[..i + 1], n) {
      TreeHoldsMore(p, before.trees[n], contents, i, n);
    }
    forall k | 1 <= k <= i + 1 ensures RecordOk(names, after, k) {
      assert k <= i ==> RecordOk(names, before, k);
    }
  }

  lemma AllKeptLoad(p: Pruning, names: set<Name>, d: Disk, contents: seq<map<Name, View>>)
    requires HoldsCommits(names, d, contents) && forall i :: 0 <= i < |contents| ==> contents[i].Keys == names
    requires forall n :: n in names ==> d.trees[n].Keys == Kept(p, |contents|)
    ensures forall k :: k in Kept(p, |contents|) ==> Load(names, d, k) == Some(contents[k - 1])
  {
    forall k | k in Kept(p, |contents|) ensures Load(names, d, k) == Some(contents[k - 1]) {
      assert RecordOk(names, d, k);
      LoadsTo(names, d, k, contents[k - 1]);
    }
  }

  /** State `t` of the crash model, on the way from `s`, with the stores in `rest` still to commit. */
  ghost predicate Between(p: Pruning, names: set<Name>, s: State, t: State, rest: set<Name>) {
    && t.saved == names - rest && t.pruned == names - rest
    && t.disk.latest == s.disk.latest && t.disk.infos == s.disk.infos && t.working == s.working
    && t.disk.trees.Keys == names && s.disk.trees.Keys == names && s.working.Keys == names
    && (forall n :: n in rest && n in names ==> t.disk.trees[n] == s.disk.trees[n])
    && (forall n :: n in names && n !in rest ==>
          t.disk.trees[n] == TreeAfter(p, s.disk.latest, s.disk.trees[n], s.working[n]))
  }

  lemma BetweenUpdate(p: Pruning, names: set<Name>, s: State, t: State, rest: set<Name>, n: Name, tree: map<nat, View>)
    requires Between(p, names, s, t, rest) && n in rest && rest <= names
    requires tree == TreeAfter(p, s.disk.latest, s.disk.trees[n], s.working[n])
    ensures Between(p, names, s,
              t.(disk := t.disk.(trees := t.disk.trees[n := tree]), saved := t.saved + {n}, pruned := t.pruned + {n}),
              rest - {n})
  {
    assert names - (rest - {n}) == names - rest + {n};
    assert t.disk.trees[n := tree].Keys == names;
  }

  lemma BetweenMore(p: Pruning, names: set<Name>, s: State, t: State, rest: set<Name>, n: Name)
    requires Between(p, names, s, t, rest) && n in rest && rest <= names
    requires Committable(p, s.disk.latest + 1, s.disk.trees[n], s.working[n])
    ensures Allowed(p, names, t, Save(n)) && Allowed(p, names, Apply(p, names, t, Save(n)), Prune(n))
    ensures Between(p, names, s, Apply(p, names, Apply(p, names, t, Save(n)), Prune(n)), rest - {n})
  {
    SaveAndPrune(p, names, t, n);
    BetweenUpdate(p, names, s, t, rest, n, TreeAfter(p, s.disk.latest, s.disk.trees[n], s.working[n]));
  }

  /** Trees with exactly the kept versions refuse nothing. */
  lemma ReadyToCommit(p: Pruning, names: set<Name>, d: Disk, stores: map<Name, View>)
    requires d.trees.Keys == stores.Keys == names
    requires forall n :: n in names ==> d.trees[n].Keys == Kept(p, d.latest)
    ensures AllCommittable(p, names, d, stores)
  {
    KeptTreeStep(p, d.latest);
  }

  lemma NewVersionStays(p: Pruning, latest: nat, tree: map<nat, View>, contents: View)
    ensures var after := TreeAfter(p, latest, tree, contents); latest + 1 in after && after[latest + 1] == contents
  {
  }

  lemma CommitDone(p: Pruning, names: set<Name>, s: State, ws: seq<Write>)
    requires CanRun(p, names, s, ws) && Between(p, names, s, Run(p, names, s, ws), {})
    ensures CanRun(p, names, s, ws + [Batch])
    ensures var d := Recorded(Run(p, names, s, ws).disk, names, s.disk.latest + 1);
            Run(p, names, s, ws + [Batch]).disk == d && Load(names, d, d.latest) == Some(s.working)
  {
    BatchLast(p, names, s, ws);
    var d := Recorded(Run(p, names, s, ws).disk, names, s.disk.latest + 1);
    forall n | n in names ensures n in d.trees && d.latest in d.trees[n] && d.trees[n][d.latest] == s.working[n] {
      NewVersionStays(p, s.disk.latest, s.disk.trees[n], s.working[n]);
    }
    LoadsTo(names, d, d.latest, s.working);
  }

  /** Every tree gained the version and lost the released one. */
  ghost predicate AllAfter(p: Pruning, before: Disk, after: Disk, stores: map<Name, View>) {
    && before.trees.Keys == after.trees.Keys == stores.Keys && after.latest == before.latest + 1
    && forall n :: n in stores ==> after.trees[n] == TreeAfter(p, before.latest, before.trees[n], stores[n])
  }

  /** Trees with exactly the kept versions have them after the commit too. */
  lemma KeptAfter(p: Pruning, names: set<Name>, before: Disk, after: Disk, stores: map<Name, View>)
    requires AllAfter(p, before, after, stores) && stores.Keys == names
    requires forall n :: n in names ==> before.trees[n].Keys == Kept(p, before.latest)
    ensures forall n :: n in names ==> after.trees[n].Keys == Kept(p, after.latest)
  {
    forall n | n in names ensures after.trees[n].Keys == Kept(p, after.latest) {
      TreeCommitted(p, before.latest, before.trees[n], stores[n]);
    }
  }

  datatype LoadResult = Succeeded | Refused | Panicked

  /** `rootMultiStore`. */
  class RootMultiStore {
    const pruning: Pruning
    const names: set<Name>
    var disk: Disk
    var stores: map<Name, View>
    var lastVersion: nat

    /** Every tree holds exactly the versions that the pruning rule keeps. */
    ghost predicate TreesRegular()
      reads this
    {
      disk.trees.Keys == names && forall n :: n in names ==> disk.trees[n].Keys == Kept(pruning, disk.latest)
    }

    /** Ready to commit the next version. */
    ghost predicate Regular()
      reads this
    {
      lastVersion == disk.latest && stores.Keys == names && TreesRegular()
    }

    /** Mounted stores over an empty disk. */
    constructor (p: Pruning, ns: set<Name>)
      ensures pruning == p && names == ns && disk == Fresh(ns).disk && stores == (map n | n in ns :: map[]) && Regular()
    {
      pruning, names, lastVersion := p, ns, 0;
      disk, stores := Disk(0, map[], map n | n in ns :: map[]), map n | n in ns :: map[];
    }

    /** Loaded, with any versions in the trees. */
    ghost predicate Loaded()
      reads this
    {
      lastVersion == disk.latest && disk.trees.Keys == stores.Keys == names
    }

    /** Commits every store, in any order, then records the version in one batch. It succeeds exactly when no tree
        refuses its save or its delete, as after a crash one may; the code panics otherwise, with nothing recorded.
        Then every tree gains the version and loses the released one, and the version loads with what was committed.
        The writes made are in any case a run of the crash model, so stopping after any of them is covered there. */
    method Commit(ghost history: map<nat, map<Name, View>>) returns (ok: bool, ghost writes: seq<Write>)
      requires Loaded()
      modifies this
      ensures Loaded() && stores == old(stores)
      ensures ok <==> AllCommittable(pruning, names, old(disk), stores)
      ensures old(Regular()) ==> ok && Regular()
      ensures lastVersion == if ok then old(lastVersion) + 1 else old(lastVersion)
      ensures disk.infos == if ok then Recorded(old(disk), names, lastVersion).infos else old(disk).infos
      ensures ok ==> Load(names, disk, lastVersion) == Some(stores)
      ensures ok ==> AllAfter(pruning, old(disk), disk, stores)
      ensures var s := State(old(disk), old(stores), {}, {}, history);
              CanRun(pruning, names, s, writes) && Run(pruning, names, s, writes).disk == disk
    {
      ghost var s := State(disk, stores, {}, {}, history);
      ghost var regular := Regular();
      if regular {
        ReadyToCommit(pruning, names, disk, stores);
      }
      var version := lastVersion + 1;
      ok, writes := CommitStores(version, s);
      if ok {
        writes := Record(version, s, writes);
        if regular {
          KeptAfter(pruning, names, s.disk, disk, stores);
        }
      }
    }

    /** The disk is where a run of the crash model leads. */
    ghost predicate Reached(s: State, writes: seq<Write>)
      reads this
    {
      && CanRun(pruning, names, s, writes)
      && var t := Run(pruning, names, s, writes);
         && t.disk == disk && t.working == stores && t.disk.latest == s.disk.latest && t.disk.infos == s.disk.infos
         && t.disk.trees.Keys == names
    }

    /** The batch that records the version. */
    method Record(version: nat, ghost s: State, ghost writes: seq<Write>) returns (ghost all: seq<Write>)
      requires Reached(s, writes) && Between(pruning, names, s, Run(pruning, names, s, writes), {})
      requires version == s.disk.latest + 1
      modifies this
      ensures Loaded() && stores == old(stores) && lastVersion == version && Load(names, disk, version) == Some(stores)
      ensures disk.infos == Recorded(s.disk, names, version).infos && AllAfter(pruning, s.disk, disk, stores)
      ensures CanRun(pruning, names, s, all) && Run(pruning, names, s, all).disk == disk
    {
      CommitDone(pruning, names, s, writes);
      all := writes + [Batch];
      disk := Recorded(disk, names, version);
      lastVersion := version;
    }

    method CommitStores(version: nat, ghost s: State) returns (ok: bool, ghost writes: seq<Write>)
      requires Reached(s, []) && stores.Keys == names && s.saved == s.pruned == {} && version == s.disk.latest + 1
      modifies this`disk
      ensures ok <==> AllCommittable(pruning, names, s.disk, stores)
      ensures Reached(s, writes)
      ensures ok ==> Between(pruning, names, s, Run(pruning, names, s, writes), {})
    {
      ok, writes := true, [];
      var rest := names;
      while rest != {}
        invariant rest <= names && Reached(s, writes)
        invariant Between(pruning, names, s, Run(pruning, names, s, writes), rest)
        invariant forall n :: n in names - rest ==> Committable(pruning, version, s.disk.trees[n], stores[n])
        decreases rest
      {
        var n :| n in rest;
        ok, writes := CommitStore(n, version, s, writes, rest);
        if !ok {
          return;
        }
        rest := rest - {n};
      }
    }

    /** One round of `commitStores`. */
    method CommitStore(n: Name, version: nat, ghost s: State, ghost writes: seq<Write>, ghost rest: set<Name>)
      returns (ok: bool, ghost more: seq<Write>)
      requires Reached(s, writes) && Between(pruning, names, s, Run(pruning, names, s, writes), rest)
      requires n in rest && rest <= names && version == s.disk.latest + 1
      modifies this`disk
      ensures ok <==> Committable(pruning, version, s.disk.trees[n], stores[n])
      ensures Reached(s, more) && (ok ==> Between(pruning, names, s, Run(pruning, names, s, more), rest - {n}))
    {
      ghost var t := Run(pruning, names, s, writes);
      more := writes;
      if !CanSave(version, disk.trees[n], stores[n]) {
        return false, more;
      }
      RunSnoc(pruning, names, s, writes, Save(n));
      more := writes + [Save(n)];
      disk := Saved(disk, n, version, stores[n]);
      if !CanPrune(pruning, version, disk.trees[n]) {
        return false, more;
      }
      BetweenMore(pruning, names, s, t, rest, n);
      RunSnoc(pruning, names, s, more, Prune(n));
      more := more + [Prune(n)];
      disk := Pruned(pruning, disk, n, version);
      ok := true;
    }

    /** Commits the given contents. */
    method CommitContents(contents: map<Name, View>)
      requires Regular() && contents.Keys == names
      modifies this
      ensures Regular() && lastVersion == old(lastVersion) + 1 && AllAfter(pruning, old(disk), disk, contents)
      ensures disk.infos == Recorded(old(disk), names, lastVersion).infos
    {
      stores := contents;
      var _, _ := Commit(map[]);
    }

    method CommitNext(contents: seq<map<Name, View>>, i: nat)
      requires Regular() && lastVersion == i < |contents| && contents[i].Keys == names
      requires HoldsCommits(names, disk, contents[..i])
      modifies this
      ensures Regular() && lastVersion == i + 1 && HoldsCommits(names, disk, contents[..i + 1])
    {
      ghost var before := disk;
      CommitContents(contents[i]);
      CommitLoads(pruning, names, before, disk, contents, i);
    }

    /** Any number of commits from an empty disk: every kept version loads with the contents of its commit. */
    method CommitAll(contents: seq<map<Name, View>>)
      requires Regular() && disk == Fresh(names).disk && forall i :: 0 <= i < |contents| ==> contents[i].Keys == names
      modifies this
      ensures Regular() && lastVersion == |contents|
      ensures forall k :: k in Kept(pruning, |contents|) ==> Load(names, disk, k) == Some(contents[k - 1])
    {
      for i := 0 to |contents|
        invariant Regular() && lastVersion == i && HoldsCommits(names, disk, contents[..i])
      {
        CommitNext(contents, i);
      }
      assert contents[..|contents|] == contents;
      AllKeptLoad(pruning, names, disk, contents);
    }

    /** A mounted store lacks the version recorded for it. */
    ghost predicate MissesVersion(ver: nat)
      requires ver in disk.infos
      reads this
    {
      exists n :: n in names && n in disk.infos[ver] &&
                  (n !in disk.trees || disk.infos[ver][n] !in disk.trees[n])
    }

    /** Loads a recorded version of every store, or fails and changes nothing. It panics on a recorded store that
        is not mounted, unless a store whose version is missing comes first. */
    method LoadVersion(ver: nat) returns (r: LoadResult)
      modifies this
      ensures disk == old(disk)
      ensures ver > 0 ==> (r == Succeeded <==> Load(names, disk, ver).Some?)
      ensures r == Succeeded && ver > 0 ==> stores == Load(names, disk, ver).value && lastVersion == ver
      ensures ver == 0 ==> r == Succeeded && lastVersion == 0 && stores == map n | n in names :: map[]
      ensures r != Succeeded ==> stores == old(stores) && lastVersion == old(lastVersion)
      ensures r == Panicked ==> ver in disk.infos && !(disk.infos[ver].Keys <= names)
      ensures r == Refused && ver in disk.infos && !(disk.infos[ver].Keys <= names) ==> MissesVersion(ver)
      ensures r == Succeeded && ver == disk.latest && TreesRegular() ==> Regular()
    {
      if ver == 0 {
        stores := map n | n in names :: map[];
        lastVersion := 0;
        return Succeeded;
      }
      if ver !in disk.infos {
        return Refused;
      }
      var info := disk.infos[ver];
      var newStores: map<Name, View> := map[];
      var rest := info.Keys;
      while rest != {}
        invariant rest <= info.Keys && newStores.Keys == info.Keys - rest
        invariant disk == old(disk) && stores == old(stores) && lastVersion == old(lastVersion)
        invariant newStores.Keys <= names
        invariant forall n :: n in newStores ==>
                    n in disk.trees && info[n] in disk.trees[n] && newStores[n] == disk.trees[n][info[n]]
        decreases rest
      {
        var n :| n in rest;
        if n !in names {
          return Panicked;
        }
        if n !in disk.trees || info[n] !in disk.trees[n] {
          return Refused;
        }
        newStores := newStores[n := disk.trees[n][info[n]]];
        rest := rest - {n};
      }
      if !(names <= newStores.Keys) {
        return Refused;
      }
      lastVersion, stores := ver, newStores;
      r := Succeeded;
    }
  }
}
