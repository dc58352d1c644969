/** The write lock between sibling caches (`cwwMutex`, `cacheIterKVStore.Write`): of all caches taken
    over one parent with the same lock version, at most one may write back. */
module WriteLocks {
  import opened ByteOrder
  import opened MergeIteration
  import opened Stores
  import StoreRuns

  // ---------------------------------------------------------------------------------------------
  // The lock as an object

  /** The `*int32` that serves as a lock version. */
  class Flag {
    var used: bool

    constructor ()
      ensures !used
    {
      used := false;
    }
  }

  /** `cwwMutex`. The current version is never set. */
  class CwwMutex {
    var written: Flag

    ghost predicate Ok()
      reads this, written
    {
      !written.used
    }

    constructor ()
      ensures Ok() && fresh(written)
    {
      written := new Flag();
    }

    method GetWriteLockVersion() returns (v: Flag)
      ensures v == written
    {
      v := written;
    }

    /** Succeeds exactly for the current version, which is then used up: it is set, and no longer
        the current one. */
    method TryWriteLock(version: Flag) returns (ok: bool)
      requires Ok()
      modifies this, written
      ensures Ok()
      ensures ok <==> version == old(written)
      ensures ok ==> version.used && fresh(written)
      ensures !ok ==> written == old(written)
    {
      if version != written {
        return false;
      }
      if written.used {
        return false;
      }
      written.used := true;
      written := new Flag();
      ok := true;
    }
  }

  // ---------------------------------------------------------------------------------------------
  // A parent and its children as a transition system. Lock versions are numbered in order of creation.

  datatype Op = Get(key: Bytes) | Set(key: Bytes, value: Option<Bytes>) | Remove(key: Bytes)

  /** A child, with the operations it performed since its creation or its write, and what its reads returned. */
  datatype Child = Child(version: nat, cache: map<Bytes, CValue>, ops: seq<Op>, answers: seq<Option<Bytes>>)

  /** A successful write. */
  datatype Written = Written(child: nat, version: nat, ops: seq<Op>, answers: seq<Option<Bytes>>)

  datatype State = State(parent: map<Bytes, Bytes>, version: nat, children: map<nat, Child>, log: seq<Written>)

  datatype Step = NewChild(id: nat) | Do(id: nat, op: Op) | Write(id: nat)

  function ApplyOp(parent: map<Bytes, Bytes>, cache: map<Bytes, CValue>, op: Op): map<Bytes, CValue> {
    match op
    case Get(k) => if k in cache then cache else cache[k := CValue(Lookup(parent, k), false, false)]
    case Set(k, v) => cache[k := CValue(v, false, true)]
    case Remove(k) => cache[k := CValue(None, true, true)]
  }

  function ReadsOf(parent: map<Bytes, Bytes>, cache: map<Bytes, CValue>, op: Op): seq<Option<Bytes>> {
    if op.Get? then [ReadThrough(parent, cache, op.key)] else []
  }

  /** Any child may act at any time; a write with an outdated version has no effect. */
  ghost function Next(s: State, step: Step): State {
    match step
    case NewChild(id) =>
      if id in s.children then s
      else s.(children := s.children[id := Child(s.version, map[], [], [])])
    case Do(id, op) =>
      if id !in s.children then s
      else
        var c := s.children[id];
        s.(children := s.children[id := c.(cache := ApplyOp(s.parent, c.cache, op), ops := c.ops + [op],
                                           answers := c.answers + ReadsOf(s.parent, c.cache, op))])
    case Write(id) =>
      if id !in s.children || s.children[id].version != s.version then s
      else
        var c := s.children[id];
        State(Overlay(s.parent, Writes(c.cache)), s.version + 1,
              s.children[id := Child(c.version, map[], [], [])], s.log + [Written(id, c.version, c.ops, c.answers)])
  }

  ghost function Run(s: State, steps: seq<Step>): State
    decreases |steps|
  {
    if steps == [] then s else Run(Next(s, steps[0]), steps[1..])
  }

  /** A child run alone on fixed contents. */
  ghost function SoloCache(parent: map<Bytes, Bytes>, ops: seq<Op>): map<Bytes, CValue> {
    if ops == [] then map[]
    else ApplyOp(parent, SoloCache(parent, ops[..|ops| - 1]), ops[|ops| - 1])
  }

  ghost function SoloReads(parent: map<Bytes, Bytes>, ops: seq<Op>): seq<Option<Bytes>> {
    if ops == [] then []
    else
      var before := ops[..|ops| - 1];
      SoloReads(parent, before) + ReadsOf(parent, SoloCache(parent, before), ops[|ops| - 1])
  }

  /** The contents after creating a child, running it to its end and writing it back. */
  ghost function Solo(parent: map<Bytes, Bytes>, ops: seq<Op>): map<Bytes, Bytes> {
    Overlay(parent, Writes(SoloCache(parent, ops)))
  }

  /** The contents after running the writers one after another, in the order of their writes. */
  ghost function SerialEnd(start: map<Bytes, Bytes>, log: seq<Written>): map<Bytes, Bytes> {
    if log == [] then start
    else Solo(SerialEnd(start, log[..|log| - 1]), log[|log| - 1].ops)
  }

  /** Each writer reads in its turn of the serial run what it read in the actual run. */
  ghost predicate SerialReads(start: map<Bytes, Bytes>, log: seq<Written>) {
    forall i :: 0 <= i < |log| ==> log[i].answers == SoloReads(SerialEnd(start, log[..i]), log[i].ops)
  }

  /** A child with the current version is exactly where a solo run on the present parent would be. */
  ghost predicate Current(s: State, c: Child) {
    c.version <= s.version &&
    (c.version == s.version ==> c.cache == SoloCache(s.parent, c.ops) && c.answers == SoloReads(s.parent, c.ops))
  }

  /** Successful writes used up strictly increasing versions, each the version of its child. */
  ghost predicate LogOk(s: State) {
    && (forall i :: 0 <= i < |s.log| ==> s.log[i].version < s.version)
    && (forall i, j :: 0 <= i < j < |s.log| ==> s.log[i].version < s.log[j].version)
    && (forall i :: 0 <= i < |s.log| ==>
          s.log[i].child in s.children && s.children[s.log[i].child].version == s.log[i].version)
  }

  ghost predicate Inv(start: map<Bytes, Bytes>, s: State) {
    && s.parent == SerialEnd(start, s.log) && SerialReads(start, s.log)
    && (forall id :: id in s.children ==> Current(s, s.children[id]))
    && LogOk(s)
  }

  lemma DoKeepsCurrent(s: State, id: nat, op: Op)
    requires id in s.children && Current(s, s.children[id])
    ensures Current(s, Next(s, Do(id, op)).children[id])
  {
    var ops := s.children[id].ops + [op];
    assert ops[..|ops| - 1] == s.children[id].ops;
  }

  lemma SerialEndSnoc(start: map<Bytes, Bytes>, log: seq<Written>, w: Written)
    ensures SerialEnd(start, log + [w]) == Solo(SerialEnd(start, log), w.ops)
  {
    assert (log + [w])[..|log|] == log;
  }

  lemma SerialReadsSnoc(start: map<Bytes, Bytes>, log: seq<Written>, w: Written)
    requires SerialReads(start, log) && w.answers == SoloReads(SerialEnd(start, log), w.ops)
    ensures SerialReads(start, log + [w])
  {
    var longer := log + [w];
    forall i | 0 <= i < |longer| ensures longer[i].answers == SoloReads(SerialEnd(start, longer[..i]), longer[i].ops) {
      if i < |log| {
        assert longer[..i] == log[..i];
      } else {
        assert longer[..i] == log;
      }
    }
  }

  lemma WriteKeepsSerial(start: map<Bytes, Bytes>, s: State, id: nat)
    requires s.parent == SerialEnd(start, s.log) && SerialReads(start, s.log)
    requires id in s.children && s.children[id].version == s.version && Current(s, s.children[id])
    ensures var s' := Next(s, Write(id)); s'.parent == SerialEnd(start, s'.log) && SerialReads(start, s'.log)
  {
    var c := s.children[id];
    var w := Written(id, c.version, c.ops, c.answers);
    assert Next(s, Write(id)).log == s.log + [w];
    SerialEndSnoc(start, s.log, w);
    SerialReadsSnoc(start, s.log, w);
  }

  lemma WriteKeepsLog(s: State, id: nat)
    requires LogOk(s) && id in s.children && s.children[id].version == s.version
    ensures LogOk(Next(s, Write(id)))
  {
  }

  lemma WriteOutdatesAll(s: State, id: nat, k: nat)
    requires id in s.children && s.children[id].version == s.version
    requires k in s.children && Current(s, s.children[k])
    ensures Current(Next(s, Write(id)), Next(s, Write(id)).children[k])
  {
  }

  lemma WriteKeepsInv(start: map<Bytes, Bytes>, s: State, id: nat)
    requires Inv(start, s) && id in s.children && s.children[id].version == s.version
    ensures Inv(start, Next(s, Write(id)))
  {
    WriteKeepsSerial(start, s, id);
    WriteKeepsLog(s, id);
    forall k | k in s.children ensures Current(Next(s, Write(id)), Next(s, Write(id)).children[k]) {
      WriteOutdatesAll(s, id, k);
    }
  }

  lemma NewChildKeepsInv(start: map<Bytes, Bytes>, s: State, id: nat)
    requires Inv(start, s)
    ensures Inv(start, Next(s, NewChild(id)))
  {
    var s' := Next(s, NewChild(id));
    forall k | k in s'.children ensures Current(s', s'.children[k]) {
      assert k in s.children ==> Current(s, s.children[k]);
    }
  }

  lemma DoKeepsInv(start: map<Bytes, Bytes>, s: State, id: nat, op: Op)
    requires Inv(start, s) && id in s.children
    ensures Inv(start, Next(s, Do(id, op)))
  {
    var s' := Next(s, Do(id, op));
    DoKeepsCurrent(s, id, op);
    forall k | k in s'.children ensures Current(s', s'.children[k]) {
      assert Current(s, s.children[k]);
    }
  }

  lemma NextKeepsInv(start: map<Bytes, Bytes>, s: State, step: Step)
    requires Inv(start, s)
    ensures Inv(start, Next(s, step))
  {
    match step
    case NewChild(id) => NewChildKeepsInv(start, s, id);
    case Do(id, op) =>
      if id in s.children {
        DoKeepsInv(start, s, id, op);
      }
    case Write(id) =>
      if id in s.children && s.children[id].version == s.version {
        WriteKeepsInv(start, s, id);
      }
  }

  lemma {:induction false} RunKeepsInv(start: map<Bytes, Bytes>, s: State, steps: seq<Step>)
    requires Inv(start, s)
    ensures Inv(start, Run(s, steps))
    decreases |steps|
  {
    if steps != [] {
      NextKeepsInv(start, s, steps[0]);
      RunKeepsInv(start, Next(s, steps[0]), steps[1..]);
    }
  }

  /** In every run: no two successful writes share a lock version or a child, and the parent and all
      reads are those of running the successful children one after another. */
  lemma WritersAreSerial(start: map<Bytes, Bytes>, steps: seq<Step>)
    ensures var e := Run(State(start, 0, map[], []), steps);
            && e.parent == SerialEnd(start, e.log) && SerialReads(start, e.log)
            && (forall i, j :: 0 <= i < j < |e.log| ==>
                  e.log[i].version != e.log[j].version && e.log[i].child != e.log[j].child)
  {
    RunKeepsInv(start, State(start, 0, map[], []), steps);
  }

  // ---------------------------------------------------------------------------------------------
  // The serial run on plain maps

  /** An operation as a call on a plain map, where a nil value reads as absent. */
  function CallOf(op: Op): StoreRuns.Call {
    match op
    case Get(k) => StoreRuns.Get(k)
    case Set(k, v) => if v.Some? then StoreRuns.Set(k, v.value) else StoreRuns.Delete(k)
    case Remove(k) => StoreRuns.Delete(k)
  }

  function CallsOf(ops: seq<Op>): (calls: seq<StoreRuns.Call>)
    ensures |calls| == |ops|
  {
    if ops == [] then [] else CallsOf(ops[..|ops| - 1]) + [CallOf(ops[|ops| - 1])]
  }

  /** One operation on a coherent cache is the call on the map that the cache shows. */
  lemma OpIsCall(m: map<Bytes, Bytes>, cache: map<Bytes, CValue>, op: Op)
    requires Coherent(m, cache)
    ensures Coherent(m, ApplyOp(m, cache, op))
    ensures Overlay(m, Dirty(ApplyOp(m, cache, op))) == StoreRuns.Apply(Overlay(m, Dirty(cache)), CallOf(op))
    ensures op.Get? ==> ReadThrough(m, cache, op.key) == Lookup(Overlay(m, Dirty(cache)), op.key)
  {
    match op
    case Get(k) =>
      OverlayLookup(m, Dirty(cache), k);
      if k !in cache {
        CleanEntry(m, cache, k);
      }
    case Set(k, v) => DirtySet(m, cache, k, CValue(v, false, true));
    case Remove(k) => DirtySet(m, cache, k, CValue(None, true, true));
  }

  /** A child alone reads what a plain map gives, and shows that map after its calls. It writes it back exactly
      when it set no key of the parent to nil. */
  lemma {:induction false} SoloIsPlain(m: map<Bytes, Bytes>, ops: seq<Op>)
    ensures Coherent(m, SoloCache(m, ops)) && SoloReads(m, ops) == StoreRuns.Answers(m, CallsOf(ops))
    ensures Overlay(m, Dirty(SoloCache(m, ops))) == StoreRuns.After(m, CallsOf(ops))
    ensures Solo(m, ops) == StoreRuns.After(m, CallsOf(ops)) <==> NoNilOverLive(m, SoloCache(m, ops))
  {
    WriteBackExact(m, SoloCache(m, ops));
    if ops != [] {
      var n := |ops| - 1;
      SoloIsPlain(m, ops[..n]);
      OpIsCall(m, SoloCache(m, ops[..n]), ops[n]);
      assert CallsOf(ops)[..n] == CallsOf(ops[..n]);
    }
  }

  ghost predicate NoNilSet(op: Op) {
    op.Set? ==> op.value.Some?
  }

  ghost predicate NoNilsIn(ops: seq<Op>) {
    forall i :: 0 <= i < |ops| ==> NoNilSet(ops[i])
  }

  lemma {:induction false} SoloNilFree(m: map<Bytes, Bytes>, ops: seq<Op>)
    requires NoNilsIn(ops)
    ensures NilFree(SoloCache(m, ops))
  {
    if ops != [] {
      SoloNilFree(m, ops[..|ops| - 1]);
      assert NoNilSet(ops[|ops| - 1]);
    }
  }

  /** The contents after the writers' calls, one writer after another, on a plain map. */
  ghost function PlainEnd(start: map<Bytes, Bytes>, log: seq<Written>): map<Bytes, Bytes> {
    if log == [] then start
    else StoreRuns.After(PlainEnd(start, log[..|log| - 1]), CallsOf(log[|log| - 1].ops))
  }

  ghost predicate PlainReads(start: map<Bytes, Bytes>, log: seq<Written>) {
    forall i :: 0 <= i < |log| ==> log[i].answers == StoreRuns.Answers(PlainEnd(start, log[..i]), CallsOf(log[i].ops))
  }

  ghost predicate NilFreeLog(log: seq<Written>) {
    forall i :: 0 <= i < |log| ==> NoNilsIn(log[i].ops)
  }

  lemma {:induction false} SerialIsPlain(start: map<Bytes, Bytes>, log: seq<Written>)
    requires NilFreeLog(log)
    ensures SerialEnd(start, log) == PlainEnd(start, log)
  {
    if log != [] {
      var before, ops := log[..|log| - 1], log[|log| - 1].ops;
      SerialIsPlain(start, before);
      SoloIsPlain(SerialEnd(start, before), ops);
      SoloNilFree(SerialEnd(start, before), ops);
    }
  }

  lemma ReadsArePlain(start: map<Bytes, Bytes>, log: seq<Written>)
    requires NilFreeLog(log) && SerialReads(start, log)
    ensures PlainReads(start, log)
  {
    forall i | 0 <= i < |log|
      ensures log[i].answers == StoreRuns.Answers(PlainEnd(start, log[..i]), CallsOf(log[i].ops))
    {
      SerialIsPlain(start, log[..i]);
      SoloIsPlain(SerialEnd(start, log[..i]), log[i].ops);
    }
  }

  /** No step sets a nil value. */
  ghost predicate NoNilSteps(steps: seq<Step>) {
    forall i :: 0 <= i < |steps| && steps[i].Do? ==> NoNilSet(steps[i].op)
  }

  ghost predicate NilFreeState(s: State) {
    NilFreeLog(s.log) && forall id :: id in s.children ==> NoNilsIn(s.children[id].ops)
  }

  lemma {:induction false} RunSetsNoNil(s: State, steps: seq<Step>)
    requires NilFreeState(s) && NoNilSteps(steps)
    ensures NilFreeState(Run(s, steps))
    decreases |steps|
  {
    if steps != [] {
      assert steps[0].Do? ==> NoNilSet(steps[0].op);
      RunSetsNoNil(Next(s, steps[0]), steps[1..]);
    }
  }

  /** In every run whose children set no nil: the parent is the plain map after the calls of the successful
      writers, one writer after another, and each of them read what that map gave it in its turn. */
  lemma WritersArePlain(start: map<Bytes, Bytes>, steps: seq<Step>)
    requires NoNilSteps(steps)
    ensures var e := Run(State(start, 0, map[], []), steps);
            e.parent == PlainEnd(start, e.log) && PlainReads(start, e.log)
  {
    var e := Run(State(start, 0, map[], []), steps);
    WritersAreSerial(start, steps);
    RunSetsNoNil(State(start, 0, map[], []), steps);
    SerialIsPlain(start, e.log);
    ReadsArePlain(start, e.log);
  }

  /** Discarding a child, or failing to write it, leaves no trace: a run in which nobody writes
      successfully ends with the parent it started from. */
  lemma OnlyWritesChangeParent(start: map<Bytes, Bytes>, steps: seq<Step>)
    requires Run(State(start, 0, map[], []), steps).log == []
    ensures Run(State(start, 0, map[], []), steps).parent == start
  {
    WritersAreSerial(start, steps);
  }

  // ---------------------------------------------------------------------------------------------
  // The stores as objects

  /** A parent store with a write lock. */
  class Parent {
    var data: map<Bytes, Bytes>
    const lock: CwwMutex

    constructor (d: map<Bytes, Bytes>)
      ensures data == d && fresh(lock) && lock.Ok() && fresh(lock.written)
    {
      data := d;
      lock := new CwwMutex();
    }
  }

  /** Deletes are nils. */
  ghost predicate DeletesAreNil(c: map<Bytes, CValue>) {
    forall k :: k in c && c[k].deleted ==> c[k].value.None?
  }

  /** `cacheIterKVStore`: a cache that remembers the parent's lock version at its creation. */
  class CacheIterKVStore {
    var cache: map<Bytes, CValue>
    const parent: Parent
    const lockVersion: Flag

    constructor (p: Parent)
      ensures parent == p && lockVersion == p.lock.written && cache == map[]
    {
      parent, cache := p, map[];
      var version := p.lock.GetWriteLockVersion();
      lockVersion := version;
    }

    method Get(k: Bytes) returns (v: Option<Bytes>)
      modifies this
      ensures v == ReadThrough(parent.data, old(cache), k)
      ensures cache == ApplyOp(parent.data, old(cache), Op.Get(k))
    {
      if k !in cache {
        v := if k in parent.data then Some(parent.data[k]) else None;
        cache := cache[k := CValue(v, false, false)];
      } else {
        v := cache[k].value;
      }
    }

    method Perform(op: Op) returns (answers: seq<Option<Bytes>>)
      requires DeletesAreNil(cache)
      modifies this
      ensures DeletesAreNil(cache) && cache == ApplyOp(parent.data, old(cache), op)
      ensures answers == ReadsOf(parent.data, old(cache), op)
    {
      answers := [];
      match op {
        case Get(k) =>
          var v := Get(k);
          answers := [v];
        case Set(k, v) =>
          cache := cache[k := CValue(v, false, true)];
        case Remove(k) =>
          cache := cache[k := CValue(None, true, true)];
      }
    }

    /** Writes back if the lock version is current; otherwise the code panics and changes nothing. */
    method Write() returns (ok: bool)
      requires parent.lock.Ok() && DeletesAreNil(cache)
      modifies this, parent, parent.lock, parent.lock.written
      ensures parent.lock.Ok()
      ensures ok <==> lockVersion == old(parent.lock.written)
      ensures ok ==> fresh(parent.lock.written) && cache == map[] && parent.data == Overlay(old(parent.data),
                                                                                            Writes(old(cache)))
      ensures !ok ==> parent.lock.written == old(parent.lock.written)
      ensures !ok ==> cache == old(cache) && parent.data == old(parent.data)
    {
      ok := parent.lock.TryWriteLock(lockVersion);
      if ok {
        var keys := SortKeys(set k | k in cache && cache[k].dirty, true);
        Flush(keys);
        PickAll(cache, keys);
        cache := map[];
      }
    }

    /** The write-back loop. */
    method Flush(keys: seq<Bytes>)
      requires DeletesAreNil(cache) && SortedKeys(keys, true) && forall k :: k in keys ==> k in cache && cache[k].dirty
      modifies parent
      ensures parent.data == Overlay(old(parent.data), Writes(Pick(cache, keys)))
    {
      for n := 0 to |keys|
        invariant parent.data == Overlay(old(parent.data), Writes(Pick(cache, keys[..n])))
      {
        var k := keys[n];
        var e := cache[k];
        PickMore(cache, keys, n);
        NotEarlier(keys, n);
        WriteStep(old(parent.data), Pick(cache, keys[..n]), k, e);
        if e.deleted {
          parent.data := parent.data - {k};
        } else if e.value.Some? {
          parent.data := parent.data[k := e.value.value];
        }
      }
      assert keys[..|keys|] == keys;
    }
  }

  /** A parent and the children made over it. The ghost state is that of the transition system. */
  class Family {
    const parent: Parent
    var children: map<nat, CacheIterKVStore>
    /** The numbers of the lock versions there have been. */
    ghost var numbers: map<Flag, nat>
    ghost var state: State

    ghost predicate LockOk()
      reads this, parent.lock, parent.lock.written
    {
      && parent.lock.Ok() && parent.lock.written in numbers && numbers[parent.lock.written] == state.version
      && (forall f :: f in numbers ==> numbers[f] <= state.version)
      && (forall f, g :: f in numbers && g in numbers && numbers[f] == numbers[g] ==> f == g)
    }

    ghost predicate ChildOk(id: nat)
      requires id in children && id in state.children
      reads this, children[id]
    {
      var c := children[id];
      && c.parent == parent && c.lockVersion in numbers && numbers[c.lockVersion] == state.children[id].version
      && c.cache == state.children[id].cache && DeletesAreNil(c.cache)
    }

    /** The objects are in the state that the transition system is in. */
    ghost predicate Valid()
      reads this, parent, parent.lock, parent.lock.written, set id | id in children :: children[id]
    {
      && LockOk() && parent.data == state.parent && children.Keys == state.children.Keys
      && (forall id :: id in children ==> ChildOk(id))
      && (forall i, j :: i in children && j in children && i != j ==> children[i] != children[j])
    }

    constructor (d: map<Bytes, Bytes>)
      ensures Valid() && state == State(d, 0, map[], [])
      ensures fresh(parent) && fresh(parent.lock) && fresh(parent.lock.written)
    {
      parent := new Parent(d);
      children := map[];
      state := State(d, 0, map[], []);
      new;
      numbers := map[parent.lock.written := 0];
    }

    method NewChild(id: nat)
      requires Valid()
      modifies this
      ensures Valid() && state == Next(old(state), Step.NewChild(id))
      ensures parent.lock.written == old(parent.lock.written)
      ensures forall i :: i in children ==>
                (i in old(children) && children[i] == old(children)[i]) || fresh(children[i])
    {
      if id !in children {
        var c := new CacheIterKVStore(parent);
        children := children[id := c];
        state := Next(state, Step.NewChild(id));
      }
    }

    method Do(id: nat, op: Op) returns (answers: seq<Option<Bytes>>)
      requires Valid()
      modifies this, set i | i in children :: children[i]
      ensures Valid() && state == Next(old(state), Step.Do(id, op))
      ensures id in children ==> answers == ReadsOf(old(state).parent, old(state).children[id].cache, op)
      ensures parent.lock.written == old(parent.lock.written) && children == old(children)
    {
      answers := [];
      if id in children {
        answers := children[id].Perform(op);
        state := Next(state, Step.Do(id, op));
        forall i | i in children ensures ChildOk(i) {
          assert old(ChildOk(i));
        }
      }
    }

    /** Succeeds exactly when the transition system's write does. */
    method Write(id: nat) returns (ok: bool)
      requires Valid()
      modifies this, parent, parent.lock, parent.lock.written, set i | i in children :: children[i]
      ensures Valid() && state == Next(old(state), Step.Write(id))
      ensures ok <==> id in children && old(state).children[id].version == old(state).version
      ensures parent.lock.written == old(parent.lock.written) || fresh(parent.lock.written)
      ensures children == old(children)
    {
      ok := false;
      if id in children {
        assert ChildOk(id);
        ok := children[id].Write();
        if ok {
          state := Next(state, Step.Write(id));
          numbers := numbers[parent.lock.written := state.version];
        }
        forall i | i in children ensures ChildOk(i) {
          assert old(ChildOk(i));
        }
      }
    }

    /** Any interleaving of the children goes where the transition system goes. */
    method RunSteps(steps: seq<Step>)
      requires Valid()
      modifies this, parent, parent.lock, parent.lock.written, set i | i in children :: children[i]
      ensures Valid() && state == Run(old(state), steps)
      decreases |steps|
    {
      if steps != [] {
        match steps[0] {
          case NewChild(id) =>
            NewChild(id);
          case Do(id, op) =>
            var _ := Do(id, op);
          case Write(id) =>
            var _ := Write(id);
        }
        RunSteps(steps[1..]);
      }
    }
  }

  /** In every interleaving of children over a new parent, the parent ends with what the successful writers
      give when run one after another, and every writer read what it reads in that serial run. */
  method RunFamily(data: map<Bytes, Bytes>, steps: seq<Step>) returns (f: Family)
    ensures f.Valid() && f.state == Run(State(data, 0, map[], []), steps)
    ensures f.parent.data == SerialEnd(data, f.state.log) && SerialReads(data, f.state.log)
    ensures NoNilSteps(steps) ==> f.parent.data == PlainEnd(data, f.state.log) && PlainReads(data, f.state.log)
  {
    f := new Family(data);
    f.RunSteps(steps);
    WritersAreSerial(data, steps);
    if NoNilSteps(steps) {
      WritersArePlain(data, steps);
    }
  }
}
