/** Runs of reads and writes through a stack of stores, and writing the stack back. */
module StoreRuns {
  import opened ByteOrder
  import opened MergeIteration
  import opened Stores

  /** A call with a value that is not nil. */
  datatype Call = Get(key: Bytes) | Set(key: Bytes, value: Bytes) | Delete(key: Bytes)

  function Apply(m: View, call: Call): View {
    match call
    case Get(_) => m
    case Set(k, v) => m[k := v]
    case Delete(k) => m - {k}
  }

  /** A plain map after a run of calls. */
  function After(m: View, calls: seq<Call>): View {
    if calls == [] then m else Apply(After(m, calls[..|calls| - 1]), calls[|calls| - 1])
  }

  /** What the reads of a run return on a plain map. */
  function Answers(m: View, calls: seq<Call>): seq<Option<Bytes>> {
    if calls == [] then []
    else
      var before, last := calls[..|calls| - 1], calls[|calls| - 1];
      Answers(m, before) + if last.Get? then [Lookup(After(m, before), last.key)] else []
  }

  lemma RunSnoc(m: View, calls: seq<Call>, n: nat)
    requires n < |calls|
    ensures After(m, calls[..n + 1]) == Apply(After(m, calls[..n]), calls[n])
    ensures Answers(m, calls[..n + 1]) ==
            Answers(m, calls[..n]) + if calls[n].Get? then [Lookup(After(m, calls[..n]), calls[n].key)] else []
  {
    assert calls[..n + 1][..n] == calls[..n];
  }

  method RunCall(s: KVStore, call: Call) returns (answers: seq<Option<Bytes>>)
    requires s.Ok() && s.NoNils()
    modifies s.Repr()
    ensures s.Ok() && s.NoNils() && s.View() == Apply(old(s.View()), call)
    ensures answers == if call.Get? then [Lookup(old(s.View()), call.key)] else []
    ensures s.Levels()[1..] == old(s.Levels())[1..]
  {
    answers := [];
    match call {
      case Get(k) =>
        var v := s.Get(k);
        answers := [v];
      case Set(k, v) =>
        s.Set(k, v);
      case Delete(k) =>
        s.Delete(k);
    }
  }

  /** Any run of calls through a stack of any height reads and leaves what a plain map would, and no
      layer below the top one changes, so the top one can still be discarded. */
  method RunCalls(s: KVStore, calls: seq<Call>) returns (answers: seq<Option<Bytes>>)
    requires s.Ok() && s.NoNils()
    modifies s.Repr()
    ensures s.Ok() && s.NoNils() && s.View() == After(old(s.View()), calls)
    ensures answers == Answers(old(s.View()), calls)
    ensures s.Levels()[1..] == old(s.Levels())[1..]
  {
    answers := [];
    for n := 0 to |calls|
      invariant s.Ok() && s.NoNils() && s.View() == After(old(s.View()), calls[..n])
      invariant answers == Answers(old(s.View()), calls[..n])
      invariant s.Levels()[1..] == old(s.Levels())[1..]
    {
      RunSnoc(old(s.View()), calls, n);
      var more := RunCall(s, calls[n]);
      answers := answers + more;
    }
    assert calls[..|calls|] == calls;
  }

  /** After any run of calls on a cache over any stack, `Write` makes the parent equal the child's view,
      which is that of a plain map; it changes no read through the child and no layer below the parent. */
  method RunAndWrite(c: CacheKVStore, calls: seq<Call>) returns (answers: seq<Option<Bytes>>)
    requires Cached(c).Ok() && Cached(c).NoNils()
    modifies c.repr
    ensures Cached(c).Ok() && Cached(c).NoNils() && c.cache == map[]
    ensures answers == Answers(old(Cached(c).View()), calls)
    ensures c.parent.View() == Cached(c).View() == After(old(Cached(c).View()), calls)
    ensures c.parent.Levels()[1..] == old(c.parent.Levels())[1..]
  {
    answers := RunCalls(Cached(c), calls);
    assert c.parent.Levels() == Cached(c).Levels()[1..];
    c.Write();
  }

  /** Writing every cache of a stack back, from the top down, empties them all and changes no read. */
  method WriteThrough(s: KVStore)
    requires s.Ok() && s.NoNils()
    modifies s.Repr()
    ensures s.Ok() && s.NoNils() && s.Flushed() && s.View() == old(s.View())
    decreases s.Height()
  {
    match s
    case Base(_) =>
    case Cached(c) =>
      c.Write();
      WriteThrough(c.parent);
      assert Overlay(c.parent.View(), Dirty(c.cache)) == c.parent.View();
    case Prefixed(u, _) =>
      WriteThrough(u);
  }
}
