/** A persistent queue whose counters and slots live in a key-value store. */
module Queues {
  import opened ByteOrder
  import opened MachineInts

  type Store = map<Bytes, Bytes>

  // ---------------------------------------------------------------------------------------------
  // Counters and keys

  /** The low `k` bytes of `n`, most significant first. */
  function BigEndian(n: nat, k: nat): (b: Bytes)
    ensures |b| == k
  {
    if k == 0 then [] else BigEndian(n / 256, k - 1) + [n % 256]
  }

  function FromBigEndian(b: Bytes): nat {
    if b == [] then 0 else FromBigEndian(b[..|b| - 1]) * 256 + b[|b| - 1]
  }

  function Pow256(k: nat): nat {
    if k == 0 then 1 else 256 * Pow256(k - 1)
  }

  lemma {:induction false} BigEndianRoundTrip(n: nat, k: nat)
    requires n < Pow256(k)
    ensures FromBigEndian(BigEndian(n, k)) == n
    decreases k
  {
    if k > 0 {
      BigEndianRoundTrip(n / 256, k - 1);
      assert BigEndian(n, k)[..k - 1] == BigEndian(n / 256, k - 1);
    }
  }

  lemma {:induction false} FromBigEndianFits(b: Bytes)
    ensures FromBigEndian(b) < Pow256(|b|)
  {
    if b != [] {
      FromBigEndianFits(b[..|b| - 1]);
    }
  }

  lemma EightBytes()
    ensures Pow256(8) == WORD
  {
    assert Pow256(2) == 0x1_0000;
    assert Pow256(4) == 0x1_0000_0000;
    assert Pow256(6) == 0x1_0000_0000_0000;
  }

  const HEAD: Bytes := [104]
  const TAIL: Bytes := [116]
  const DATA: Bytes := [100]

  function CountBytes(n: nat): (b: Bytes)
    ensures |b| == 8
  {
    BigEndian(n, 8)
  }

  function Slot(n: nat): (key: Bytes)
    ensures |key| == 9
  {
    DATA + CountBytes(n)
  }

  lemma CountRoundTrip(n: nat)
    requires n < WORD
    ensures FromBigEndian(CountBytes(n)) == n
  {
    EightBytes();
    BigEndianRoundTrip(n, 8);
  }

  /** Different positions have different slots. */
  lemma SlotInjective(m: nat, n: nat)
    requires m < WORD && n < WORD && Slot(m) == Slot(n)
    ensures m == n
  {
    assert Slot(m)[1..] == CountBytes(m) && Slot(n)[1..] == CountBytes(n);
    CountRoundTrip(m);
    CountRoundTrip(n);
  }

  // ---------------------------------------------------------------------------------------------
  // What a store holds

  /** A counter; absent means zero. */
  function CountAt(data: Store, key: Bytes): nat {
    if key in data && |data[key]| == 8 then FromBigEndian(data[key]) else 0
  }

  /** A stored counter has eight bytes. */
  predicate CounterOk(data: Store, key: Bytes) {
    key in data ==> |data[key]| == 8
  }

  function HeadOf(data: Store, prefix: Bytes): nat {
    CountAt(data, prefix + HEAD)
  }

  function TailOf(data: Store, prefix: Bytes): nat {
    CountAt(data, prefix + TAIL)
  }

  /** The values ever pushed are `items`. Slots are never erased, but the counter wraps around, so the last
      `WORD` of them are there. */
  ghost predicate Holds(data: Store, prefix: Bytes, items: seq<Bytes>) {
    && CounterOk(data, prefix + TAIL) && TailOf(data, prefix) == |items| % WORD
    && forall i :: 0 <= i < |items| && |items| - i <= WORD ==> Stored(data, prefix, i % WORD, items[i])
  }

  /** How many values the counters leave in the queue. */
  function Live(data: Store, prefix: Bytes): nat {
    Between(HeadOf(data, prefix), TailOf(data, prefix))
  }

  /** A queue in which `items` were pushed and some of them popped. */
  ghost predicate Loads(data: Store, prefix: Bytes, items: seq<Bytes>) {
    Holds(data, prefix, items) && CounterOk(data, prefix + HEAD) && Live(data, prefix) <= |items|
  }

  /** The values that were not popped. */
  ghost function Left(data: Store, prefix: Bytes, items: seq<Bytes>): (q: seq<Bytes>)
    requires Loads(data, prefix, items)
    ensures |q| == Live(data, prefix) < WORD
  {
    items[|items| - Live(data, prefix)..]
  }

  ghost predicate Stored(data: Store, prefix: Bytes, i: nat, v: Bytes) {
    prefix + Slot(i) in data && data[prefix + Slot(i)] == v
  }

  /** The store after a push. */
  function PushAt(data: Store, prefix: Bytes, v: Bytes): Store {
    var tail := TailOf(data, prefix);
    data[prefix + Slot(tail) := v][prefix + TAIL := CountBytes(Successor(tail))]
  }

  /** The counter after `n`, which wraps around. */
  function Successor(n: nat): nat {
    if n + 1 == WORD then 0 else n + 1
  }

  lemma PrefixedKeys(prefix: Bytes, k: Bytes, l: Bytes)
    requires prefix + k == prefix + l
    ensures k == l
  {
    assert (prefix + k)[|prefix|..] == k && (prefix + l)[|prefix|..] == l;
  }

  lemma SlotsDiffer(prefix: Bytes, i: nat, j: nat)
    requires i < WORD && j < WORD && i != j
    ensures prefix + Slot(i) != prefix + Slot(j)
  {
    if prefix + Slot(i) == prefix + Slot(j) {
      PrefixedKeys(prefix, Slot(i), Slot(j));
      SlotInjective(i, j);
    }
  }

  lemma CountersDiffer(prefix: Bytes)
    ensures prefix + HEAD != prefix + TAIL
  {
    assert (prefix + HEAD)[|prefix|] != (prefix + TAIL)[|prefix|];
  }

  lemma SlotIsNoCounter(prefix: Bytes, i: nat)
    ensures prefix + Slot(i) != prefix + TAIL && prefix + Slot(i) != prefix + HEAD
  {
    assert |prefix + Slot(i)| == |prefix| + 9;
  }

  lemma CountStored(data: Store, key: Bytes, n: nat)
    requires n < WORD
    ensures CounterOk(data[key := CountBytes(n)], key) && CountAt(data[key := CountBytes(n)], key) == n
  {
    CountRoundTrip(n);
  }

  /** Writing another slot and the tail keeps a slot. */
  lemma StoredKept(data: Store, prefix: Bytes, i: nat, x: Bytes, j: nat, v: Bytes, count: Bytes)
    requires i < WORD && j < WORD && i != j && Stored(data, prefix, i, x)
    ensures Stored(data[prefix + Slot(j) := v][prefix + TAIL := count], prefix, i, x)
  {
    SlotsDiffer(prefix, i, j);
    SlotIsNoCounter(prefix, i);
  }

  lemma StoredNow(data: Store, prefix: Bytes, j: nat, v: Bytes, count: Bytes)
    ensures Stored(data[prefix + Slot(j) := v][prefix + TAIL := count], prefix, j, v)
  {
    SlotIsNoCounter(prefix, j);
  }

  lemma CountFits(data: Store, key: Bytes)
    ensures CountAt(data, key) < WORD
  {
    if key in data && |data[key]| == 8 {
      EightBytes();
      FromBigEndianFits(data[key]);
    }
  }

  /** How many values two counters leave in a queue. */
  function Between(head: nat, tail: nat): nat {
    (tail - head) % WORD
  }

  lemma BetweenAfterPush(head: nat, tail: nat)
    requires head < WORD && tail < WORD
    ensures Between(head, Successor(tail)) == if Between(head, tail) + 1 == WORD then 0 else Between(head, tail) + 1
  {
  }

  lemma BetweenAfterPop(head: nat, tail: nat)
    requires head < WORD && tail < WORD && Between(head, tail) > 0
    ensures Between(Successor(head), tail) == Between(head, tail) - 1
  {
  }

  lemma BetweenForward(head: nat, tail: nat)
    requires head <= tail < WORD
    ensures Between(head, tail) == tail - head
  {
  }

  /** The position of the oldest of `n` values. */
  lemma HeadIs(head: nat, n: nat)
    requires head < WORD && Between(head, n % WORD) <= n
    ensures (n - Between(head, n % WORD)) % WORD == head
  {
  }

  lemma NextCount(n: nat)
    ensures (n + 1) % WORD == Successor(n % WORD)
  {
  }

  /** Counters a full turn apart or more share a slot, others do not. */
  lemma CountsDiffer(i: nat, n: nat)
    requires i < n && n - i < WORD
    ensures i % WORD != n % WORD
  {
  }

  /** A push appends. */
  lemma PushHolds(data: Store, prefix: Bytes, items: seq<Bytes>, v: Bytes)
    requires Holds(data, prefix, items)
    ensures Holds(PushAt(data, prefix, v), prefix, items + [v])
  {
    var n := |items|;
    var at, after := n % WORD, PushAt(data, prefix, v);
    NextCount(n);
    CountStored(data[prefix + Slot(at) := v], prefix + TAIL, Successor(at));
    StoredNow(data, prefix, at, v, CountBytes(Successor(at)));
    forall i | 0 <= i < n && n + 1 - i <= WORD ensures Stored(after, prefix, i % WORD, items[i]) {
      CountsDiffer(i, n);
      StoredKept(data, prefix, i % WORD, items[i], at, v, CountBytes(Successor(at)));
    }
  }

  /** A push onto a queue of `WORD - 1` values turns the counter onto the head, so that the queue shows none. */
  lemma PushLoads(data: Store, prefix: Bytes, items: seq<Bytes>, v: Bytes)
    requires Loads(data, prefix, items)
    ensures var after := PushAt(data, prefix, v);
            && Loads(after, prefix, items + [v])
            && Live(after, prefix) == if Live(data, prefix) + 1 == WORD then 0 else Live(data, prefix) + 1
  {
    PushHolds(data, prefix, items, v);
    PushKeepsHead(data, prefix, v);
    CountFits(data, prefix + HEAD);
    CountFits(data, prefix + TAIL);
    NextCount(|items|);
    BetweenAfterPush(HeadOf(data, prefix), TailOf(data, prefix));
  }

  lemma PushKeepsHead(data: Store, prefix: Bytes, v: Bytes)
    ensures HeadOf(PushAt(data, prefix, v), prefix) == HeadOf(data, prefix)
    ensures CounterOk(PushAt(data, prefix, v), prefix + HEAD) <==> CounterOk(data, prefix + HEAD)
  {
    CountersDiffer(prefix);
    SlotIsNoCounter(prefix, TailOf(data, prefix));
  }

  // ---------------------------------------------------------------------------------------------
  // The queue object

  class Db {
    var data: Store

    constructor (d: Store)
      ensures data == d
    {
      data := d;
    }
  }

  class Queue {
    const db: Db
    const prefix: Bytes
    var head: nat
    var tail: nat
    /** Every value ever pushed. */
    ghost var items: seq<Bytes>

    /** The counters are those in the store. */
    ghost predicate Ok()
      reads this, db
    {
      Loads(db.data, prefix, items) && tail == TailOf(db.data, prefix) && head == HeadOf(db.data, prefix)
    }

    ghost function Contents(): seq<Bytes>
      requires Ok()
      reads this, db
    {
      Left(db.data, prefix, items)
    }

    /** Loading gives the queue that was stored. */
    constructor (d: Db, p: Bytes, ghost pushed: seq<Bytes>)
      requires Loads(d.data, p, pushed)
      ensures db == d && prefix == p && items == pushed && Ok()
    {
      db, prefix, items := d, p, pushed;
      head, tail := HeadOf(d.data, p), TailOf(d.data, p);
    }

    method Size() returns (n: int)
      requires Ok()
      ensures n == Int64(|Contents()|)
    {
      n := Int64(Between(head, tail));
    }

    /** Appends, except that a queue of `WORD - 1` values shows none after one more push. */
    method Push(v: Bytes) returns (at: nat)
      requires Ok()
      modifies this, db
      ensures at == old(tail) && db.data == PushAt(old(db.data), prefix, v)
      ensures Ok() && items == old(items) + [v]
      ensures Contents() == if |old(Contents())| + 1 < WORD then old(Contents()) + [v] else []
    {
      PushLoads(db.data, prefix, items, v);
      NextCount(|items|);
      PushKeepsHead(db.data, prefix, v);
      at := tail;
      db.data := db.data[prefix + Slot(tail) := v];
      tail := Successor(tail);
      items := items + [v];
      db.data := db.data[prefix + TAIL := CountBytes(tail)];
    }

    /** Takes the oldest value, unless the queue is empty or its size is no positive `int64`. */
    method Pop() returns (r: Option<Bytes>)
      requires Ok()
      modifies this, db
      ensures Ok() && items == old(items)
      ensures r.Some? <==> 0 < |old(Contents())| < 0x8000_0000_0000_0000
      ensures r.Some? ==> old(Contents()) == [r.value] + Contents()
      ensures r.None? ==> Contents() == old(Contents()) && db.data == old(db.data)
    {
      var size := Size();
      PositiveSize(|Contents()|);
      if size <= 0 {
        return None;
      }
      OldestAt(db.data, prefix, items);
      r := Some(db.data[prefix + Slot(head)]);
      PopLoads(db.data, prefix, items);
      PopCounters(db.data, prefix);
      head := Successor(head);
      db.data := db.data[prefix + HEAD := CountBytes(head)];
    }

    /** The value at a position from head to tail. Nothing is found when the tail wrapped around below the head. */
    method Item(i: nat) returns (r: Option<Bytes>)
      requires Ok()
      ensures head <= i < tail ==> i - head < |Contents()| && r == Some(Contents()[i - head])
      ensures !(head <= i < tail) ==> r == None
    {
      if i >= tail || i < head {
        return None;
      }
      ItemAt(db.data, prefix, items, i);
      return Some(db.data[prefix + Slot(i)]);
    }

    method RunCall(call: Call) returns (out: seq<Option<Bytes>>)
      requires Ok()
      modifies this, db
      ensures Ok() && Contents() == SeqAfter(old(Contents()), call) && out == SeqOut(old(Contents()), call)
    {
      out := [];
      match call {
        case PushCall(v) =>
          var _ := Push(v);
        case PopCall =>
          var r := Pop();
          out := [r];
      }
    }

    /** Over any calls, the queue holds and returns what a sequence would. */
    method RunCalls(calls: seq<Call>) returns (outs: seq<Option<Bytes>>)
      requires Ok()
      modifies this, db
      ensures Ok() && Contents() == SeqRun(old(Contents()), calls) && outs == SeqOuts(old(Contents()), calls)
    {
      outs := [];
      for n := 0 to |calls|
        invariant Ok() && Contents() == SeqRun(old(Contents()), calls[..n])
        invariant outs == SeqOuts(old(Contents()), calls[..n])
      {
        assert calls[..n + 1][..n] == calls[..n];
        var out := RunCall(calls[n]);
        outs := outs + out;
      }
      assert calls[..|calls|] == calls;
    }
  }

  /** The oldest value is at the head. */
  lemma OldestAt(data: Store, prefix: Bytes, items: seq<Bytes>)
    requires Loads(data, prefix, items) && Left(data, prefix, items) != []
    ensures Stored(data, prefix, HeadOf(data, prefix), Left(data, prefix, items)[0])
  {
    CountFits(data, prefix + HEAD);
    HeadIs(HeadOf(data, prefix), |items|);
    var i := |items| - Live(data, prefix);
    assert Stored(data, prefix, i % WORD, items[i]);
  }

  lemma ItemAt(data: Store, prefix: Bytes, items: seq<Bytes>, at: nat)
    requires Loads(data, prefix, items) && HeadOf(data, prefix) <= at < TailOf(data, prefix)
    ensures var i := at - HeadOf(data, prefix);
            i < |Left(data, prefix, items)| && Stored(data, prefix, at, Left(data, prefix, items)[i])
  {
    CountFits(data, prefix + TAIL);
    BetweenForward(HeadOf(data, prefix), TailOf(data, prefix));
    BetweenForward(at, TailOf(data, prefix));
    HeadIs(at, |items|);
    var i := |items| - (TailOf(data, prefix) - at);
    assert Stored(data, prefix, i % WORD, items[i]);
  }

  /** The store after a pop. */
  function PopAt(data: Store, prefix: Bytes): Store {
    data[prefix + HEAD := CountBytes(Successor(HeadOf(data, prefix)))]
  }

  lemma PopHolds(data: Store, prefix: Bytes, items: seq<Bytes>)
    requires Holds(data, prefix, items)
    ensures Holds(PopAt(data, prefix), prefix, items)
  {
    CountersDiffer(prefix);
    forall i | 0 <= i < |items| && |items| - i <= WORD ensures Stored(PopAt(data, prefix), prefix, i % WORD, items[i]) {
      SlotIsNoCounter(prefix, i % WORD);
      assert Stored(data, prefix, i % WORD, items[i]);
    }
  }

  lemma PopCounters(data: Store, prefix: Bytes)
    ensures var after := PopAt(data, prefix);
            && HeadOf(after, prefix) == Successor(HeadOf(data, prefix)) && TailOf(after, prefix) == TailOf(data, prefix)
            && CounterOk(after, prefix + HEAD)
            && (Live(data, prefix) > 0 ==> Live(after, prefix) == Live(data, prefix) - 1)
  {
    CountFits(data, prefix + HEAD);
    CountFits(data, prefix + TAIL);
    CountStored(data, prefix + HEAD, Successor(HeadOf(data, prefix)));
    CountersDiffer(prefix);
    if Live(data, prefix) > 0 {
      BetweenAfterPop(HeadOf(data, prefix), TailOf(data, prefix));
    }
  }

  /** A pop drops the oldest value. */
  lemma PopLoads(data: Store, prefix: Bytes, items: seq<Bytes>)
    requires Loads(data, prefix, items) && Left(data, prefix, items) != []
    ensures var after := PopAt(data, prefix);
            Loads(after, prefix, items) && Left(after, prefix, items) == Left(data, prefix, items)[1..]
  {
    PopHolds(data, prefix, items);
    PopCounters(data, prefix);
  }

  lemma PositiveSize(n: nat)
    requires n < WORD
    ensures Int64(n) > 0 <==> 0 < n < 0x8000_0000_0000_0000
  {
  }

  // ---------------------------------------------------------------------------------------------
  // The queue as a sequence

  datatype Call = PushCall(value: Bytes) | PopCall

  /** A pop takes the first value of a sequence of proper size. */
  predicate Poppable(q: seq<Bytes>) {
    0 < |q| < 0x8000_0000_0000_0000
  }

  function SeqAfter(q: seq<Bytes>, call: Call): seq<Bytes> {
    match call
    case PushCall(v) => if |q| + 1 < WORD then q + [v] else []
    case PopCall => if Poppable(q) then q[1..] else q
  }

  function SeqOut(q: seq<Bytes>, call: Call): seq<Option<Bytes>> {
    if call.PushCall? then [] else if Poppable(q) then [Some(q[0])] else [None]
  }

  function SeqRun(q: seq<Bytes>, calls: seq<Call>): seq<Bytes> {
    if calls == [] then q else SeqAfter(SeqRun(q, calls[..|calls| - 1]), calls[|calls| - 1])
  }

  /** What the pops of a run return. */
  function SeqOuts(q: seq<Bytes>, calls: seq<Call>): seq<Option<Bytes>> {
    if calls == [] then []
    else SeqOuts(q, calls[..|calls| - 1]) + SeqOut(SeqRun(q, calls[..|calls| - 1]), calls[|calls| - 1])
  }

  function Values(outs: seq<Option<Bytes>>): seq<Bytes> {
    if outs == [] then []
    else Values(outs[..|outs| - 1]) + if outs[|outs| - 1].Some? then [outs[|outs| - 1].value] else []
  }

  function PushedBy(call: Call): seq<Bytes> {
    match call
    case PushCall(v) => [v]
    case PopCall => []
  }

  function Pushed(calls: seq<Call>): seq<Bytes> {
    if calls == [] then [] else Pushed(calls[..|calls| - 1]) + PushedBy(calls[|calls| - 1])
  }

  lemma ValuesSnoc(outs: seq<Option<Bytes>>, more: seq<Option<Bytes>>)
    requires |more| <= 1
    ensures Values(outs + more) == Values(outs) + if more != [] && more[0].Some? then [more[0].value] else []
  {
    if more == [] {
      assert outs + more == outs;
    } else {
      assert (outs + more)[..|outs|] == outs;
    }
  }

  /** The pushes of a run that find `WORD - 1` values. */
  function FullPushes(q: seq<Bytes>, calls: seq<Call>): nat {
    if calls == [] then 0
    else
      var n := |calls| - 1;
      FullPushes(q, calls[..n]) + if calls[n].PushCall? && |SeqRun(q, calls[..n])| + 1 >= WORD then 1 else 0
  }

  /** What came out and what is left, after one more call. */
  lemma OneCall(got: seq<Bytes>, before: seq<Bytes>, call: Call, total: seq<Bytes>)
    requires got + before == total && (call.PushCall? ==> |before| + 1 < WORD)
    ensures var out := SeqOut(before, call);
            var more := if out != [] && out[0].Some? then [out[0].value] else [];
            got + more + SeqAfter(before, call) == total + PushedBy(call)
  {
    if call.PopCall? && Poppable(before) {
      assert before == [before[0]] + before[1..];
    }
  }

  lemma Associate(a: seq<Bytes>, b: seq<Bytes>, c: seq<Bytes>)
    ensures a + b + c == a + (b + c)
  {
  }

  lemma {:induction false} NothingLost(q: seq<Bytes>, calls: seq<Call>)
    requires FullPushes(q, calls) == 0
    ensures Values(SeqOuts(q, calls)) + SeqRun(q, calls) == q + Pushed(calls)
  {
    if calls != [] {
      var n := |calls| - 1;
      var before, outs, call := SeqRun(q, calls[..n]), SeqOuts(q, calls[..n]), calls[n];
      NothingLost(q, calls[..n]);
      ValuesSnoc(outs, SeqOut(before, call));
      OneCall(Values(outs), before, call, q + Pushed(calls[..n]));
      Associate(q, Pushed(calls[..n]), PushedBy(call));
    }
  }

  /** Every push that finds `WORD - 1` values loses them and its own. */
  lemma {:induction false} LossesAddUp(q: seq<Bytes>, calls: seq<Call>)
    requires |q| < WORD
    ensures |SeqRun(q, calls)| < WORD
    ensures |Values(SeqOuts(q, calls))| + |SeqRun(q, calls)| + WORD * FullPushes(q, calls) == |q| + |Pushed(calls)|
  {
    if calls != [] {
      var n := |calls| - 1;
      LossesAddUp(q, calls[..n]);
      ValuesSnoc(SeqOuts(q, calls[..n]), SeqOut(SeqRun(q, calls[..n]), calls[n]));
    }
  }

  /** First in, first out: what came out and what is left is what was there and came in, exactly when no push
      finds `WORD - 1` values. */
  lemma FirstInFirstOut(q: seq<Bytes>, calls: seq<Call>)
    requires |q| < WORD
    ensures Values(SeqOuts(q, calls)) + SeqRun(q, calls) == q + Pushed(calls) <==> FullPushes(q, calls) == 0
  {
    if FullPushes(q, calls) == 0 {
      NothingLost(q, calls);
    } else {
      LossesAddUp(q, calls);
      assert |Values(SeqOuts(q, calls)) + SeqRun(q, calls)| < |q + Pushed(calls)|;
    }
  }
}
