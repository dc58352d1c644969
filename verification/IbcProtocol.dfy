/** Runs of any number of chains and an arbitrary relayer. */
module IbcProtocol {
  import opened ByteOrder
  import opened MachineInts
  import opened Queues
  import opened Ibc

  /** What chains did: `packet` was enqueued for its destination, or accepted from a peer. */
  datatype Event = Sent(at: Bytes, packet: Packet) | Accepted(at: Bytes, from: Bytes, packet: Packet)

  datatype World = World(chains: map<Bytes, Chain>, log: seq<Event>)

  /** The packets that `a` enqueued for `b`, in order. */
  function SentTo(log: seq<Event>, a: Bytes, b: Bytes): (ps: seq<Packet>)
    ensures |ps| <= |log|
  {
    if log == [] then []
    else
      var e := log[|log| - 1];
      SentTo(log[..|log| - 1], a, b) + if e.Sent? && e.at == a && e.packet.dest == b then [e.packet] else []
  }

  /** The packets that `b` accepted from `a`, in order. */
  function AcceptedFrom(log: seq<Event>, b: Bytes, a: Bytes): (ps: seq<Packet>)
    ensures |ps| <= |log|
  {
    if log == [] then []
    else
      var e := log[|log| - 1];
      AcceptedFrom(log[..|log| - 1], b, a) + if e.Accepted? && e.at == b && e.from == a then [e.packet] else []
  }

  // ---------------------------------------------------------------------------------------------
  // Steps

  /** `Learn` registers a peer or updates it with a later header. `Other` is any write outside the queues.
      `Post` has any contents: a relayer may repeat, reorder, drop or invent posts. */
  datatype Step =
    | Create(at: Bytes, held: set<Actor>, create: CreateTx)
    | Post(at: Bytes, post: PostTx)
    | Learn(at: Bytes, peer: Bytes, height: int)
    | Other(at: Bytes, key: Bytes, value: Option<Bytes>)
    | Commit(at: Bytes)

  ghost predicate IsQueueKey(key: Bytes) {
    exists d, id, k :: key == QueuePrefix(d, id) + k
  }

  /** What the environment keeps to: stored headers are correct, their application hash being the state
      that the peer committed one block earlier, and packet bytes are written to queue slots only. */
  ghost predicate Fair(enc: Encoding, w: World, s: Step) {
    match s
    case Learn(_, peer, height) => peer in w.chains && 1 <= height <= |w.chains[peer].history|
    case Other(_, key, value) => !IsQueueKey(key) && (value.Some? ==> forall p :: value.value != enc(p))
    case _ => true
  }

  function Update(w: World, id: Bytes, c: Chain, events: seq<Event>): World {
    World(w.chains[id := c], w.log + events)
  }

  ghost function Next(enc: Encoding, prove: Prover, w: World, s: Step): World {
    if s.at !in w.chains then w
    else
      var c := w.chains[s.at];
      match s
      case Create(id, held, t) =>
        if MayCreate(c, held, t) then Update(w, id, Created(enc, id, c, t), [Sent(id, NewPacket(id, c, t))]) else w
      case Post(id, t) =>
        if MayPost(enc, prove, id, c, t) then Update(w, id, Posted(enc, c, t), [Accepted(id, t.from, t.packet)]) else w
      case Learn(id, peer, height) =>
        if peer in w.chains && 1 <= height <= |w.chains[peer].history| then
          var root := w.chains[peer].history[height - 1];
          Update(w, id, c.(registered := c.registered + {peer}, headers := c.headers[(peer, height) := root]), [])
        else w
      case Other(id, key, value) =>
        Update(w, id, c.(store := if value.Some? then c.store[key := value.value] else c.store - {key}), [])
      case Commit(id) => Update(w, id, c.(history := c.history + [c.store]), [])
  }

  ghost function Run(enc: Encoding, prove: Prover, w: World, steps: seq<Step>): World {
    if steps == [] then w
    else Next(enc, prove, Run(enc, prove, w, steps[..|steps| - 1]), steps[|steps| - 1])
  }

  ghost predicate FairRun(enc: Encoding, prove: Prover, w: World, steps: seq<Step>) {
    steps == [] ||
    (FairRun(enc, prove, w, steps[..|steps| - 1]) &&
     Fair(enc, Run(enc, prove, w, steps[..|steps| - 1]), steps[|steps| - 1]))
  }

  lemma Extend(enc: Encoding, prove: Prover, w: World, steps: seq<Step>, s: Step)
    requires FairRun(enc, prove, w, steps) && Fair(enc, Run(enc, prove, w, steps), s)
    ensures FairRun(enc, prove, w, steps + [s])
    ensures Run(enc, prove, w, steps + [s]) == Next(enc, prove, Run(enc, prove, w, steps), s)
  {
    assert (steps + [s])[..|steps|] == steps;
  }

  lemma SnocSlices(steps: seq<Step>, more: seq<Step>)
    requires more != []
    ensures var all := steps + more;
            all[..|all| - 1] == steps + more[..|more| - 1] && all[|all| - 1] == more[|more| - 1]
  {
  }

  lemma {:induction false} RunAppend(enc: Encoding, prove: Prover, w: World, steps: seq<Step>, more: seq<Step>)
    ensures Run(enc, prove, w, steps + more) == Run(enc, prove, Run(enc, prove, w, steps), more)
    decreases |more|
  {
    if more == [] {
      assert steps + more == steps;
    } else {
      SnocSlices(steps, more);
      RunAppend(enc, prove, w, steps, more[..|more| - 1]);
    }
  }

  lemma {:induction false} FairAppend(enc: Encoding, prove: Prover, w: World, steps: seq<Step>, more: seq<Step>)
    requires FairRun(enc, prove, w, steps) && FairRun(enc, prove, Run(enc, prove, w, steps), more)
    ensures FairRun(enc, prove, w, steps + more)
    decreases |more|
  {
    if more == [] {
      assert steps + more == steps;
    } else {
      SnocSlices(steps, more);
      FairAppend(enc, prove, w, steps, more[..|more| - 1]);
      RunAppend(enc, prove, w, steps, more[..|more| - 1]);
    }
  }

  lemma Append(enc: Encoding, prove: Prover, w: World, steps: seq<Step>, more: seq<Step>)
    requires FairRun(enc, prove, w, steps) && FairRun(enc, prove, Run(enc, prove, w, steps), more)
    ensures FairRun(enc, prove, w, steps + more)
    ensures Run(enc, prove, w, steps + more) == Run(enc, prove, Run(enc, prove, w, steps), more)
  {
    FairAppend(enc, prove, w, steps, more);
    RunAppend(enc, prove, w, steps, more);
  }

  // ---------------------------------------------------------------------------------------------
  // The invariant

  function Encoded(enc: Encoding, ps: seq<Packet>): (r: seq<Bytes>)
    ensures |r| == |ps| && forall i :: 0 <= i < |r| ==> r[i] == enc(ps[i])
  {
    seq(|ps|, i requires 0 <= i < |ps| => enc(ps[i]))
  }

  /** The packets of the queue of chain `a` from or to `b`. */
  function QueueOf(log: seq<Event>, a: Bytes, d: Dir, b: Bytes): (ps: seq<Packet>)
    ensures |ps| <= |log|
  {
    if d == Input then AcceptedFrom(log, a, b) else SentTo(log, a, b)
  }

  ghost predicate QueueHolds(enc: Encoding, store: Store, log: seq<Event>, a: Bytes, d: Dir, b: Bytes) {
    Loads(store, QueuePrefix(d, b), Encoded(enc, QueueOf(log, a, d, b)))
  }

  ghost predicate QueuesHold(enc: Encoding, w: World, a: Bytes)
    requires a in w.chains
  {
    forall d, b :: b in w.chains ==> QueueHolds(enc, w.chains[a].store, w.log, a, d, b)
  }

  /** Packet bytes in a state of `a` are addressed to `a` or were enqueued by `a`. */
  ghost predicate Known(enc: Encoding, log: seq<Event>, a: Bytes, store: Store) {
    forall k, p :: k in store && store[k] == enc(p) ==> p.dest == a || p in SentTo(log, a, p.dest)
  }

  ghost predicate KnownHistory(enc: Encoding, log: seq<Event>, a: Bytes, history: seq<Store>) {
    forall h :: 0 <= h < |history| ==> Known(enc, log, a, history[h])
  }

  ghost predicate HeadersOk(w: World, c: Chain) {
    && c.registered <= w.chains.Keys
    && forall peer, h :: (peer, h) in c.headers ==>
         peer in w.chains && 1 <= h <= |w.chains[peer].history| && c.headers[(peer, h)] == w.chains[peer].history[h - 1]
  }

  ghost predicate ChainInv(enc: Encoding, w: World, a: Bytes)
    requires a in w.chains
  {
    && NulFree(a) && QueuesHold(enc, w, a) && HeadersOk(w, w.chains[a])
    && Known(enc, w.log, a, w.chains[a].store) && KnownHistory(enc, w.log, a, w.chains[a].history)
  }

  /** The packets are addressed to `b` and numbered from zero, as a 64-bit counter does it. */
  ghost predicate Numbered(ps: seq<Packet>, b: Bytes) {
    forall i :: 0 <= i < |ps| ==> ps[i].dest == b && ps[i].sequence == i % WORD
  }

  /** What was accepted was sent, and in that order while no number is used twice. */
  ghost predicate Follows(accepted: seq<Packet>, sent: seq<Packet>) {
    && (forall i :: 0 <= i < |accepted| ==> accepted[i] in sent)
    && (|sent| <= WORD && |accepted| <= WORD ==> accepted <= sent)
  }

  /** The packets carry permissions of chain `a` only. */
  ghost predicate Stamped(ps: seq<Packet>, a: Bytes) {
    forall i :: 0 <= i < |ps| ==> AllHaveChain(ps[i].permissions, a)
  }

  /** What the log says of one pair of chains. */
  ghost predicate PairInv(log: seq<Event>, a: Bytes, b: Bytes) {
    && Stamped(SentTo(log, a, b), a) && Numbered(SentTo(log, a, b), b) && Numbered(AcceptedFrom(log, b, a), b)
    && (a != b ==> Follows(AcceptedFrom(log, b, a), SentTo(log, a, b)))
  }

  ghost predicate LogInv(log: seq<Event>) {
    forall a, b :: PairInv(log, a, b)
  }

  ghost predicate Inv(enc: Encoding, w: World) {
    LogInv(w.log) && forall a :: a in w.chains ==> ChainInv(enc, w, a)
  }

  // ---------------------------------------------------------------------------------------------
  // The log

  lemma LogSnoc(log: seq<Event>, e: Event, a: Bytes, b: Bytes)
    ensures SentTo(log + [e], a, b) ==
            SentTo(log, a, b) + if e.Sent? && e.at == a && e.packet.dest == b then [e.packet] else []
    ensures AcceptedFrom(log + [e], b, a) ==
            AcceptedFrom(log, b, a) + if e.Accepted? && e.at == b && e.from == a then [e.packet] else []
  {
    assert (log + [e])[..|log|] == log;
  }

  lemma NumberedMore(ps: seq<Packet>, b: Bytes, p: Packet)
    requires Numbered(ps, b) && p.dest == b && p.sequence == |ps| % WORD
    ensures Numbered(ps + [p], b)
  {
  }

  lemma FollowsMore(sent: seq<Packet>, accepted: seq<Packet>, p: Packet)
    ensures Follows(accepted, sent) ==> Follows(accepted, sent + [p])
  {
  }

  lemma SentPair(log: seq<Event>, id: Bytes, p: Packet, a: Bytes, b: Bytes)
    requires PairInv(log, a, b) && p.sequence == |SentTo(log, id, p.dest)| % WORD && AllHaveChain(p.permissions, id)
    ensures PairInv(log + [Sent(id, p)], a, b)
  {
    LogSnoc(log, Sent(id, p), a, b);
    if a == id && b == p.dest {
      NumberedMore(SentTo(log, a, b), b, p);
      FollowsMore(SentTo(log, a, b), AcceptedFrom(log, b, a), p);
    }
  }

  lemma SentNumbered(log: seq<Event>, id: Bytes, p: Packet)
    requires LogInv(log) && p.sequence == |SentTo(log, id, p.dest)| % WORD && AllHaveChain(p.permissions, id)
    ensures LogInv(log + [Sent(id, p)])
  {
    forall a, b ensures PairInv(log + [Sent(id, p)], a, b) {
      assert PairInv(log, a, b);
      SentPair(log, id, p, a, b);
    }
  }

  /** The next packet accepted is the next one sent, since packets are numbered. */
  lemma NextAccepted(sent: seq<Packet>, accepted: seq<Packet>, b: Bytes, p: Packet)
    requires Numbered(sent, b) && Follows(accepted, sent) && p in sent && p.sequence == |accepted| % WORD
    ensures Follows(accepted + [p], sent)
  {
    if |sent| <= WORD && |accepted| < WORD {
      var i :| 0 <= i < |sent| && sent[i] == p;
      assert i == |accepted|;
    }
  }

  lemma AcceptedPair(log: seq<Event>, id: Bytes, from: Bytes, p: Packet, a: Bytes, b: Bytes)
    requires PairInv(log, a, b) && p.dest == id && p.sequence == |AcceptedFrom(log, id, from)| % WORD
    requires from != id ==> p in SentTo(log, from, id)
    ensures PairInv(log + [Accepted(id, from, p)], a, b)
  {
    LogSnoc(log, Accepted(id, from, p), a, b);
    if a == from && b == id {
      NumberedMore(AcceptedFrom(log, b, a), b, p);
      if a != b {
        NextAccepted(SentTo(log, a, b), AcceptedFrom(log, b, a), b, p);
      }
    }
  }

  lemma AcceptedNumbered(log: seq<Event>, id: Bytes, from: Bytes, p: Packet)
    requires LogInv(log) && p.dest == id && p.sequence == |AcceptedFrom(log, id, from)| % WORD
    requires from != id ==> p in SentTo(log, from, id)
    ensures LogInv(log + [Accepted(id, from, p)])
  {
    forall a, b ensures PairInv(log + [Accepted(id, from, p)], a, b) {
      assert PairInv(log, a, b);
      AcceptedPair(log, id, from, p, a, b);
    }
  }

  /** A longer log knows no fewer packets. */
  lemma KnownGrows(enc: Encoding, log: seq<Event>, e: Event, a: Bytes, store: Store)
    requires Known(enc, log, a, store)
    ensures Known(enc, log + [e], a, store)
  {
    forall k, p | k in store && store[k] == enc(p) ensures p.dest == a || p in SentTo(log + [e], a, p.dest) {
      LogSnoc(log, e, a, p.dest);
    }
  }

  lemma KnownHistoryGrows(enc: Encoding, log: seq<Event>, e: Event, a: Bytes, history: seq<Store>)
    requires KnownHistory(enc, log, a, history)
    ensures KnownHistory(enc, log + [e], a, history)
  {
    forall h | 0 <= h < |history| ensures Known(enc, log + [e], a, history[h]) {
      KnownGrows(enc, log, e, a, history[h]);
    }
  }

  // ---------------------------------------------------------------------------------------------
  // Pushing a packet

  /** Which queue an event extends. */
  function DirOf(e: Event): Dir {
    if e.Sent? then Output else Input
  }

  function PeerOf(e: Event): Bytes {
    if e.Sent? then e.packet.dest else e.from
  }

  lemma QueueSnoc(log: seq<Event>, e: Event, a: Bytes, d: Dir, b: Bytes)
    ensures QueueOf(log + [e], a, d, b) ==
            QueueOf(log, a, d, b) + if e.at == a && DirOf(e) == d && PeerOf(e) == b then [e.packet] else []
  {
    if d == Input {
      LogSnoc(log, e, b, a);
    } else {
      LogSnoc(log, e, a, b);
    }
  }

  /** A push changes two keys of its queue. */
  lemma PushElsewhere(data: Store, d: Dir, id: Bytes, e: Dir, other: Bytes, v: Bytes, key: Bytes)
    requires NulFree(id) && NulFree(other) && (d != e || id != other)
    ensures var after, k := PushAt(data, QueuePrefix(d, id), v), QueuePrefix(e, other) + key;
            (k in after <==> k in data) && (k in data ==> after[k] == data[k])
  {
    QueuesDisjoint(d, id, e, other, Slot(TailOf(data, QueuePrefix(d, id))), key);
    QueuesDisjoint(d, id, e, other, TAIL, key);
  }

  /** Stores that agree on the keys of a queue load the same queue. */
  lemma SameQueue(data: Store, after: Store, q: Bytes, items: seq<Bytes>)
    requires Loads(data, q, items)
    requires forall k :: (q + k in after <==> q + k in data) && (q + k in data ==> after[q + k] == data[q + k])
    ensures Loads(after, q, items)
  {
    assert q + TAIL in after <==> q + TAIL in data;
    assert q + HEAD in after <==> q + HEAD in data;
    forall i | 0 <= i < |items| && |items| - i <= WORD ensures Stored(after, q, i % WORD, items[i]) {
      assert Stored(data, q, i % WORD, items[i]);
    }
  }

  lemma PushOtherQueue(data: Store, d: Dir, id: Bytes, e: Dir, other: Bytes, items: seq<Bytes>, v: Bytes)
    requires NulFree(id) && NulFree(other) && (d != e || id != other)
    requires Loads(data, QueuePrefix(e, other), items)
    ensures Loads(PushAt(data, QueuePrefix(d, id), v), QueuePrefix(e, other), items)
  {
    var q, after := QueuePrefix(e, other), PushAt(data, QueuePrefix(d, id), v);
    forall k ensures (q + k in after <==> q + k in data) && (q + k in data ==> after[q + k] == data[q + k]) {
      PushElsewhere(data, d, id, e, other, v, k);
    }
    SameQueue(data, after, q, items);
  }

  lemma PushKnown(enc: Encoding, log: seq<Event>, e: Event, store: Store, prefix: Bytes)
    requires GoodEncoding(enc) && Known(enc, log, e.at, store)
    requires e.Accepted? ==> e.packet.dest == e.at
    ensures Known(enc, log + [e], e.at, PushAt(store, prefix, enc(e.packet)))
  {
    var after := PushAt(store, prefix, enc(e.packet));
    assert |after[prefix + TAIL]| == 8;
    forall k, p | k in after && after[k] == enc(p) ensures p.dest == e.at || p in SentTo(log + [e], e.at, p.dest) {
      LogSnoc(log, e, e.at, p.dest);
      if k == prefix + Slot(TailOf(store, prefix)) {
        assert p == e.packet;
      } else {
        assert store[k] == enc(p);
      }
    }
  }

  lemma PushQueues(enc: Encoding, w: World, e: Event)
    requires e.at in w.chains && PeerOf(e) in w.chains
    requires QueuesHold(enc, w, e.at) && forall b :: b in w.chains ==> NulFree(b)
    ensures QueuesHold(enc, PushEvent(enc, w, e), e.at)
  {
    var store, d, id, v := w.chains[e.at].store, DirOf(e), PeerOf(e), enc(e.packet);
    forall dir, b | b in w.chains ensures QueueHolds(enc, PushAt(store, QueuePrefix(d, id), v), w.log + [e], e.at,
                                                     dir, b) {
      var ps := QueueOf(w.log, e.at, dir, b);
      QueueSnoc(w.log, e, e.at, dir, b);
      assert QueueHolds(enc, store, w.log, e.at, dir, b);
      if dir == d && b == id {
        PushLoads(store, QueuePrefix(d, id), Encoded(enc, ps), v);
        assert Encoded(enc, ps + [e.packet]) == Encoded(enc, ps) + [v];
      } else {
        assert ps + [] == ps;
        PushOtherQueue(store, d, id, dir, b, Encoded(enc, ps), v);
      }
    }
  }

  /** The world after chain `e.at` pushed a packet and logged it. */
  ghost function PushEvent(enc: Encoding, w: World, e: Event): World
    requires e.at in w.chains
  {
    var c := w.chains[e.at];
    Update(w, e.at, c.(store := PushAt(c.store, QueuePrefix(DirOf(e), PeerOf(e)), enc(e.packet))), [e])
  }

  /** Chains that did nothing keep their part of the invariant when the log grows. */
  lemma OthersKeep(enc: Encoding, w: World, w': World, a: Bytes, e: Event)
    requires a in w.chains && ChainInv(enc, w, a) && e.at != a
    requires w'.chains.Keys == w.chains.Keys && w'.log == w.log + [e] && w'.chains[a] == w.chains[a]
    requires forall b :: b in w.chains ==> w'.chains[b].history == w.chains[b].history
    ensures ChainInv(enc, w', a)
  {
    KnownGrows(enc, w.log, e, a, w.chains[a].store);
    KnownHistoryGrows(enc, w.log, e, a, w.chains[a].history);
    forall d, b | b in w'.chains ensures QueueHolds(enc, w'.chains[a].store, w'.log, a, d, b) {
      QueueSnoc(w.log, e, a, d, b);
      assert QueueHolds(enc, w.chains[a].store, w.log, a, d, b);
    }
  }

  lemma PushKeepsInv(enc: Encoding, w: World, e: Event)
    requires GoodEncoding(enc) && Inv(enc, w)
    requires e.at in w.chains && PeerOf(e) in w.chains && LogInv(w.log + [e])
    requires e.Accepted? ==> e.packet.dest == e.at
    ensures Inv(enc, PushEvent(enc, w, e))
  {
    var w' := PushEvent(enc, w, e);
    assert forall b :: b in w.chains ==> ChainInv(enc, w, b);
    forall a | a in w'.chains ensures ChainInv(enc, w', a) {
      assert ChainInv(enc, w, a);
      if a == e.at {
        PushQueues(enc, w, e);
        PushKnown(enc, w.log, e, w.chains[a].store, QueuePrefix(DirOf(e), PeerOf(e)));
        KnownHistoryGrows(enc, w.log, e, a, w.chains[a].history);
      } else {
        OthersKeep(enc, w, w', a, e);
      }
    }
  }

  lemma CreateKeepsInv(enc: Encoding, w: World, id: Bytes, held: set<Actor>, t: CreateTx)
    requires GoodEncoding(enc) && Inv(enc, w)
    requires id in w.chains && MayCreate(w.chains[id], held, t)
    ensures Inv(enc, Update(w, id, Created(enc, id, w.chains[id], t), [Sent(id, NewPacket(id, w.chains[id], t))]))
  {
    assert ChainInv(enc, w, id);
    var p := NewPacket(id, w.chains[id], t);
    assert QueueHolds(enc, w.chains[id].store, w.log, id, Output, t.dest);
    SentNumbered(w.log, id, p);
    PushKeepsInv(enc, w, Sent(id, p));
  }

  /** A post that passes carries the next packet that the peer enqueued: a sound proof finds it in a
      committed state of the peer, where only enqueued packets are addressed to another chain. */
  lemma PostIsNext(enc: Encoding, prove: Prover, w: World, id: Bytes, t: PostTx)
    requires Sound(prove) && Inv(enc, w)
    requires id in w.chains && MayPost(enc, prove, id, w.chains[id], t)
    ensures t.from in w.chains && t.packet.sequence == |AcceptedFrom(w.log, id, t.from)| % WORD
    ensures t.from != id ==> t.packet in SentTo(w.log, t.from, id)
  {
    var c := w.chains[id];
    assert ChainInv(enc, w, id) && ChainInv(enc, w, t.from);
    assert QueueHolds(enc, c.store, w.log, id, Input, t.from);
    var root := c.headers[(t.from, t.height + 1)];
    assert root == w.chains[t.from].history[t.height];
    assert Known(enc, w.log, t.from, root);
    assert t.key in root && root[t.key] == enc(t.packet);
  }

  lemma PostKeepsInv(enc: Encoding, prove: Prover, w: World, id: Bytes, t: PostTx)
    requires GoodEncoding(enc) && Sound(prove) && Inv(enc, w)
    requires id in w.chains && MayPost(enc, prove, id, w.chains[id], t)
    ensures Inv(enc, Update(w, id, Posted(enc, w.chains[id], t), [Accepted(id, t.from, t.packet)]))
  {
    PostIsNext(enc, prove, w, id, t);
    AcceptedNumbered(w.log, id, t.from, t.packet);
    PushKeepsInv(enc, w, Accepted(id, t.from, t.packet));
  }

  /** A write outside the queues leaves them alone. */
  lemma OtherQueue(store: Store, key: Bytes, after: Store, d: Dir, b: Bytes, items: seq<Bytes>)
    requires !IsQueueKey(key) && Loads(store, QueuePrefix(d, b), items)
    requires forall k :: k != key ==> (k in after <==> k in store) && (k in store ==> after[k] == store[k])
    ensures Loads(after, QueuePrefix(d, b), items)
  {
    var q := QueuePrefix(d, b);
    forall k ensures (q + k in after <==> q + k in store) && (q + k in store ==> after[q + k] == store[q + k]) {
      assert q + k != key;
    }
    SameQueue(store, after, q, items);
  }

  /** A step that logs nothing and changes only chain `id`. */
  lemma QuietKeepsInv(enc: Encoding, w: World, id: Bytes, c: Chain)
    requires Inv(enc, w) && id in w.chains && w.chains[id].history <= c.history
    requires var w' := Update(w, id, c, []); QueuesHold(enc, w', id) && HeadersOk(w', c)
    requires Known(enc, w.log, id, c.store) && KnownHistory(enc, w.log, id, c.history)
    ensures Inv(enc, Update(w, id, c, []))
  {
    var w' := Update(w, id, c, []);
    assert w'.log == w.log;
    forall a | a in w'.chains ensures ChainInv(enc, w', a) {
      assert ChainInv(enc, w, a);
      if a != id {
        forall d, b | b in w'.chains ensures QueueHolds(enc, w'.chains[a].store, w'.log, a, d, b) {
          assert QueueHolds(enc, w.chains[a].store, w.log, a, d, b);
        }
        HeadersKeep(w, id, c, w.chains[a]);
      }
    }
  }

  lemma HeadersKeep(w: World, id: Bytes, c: Chain, reader: Chain)
    requires id in w.chains && w.chains[id].history <= c.history && HeadersOk(w, reader)
    ensures HeadersOk(Update(w, id, c, []), reader)
  {
  }

  lemma QueuesHoldQuiet(enc: Encoding, w: World, id: Bytes, c: Chain)
    requires id in w.chains && QueuesHold(enc, w, id) && c.store == w.chains[id].store
    ensures QueuesHold(enc, Update(w, id, c, []), id)
  {
    assert w.log + [] == w.log;
    forall d, b | b in w.chains ensures QueueHolds(enc, c.store, w.log, id, d, b) {
      assert QueueHolds(enc, w.chains[id].store, w.log, id, d, b);
    }
  }

  lemma LearnKeepsInv(enc: Encoding, w: World, id: Bytes, peer: Bytes, height: int)
    requires Inv(enc, w) && id in w.chains && peer in w.chains && 1 <= height <= |w.chains[peer].history|
    ensures var c := w.chains[id];
            var root := w.chains[peer].history[height - 1];
            Inv(enc, Update(w, id, c.(registered := c.registered + {peer}, headers := c.headers[(peer,
                                                                                                 height) := root]), []))
  {
    var c := w.chains[id];
    var root := w.chains[peer].history[height - 1];
    var c' := c.(registered := c.registered + {peer}, headers := c.headers[(peer, height) := root]);
    assert ChainInv(enc, w, id);
    QueuesHoldQuiet(enc, w, id, c');
    HeadersKeep(w, id, c', c);
    QuietKeepsInv(enc, w, id, c');
  }

  lemma CommitKeepsInv(enc: Encoding, w: World, id: Bytes)
    requires Inv(enc, w) && id in w.chains
    ensures Inv(enc, Update(w, id, w.chains[id].(history := w.chains[id].history + [w.chains[id].store]), []))
  {
    var c := w.chains[id];
    var c' := c.(history := c.history + [c.store]);
    assert ChainInv(enc, w, id);
    QueuesHoldQuiet(enc, w, id, c');
    HeadersKeep(w, id, c', c);
    QuietKeepsInv(enc, w, id, c');
  }

  lemma OtherKeepsInv(enc: Encoding, w: World, id: Bytes, key: Bytes, value: Option<Bytes>)
    requires Inv(enc, w) && id in w.chains
    requires !IsQueueKey(key) && (value.Some? ==> forall p :: value.value != enc(p))
    ensures var c := w.chains[id];
            Inv(enc, Update(w, id, c.(store := if value.Some? then c.store[key := value.value] else c.store - {key}),
                            []))
  {
    var c := w.chains[id];
    var c' := c.(store := if value.Some? then c.store[key := value.value] else c.store - {key});
    assert ChainInv(enc, w, id);
    assert w.log + [] == w.log;
    forall d, b | b in w.chains ensures QueueHolds(enc, c'.store, w.log, id, d, b) {
      assert QueueHolds(enc, c.store, w.log, id, d, b);
      OtherQueue(c.store, key, c'.store, d, b, Encoded(enc, QueueOf(w.log, id, d, b)));
    }
    HeadersKeep(w, id, c', c);
    QuietKeepsInv(enc, w, id, c');
  }

  // ---------------------------------------------------------------------------------------------
  // Runs

  lemma QuietStepKeepsInv(enc: Encoding, prove: Prover, w: World, s: Step)
    requires Inv(enc, w) && Fair(enc, w, s) && !s.Create? && !s.Post?
    ensures Inv(enc, Next(enc, prove, w, s))
  {
    if s.at in w.chains {
      match s
      case Learn(id, peer, height) => LearnKeepsInv(enc, w, id, peer, height);
      case Other(id, key, value) => OtherKeepsInv(enc, w, id, key, value);
      case Commit(id) => CommitKeepsInv(enc, w, id);
    }
  }

  lemma NextKeepsInv(enc: Encoding, prove: Prover, w: World, s: Step)
    requires GoodEncoding(enc) && Sound(prove) && Inv(enc, w) && Fair(enc, w, s)
    ensures Inv(enc, Next(enc, prove, w, s))
  {
    match s
    case Create(id, held, t) =>
      if id in w.chains && MayCreate(w.chains[id], held, t) {
        CreateKeepsInv(enc, w, id, held, t);
      }
    case Post(id, t) =>
      if id in w.chains && MayPost(enc, prove, id, w.chains[id], t) {
        PostKeepsInv(enc, prove, w, id, t);
      }
    case _ => QuietStepKeepsInv(enc, prove, w, s);
  }

  /** Chains with proper ids, empty queues and nothing committed yet. */
  ghost predicate Init(enc: Encoding, w: World) {
    w.log == [] && forall a :: a in w.chains ==> NulFree(a) && Fresh(enc, w, w.chains[a])
  }

  ghost predicate Fresh(enc: Encoding, w: World, c: Chain) {
    && c.history == [] && c.headers == map[] && c.registered <= w.chains.Keys
    && (forall k :: k in c.store ==> !IsQueueKey(k))
    && (forall k, p :: k in c.store ==> c.store[k] != enc(p))
  }

  lemma InitInv(enc: Encoding, w: World)
    requires Init(enc, w)
    ensures Inv(enc, w)
  {
    forall a | a in w.chains ensures ChainInv(enc, w, a) {
      forall d, b | b in w.chains ensures QueueHolds(enc, w.chains[a].store, w.log, a, d, b) {
        assert IsQueueKey(QueuePrefix(d, b) + TAIL) && IsQueueKey(QueuePrefix(d, b) + HEAD);
      }
    }
  }

  lemma {:induction false} RunKeepsInv(enc: Encoding, prove: Prover, w: World, steps: seq<Step>)
    requires GoodEncoding(enc) && Sound(prove) && Init(enc, w) && FairRun(enc, prove, w, steps)
    ensures Inv(enc, Run(enc, prove, w, steps))
    decreases |steps|
  {
    if steps == [] {
      InitInv(enc, w);
    } else {
      var before := Run(enc, prove, w, steps[..|steps| - 1]);
      RunKeepsInv(enc, prove, w, steps[..|steps| - 1]);
      NextKeepsInv(enc, prove, before, steps[|steps| - 1]);
    }
  }

  /** In every run the packets that `b` accepted from another chain `a` are packets that `a` enqueued for `b`,
      numbered in the order of acceptance by a 64-bit counter, and with permissions of `a` only. */
  lemma AcceptedWereSent(enc: Encoding, prove: Prover, w: World, steps: seq<Step>, a: Bytes, b: Bytes)
    requires GoodEncoding(enc) && Sound(prove) && Init(enc, w) && FairRun(enc, prove, w, steps)
    requires a != b
    ensures var log := Run(enc, prove, w, steps).log;
            var sent, accepted := SentTo(log, a, b), AcceptedFrom(log, b, a);
            forall i :: 0 <= i < |accepted| ==>
              && accepted[i] in sent && accepted[i].sequence == i % WORD && accepted[i].dest == b
              && AllHaveChain(accepted[i].permissions, a)
  {
    RunKeepsInv(enc, prove, w, steps);
    var log := Run(enc, prove, w, steps).log;
    assert PairInv(log, a, b);
  }

  lemma NumbersDiffer(i: nat, n: nat)
    requires i < n < WORD
    ensures i % WORD != n % WORD
  {
  }

  /** While no number is used twice, no more is accepted than was sent. */
  lemma NoMoreThanSent(sent: seq<Packet>, accepted: seq<Packet>, b: Bytes)
    requires Numbered(sent, b) && Numbered(accepted, b) && Follows(accepted, sent) && |sent| < WORD
    ensures accepted <= sent
  {
    if |accepted| > |sent| {
      var p := accepted[|sent|];
      var i :| 0 <= i < |sent| && sent[i] == p;
      NumbersDiffer(i, |sent|);
    }
  }

  lemma SmallNumbers(ps: seq<Packet>, b: Bytes)
    requires Numbered(ps, b) && |ps| <= WORD
    ensures forall i :: 0 <= i < |ps| ==> ps[i].sequence == i && ps[i].dest == b
  {
  }

  lemma PrefixOfSent(log: seq<Event>, a: Bytes, b: Bytes)
    requires LogInv(log) && a != b && |SentTo(log, a, b)| < WORD
    ensures var sent, accepted := SentTo(log, a, b), AcceptedFrom(log, b, a);
            && accepted <= sent
            && (forall i :: 0 <= i < |accepted| ==>
                  accepted[i].sequence == i && accepted[i].dest == b && AllHaveChain(accepted[i].permissions, a))
  {
    assert PairInv(log, a, b);
    NoMoreThanSent(SentTo(log, a, b), AcceptedFrom(log, b, a), b);
    SmallNumbers(AcceptedFrom(log, b, a), b);
  }

  /** In every run in which `a` enqueued fewer than 2^64 packets for `b`, the packets that `b` accepted from
      another chain `a` are a prefix of them: each once, in sequence order, addressed to `b` and with
      permissions of `a` only. */
  lemma AcceptedIsPrefixOfSent(enc: Encoding, prove: Prover, w: World, steps: seq<Step>, a: Bytes, b: Bytes)
    requires GoodEncoding(enc) && Sound(prove) && Init(enc, w) && FairRun(enc, prove, w, steps)
    requires a != b && |SentTo(Run(enc, prove, w, steps).log, a, b)| < WORD
    ensures var log := Run(enc, prove, w, steps).log;
            var sent, accepted := SentTo(log, a, b), AcceptedFrom(log, b, a);
            && accepted <= sent
            && (forall i :: 0 <= i < |accepted| ==>
                  accepted[i].sequence == i && accepted[i].dest == b && AllHaveChain(accepted[i].permissions, a))
  {
    RunKeepsInv(enc, prove, w, steps);
    PrefixOfSent(Run(enc, prove, w, steps).log, a, b);
  }

  /** What is stored is what was logged: the queues of a chain hold exactly its sent and accepted packets. */
  lemma QueuesHoldTheLog(enc: Encoding, prove: Prover, w: World, steps: seq<Step>, a: Bytes, b: Bytes)
    requires GoodEncoding(enc) && Sound(prove) && Init(enc, w) && FairRun(enc, prove, w, steps)
    requires var after := Run(enc, prove, w, steps); a in after.chains && b in after.chains
    ensures var after := Run(enc, prove, w, steps);
            var store := after.chains[a].store;
            && Loads(store, QueuePrefix(Output, b), Encoded(enc, SentTo(after.log, a, b)))
            && Loads(store, QueuePrefix(Input, b), Encoded(enc, AcceptedFrom(after.log, a, b)))
  {
    RunKeepsInv(enc, prove, w, steps);
    var after := Run(enc, prove, w, steps);
    assert ChainInv(enc, after, a);
    assert QueueHolds(enc, after.chains[a].store, after.log, a, Output, b);
    assert QueueHolds(enc, after.chains[a].store, after.log, a, Input, b);
  }

  /** Acceptance never gets stuck: once the next packet is in a state whose header `b` has stored, posting
      it with a proof succeeds. */
  lemma NextCanBePosted(enc: Encoding, prove: Prover, w: World, a: Bytes, b: Bytes, height: nat, proof: Bytes,
                        key: Bytes)
    requires Inv(enc, w) && a in w.chains && b in w.chains && a in w.chains[b].registered
    requires |AcceptedFrom(w.log, b, a)| < |SentTo(w.log, a, b)|
    requires (a, height + 1) in w.chains[b].headers
    requires prove(proof, key, enc(SentTo(w.log, a, b)[|AcceptedFrom(w.log, b, a)|]),
                   w.chains[b].headers[(a, height + 1)])
    ensures var p := SentTo(w.log, a, b)[|AcceptedFrom(w.log, b, a)|];
            MayPost(enc, prove, b, w.chains[b], PostTx(a, height, proof, key, p))
  {
    assert ChainInv(enc, w, b);
    assert QueueHolds(enc, w.chains[b].store, w.log, b, Input, a);
    assert PairInv(w.log, a, b);
  }
}
