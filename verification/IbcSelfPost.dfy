/** Why the packet theorem is about two different chains: a run in which a chain that registered itself
    accepts from itself a packet that it never enqueued. */
module IbcSelfPost {
  import opened ByteOrder
  import opened Queues
  import opened Ibc
  import opened IbcProtocol
  import opened IbcProgress

  /** Two different chains; the second accepts packets, so its id is not empty. */
  datatype Ids = Ids(a: Bytes, b: Bytes)

  ghost predicate Usable(x: Ids) {
    NulFree(x.a) && NulFree(x.b) && x.a != x.b && x.b != []
  }

  ghost function P(x: Ids): Packet {
    Packet(x.b, 0, [], [])
  }

  ghost function Tx(x: Ids): CreateTx {
    CreateTx(x.b, [], Some([]), [])
  }

  /** A prover that is sound and complete. */
  const PROVE: Prover := (proof, key, value, root) => key in root && root[key] == value

  ghost function Do(enc: Encoding, w: World, s: Step): World {
    Next(enc, PROVE, w, s)
  }

  ghost function Start(x: Ids): World {
    World(map[x.a := Chain(map[], [], {}, map[]), x.b := Chain(map[], [], {}, map[])], [])
  }

  // The run: `b` commits, `a` registers `b` and enqueues a packet for it, `a` commits, `b` registers `a`
  // and accepts the packet, `b` commits, registers itself and accepts the same packet from itself.

  ghost function ALearnsB(x: Ids): Step {
    Learn(x.a, x.b, 1)
  }

  ghost function CreateP(x: Ids): Step {
    Create(x.a, {AllowIbc([])}, Tx(x))
  }

  ghost function BLearnsA(x: Ids): Step {
    Learn(x.b, x.a, 1)
  }

  ghost function PostP(x: Ids): Step {
    Post(x.b, PostTx(x.a, 0, [], QueuePrefix(Output, x.b) + Slot(0), P(x)))
  }

  ghost function BLearnsB(x: Ids): Step {
    Learn(x.b, x.b, 2)
  }

  ghost function SelfPost(x: Ids): Step {
    Post(x.b, PostTx(x.b, 1, [], QueuePrefix(Input, x.a) + Slot(0), P(x)))
  }

  ghost predicate Good(x: Ids, enc: Encoding, w: World) {
    Usable(x) && GoodEncoding(enc) && Inv(enc, w) && w.chains.Keys == {x.a, x.b}
  }

  lemma StepGood(x: Ids, enc: Encoding, w: World, s: Step)
    requires Good(x, enc, w) && Fair(enc, w, s)
    ensures Good(x, enc, Do(enc, w, s))
  {
    NextKeepsInv(enc, PROVE, w, s);
  }

  /** The chain `c` has stored the header of `peer` at `height`, with packet `P(x)` in slot 0 of a queue. */
  ghost predicate Sees(x: Ids, enc: Encoding, c: Chain, peer: Bytes, height: int, d: Dir, id: Bytes) {
    && peer in c.registered && (peer, height) in c.headers
    && Stored(c.headers[(peer, height)], QueuePrefix(d, id), 0, enc(P(x)))
  }

  /** After `id` commits, `reader` can store a header behind which `P(x)` is where it was. */
  lemma CommitThenLearn(x: Ids, enc: Encoding, w: World, id: Bytes, reader: Bytes, height: int, d: Dir, q: Bytes)
    requires id in w.chains && reader in w.chains && |w.chains[id].history| == height - 1
    requires Stored(w.chains[id].store, QueuePrefix(d, q), 0, enc(P(x)))
    ensures var w1 := Do(enc, w, Commit(id));
            var w2 := Do(enc, w1, Learn(reader, id, height));
            && Fair(enc, w1, Learn(reader, id, height)) && w2.log == w.log
            && reader in w2.chains && Sees(x, enc, w2.chains[reader], id, height, d, q)
            && (reader != id ==> w2.chains[reader].history == w.chains[reader].history)
  {
  }

  lemma TwoGood(x: Ids, enc: Encoding, w: World, s: Step, t: Step)
    requires Good(x, enc, w) && Fair(enc, w, s) && Fair(enc, Do(enc, w, s), t)
    ensures Good(x, enc, Do(enc, Do(enc, w, s), t))
  {
    StepGood(x, enc, w, s);
    StepGood(x, enc, Do(enc, w, s), t);
  }

  lemma Registering(x: Ids, enc: Encoding, w: World)
    requires Good(x, enc, w) && w.log == [] && w.chains[x.a].history == [] && w.chains[x.b].history == []
    ensures var w1 := Do(enc, w, Commit(x.b));
            var w2 := Do(enc, w1, ALearnsB(x));
            && Fair(enc, w1, ALearnsB(x)) && Good(x, enc, w2) && w2.log == [] && x.b in w2.chains[x.a].registered
            && w2.chains[x.a].history == [] && |w2.chains[x.b].history| == 1
  {
    StepGood(x, enc, w, Commit(x.b));
    StepGood(x, enc, Do(enc, w, Commit(x.b)), ALearnsB(x));
  }

  lemma FirstPacket(x: Ids, enc: Encoding, w: World)
    requires Good(x, enc, w) && w.log == []
    ensures NewPacket(x.a, w.chains[x.a], Tx(x)) == P(x)
  {
    assert ChainInv(enc, w, x.a);
    assert QueueHolds(enc, w.chains[x.a].store, w.log, x.a, Output, x.b);
  }

  lemma Creating(x: Ids, enc: Encoding, w: World)
    requires Good(x, enc, w) && w.log == [] && x.b in w.chains[x.a].registered
    requires w.chains[x.a].history == [] && |w.chains[x.b].history| == 1
    ensures var w1 := Do(enc, w, CreateP(x));
            && Good(x, enc, w1) && w1.log == [Sent(x.a, P(x))]
            && w1.chains[x.a].history == [] && |w1.chains[x.b].history| == 1
  {
    StepGood(x, enc, w, CreateP(x));
    FirstPacket(x, enc, w);
  }

  lemma SentIsStored(x: Ids, enc: Encoding, w: World)
    requires Good(x, enc, w) && w.log == [Sent(x.a, P(x))]
    ensures Stored(w.chains[x.a].store, QueuePrefix(Output, x.b), 0, enc(P(x)))
  {
    LogSnoc([], Sent(x.a, P(x)), x.a, x.b);
    assert [] + [Sent(x.a, P(x))] == w.log;
    assert SentTo(w.log, x.a, x.b) == [P(x)];
    assert ChainInv(enc, w, x.a);
    assert QueueHolds(enc, w.chains[x.a].store, w.log, x.a, Output, x.b);
    SlotOf(w.chains[x.a].store, QueuePrefix(Output, x.b), Encoded(enc, [P(x)]), 0);
  }

  lemma Showing(x: Ids, enc: Encoding, w: World)
    requires Good(x, enc, w) && w.log == [Sent(x.a,
                                               P(x))] && w.chains[x.a].history == [] && |w.chains[x.b].history| == 1
    ensures var w1 := Do(enc, w, Commit(x.a));
            var w2 := Do(enc, w1, BLearnsA(x));
            && Fair(enc, w1, BLearnsA(x)) && Good(x, enc, w2) && w2.log == [Sent(x.a, P(x))]
            && Sees(x, enc, w2.chains[x.b], x.a, 1, Output, x.b) && |w2.chains[x.b].history| == 1
  {
    SentIsStored(x, enc, w);
    CommitThenLearn(x, enc, w, x.a, x.b, 1, Output, x.b);
    TwoGood(x, enc, w, Commit(x.a), BLearnsA(x));
  }

  lemma NothingAccepted(x: Ids, enc: Encoding, w: World)
    requires Good(x, enc, w) && w.log == [Sent(x.a, P(x))]
    ensures TailOf(w.chains[x.b].store, QueuePrefix(Input, x.a)) == 0
  {
    LogSnoc([], Sent(x.a, P(x)), x.a, x.b);
    assert [] + [Sent(x.a, P(x))] == w.log;
    assert AcceptedFrom(w.log, x.b, x.a) == [];
    assert ChainInv(enc, w, x.b);
    assert QueueHolds(enc, w.chains[x.b].store, w.log, x.b, Input, x.a);
  }

  /** A post of `P(x)` whose header is there passes. */
  lemma PostPasses(x: Ids, enc: Encoding, c: Chain, peer: Bytes, height: nat, d: Dir, q: Bytes)
    requires Sees(x, enc, c, peer, height + 1, d, q) && TailOf(c.store, QueuePrefix(Input, peer)) == 0
    ensures MayPost(enc, PROVE, x.b, c, PostTx(peer, height, [], QueuePrefix(d, q) + Slot(0), P(x)))
  {
  }

  /** It is then logged. */
  lemma PassingPost(x: Ids, enc: Encoding, w: World, peer: Bytes, height: nat, d: Dir, q: Bytes)
    requires x.b in w.chains && Sees(x, enc, w.chains[x.b], peer, height + 1, d, q)
    requires TailOf(w.chains[x.b].store, QueuePrefix(Input, peer)) == 0
    ensures var w1 := Do(enc, w, Post(x.b, PostTx(peer, height, [], QueuePrefix(d, q) + Slot(0), P(x))));
            && w1.log == w.log + [Accepted(x.b, peer, P(x))]
            && x.b in w1.chains && w1.chains[x.b].history == w.chains[x.b].history
  {
    PostPasses(x, enc, w.chains[x.b], peer, height, d, q);
  }

  lemma Accepting(x: Ids, enc: Encoding, w: World)
    requires Good(x, enc, w) && w.log == [Sent(x.a, P(x))]
    requires Sees(x, enc, w.chains[x.b], x.a, 1, Output, x.b) && |w.chains[x.b].history| == 1
    ensures var w1 := Do(enc, w, PostP(x));
            Good(x, enc, w1) && w1.log == [Sent(x.a, P(x)), Accepted(x.b, x.a, P(x))] && |w1.chains[x.b].history| == 1
  {
    NothingAccepted(x, enc, w);
    PassingPost(x, enc, w, x.a, 0, Output, x.b);
    StepGood(x, enc, w, PostP(x));
  }

  lemma TwoEvents(x: Ids)
    requires Usable(x)
    ensures var log := [Sent(x.a, P(x)), Accepted(x.b, x.a, P(x))];
            AcceptedFrom(log, x.b, x.a) == [P(x)] && AcceptedFrom(log, x.b, x.b) == [] && SentTo(log, x.b, x.b) == []
  {
    var log := [Sent(x.a, P(x)), Accepted(x.b, x.a, P(x))];
    assert log == [Sent(x.a, P(x))] + [Accepted(x.b, x.a, P(x))] && [Sent(x.a, P(x))] == [] + [Sent(x.a, P(x))];
    LogSnoc([Sent(x.a, P(x))], Accepted(x.b, x.a, P(x)), x.a, x.b);
    LogSnoc([Sent(x.a, P(x))], Accepted(x.b, x.a, P(x)), x.b, x.b);
    LogSnoc([], Sent(x.a, P(x)), x.a, x.b);
    LogSnoc([], Sent(x.a, P(x)), x.b, x.b);
  }

  lemma AcceptedIsStored(x: Ids, enc: Encoding, w: World)
    requires Good(x, enc, w) && w.log == [Sent(x.a, P(x)), Accepted(x.b, x.a, P(x))]
    ensures Stored(w.chains[x.b].store, QueuePrefix(Input, x.a), 0, enc(P(x)))
  {
    TwoEvents(x);
    assert ChainInv(enc, w, x.b);
    assert QueueHolds(enc, w.chains[x.b].store, w.log, x.b, Input, x.a);
    SlotOf(w.chains[x.b].store, QueuePrefix(Input, x.a), Encoded(enc, [P(x)]), 0);
  }

  lemma ShowingItself(x: Ids, enc: Encoding, w: World)
    requires Good(x, enc, w) && w.log == [Sent(x.a, P(x)), Accepted(x.b, x.a, P(x))] && |w.chains[x.b].history| == 1
    ensures var w1 := Do(enc, w, Commit(x.b));
            var w2 := Do(enc, w1, BLearnsB(x));
            && Fair(enc, w1, BLearnsB(x)) && Good(x, enc, w2) && w2.log == w.log
            && Sees(x, enc, w2.chains[x.b], x.b, 2, Input, x.a)
  {
    AcceptedIsStored(x, enc, w);
    CommitThenLearn(x, enc, w, x.b, x.b, 2, Input, x.a);
    TwoGood(x, enc, w, Commit(x.b), BLearnsB(x));
  }

  lemma NothingFromItself(x: Ids, enc: Encoding, w: World)
    requires Good(x, enc, w) && w.log == [Sent(x.a, P(x)), Accepted(x.b, x.a, P(x))]
    ensures TailOf(w.chains[x.b].store, QueuePrefix(Input, x.b)) == 0
  {
    TwoEvents(x);
    assert ChainInv(enc, w, x.b);
    assert QueueHolds(enc, w.chains[x.b].store, w.log, x.b, Input, x.b);
  }

  lemma AcceptingItself(x: Ids, enc: Encoding, w: World)
    requires Good(x, enc, w) && w.log == [Sent(x.a, P(x)), Accepted(x.b, x.a, P(x))]
    requires Sees(x, enc, w.chains[x.b], x.b, 2, Input, x.a)
    ensures var log := Do(enc, w, SelfPost(x)).log;
            AcceptedFrom(log, x.b, x.b) == [P(x)] && SentTo(log, x.b, x.b) == []
  {
    NothingFromItself(x, enc, w);
    PassingPost(x, enc, w, x.b, 1, Input, x.a);
    TwoEvents(x);
    LogSnoc(w.log, Accepted(x.b, x.b, P(x)), x.b, x.b);
  }

  lemma StartGood(x: Ids, enc: Encoding)
    requires Usable(x) && GoodEncoding(enc)
    ensures Init(enc, Start(x)) && Good(x, enc, Start(x))
  {
    InitInv(enc, Start(x));
  }

  lemma UntilCreated(x: Ids, enc: Encoding) returns (steps: seq<Step>)
    requires Usable(x) && GoodEncoding(enc)
    ensures FairRun(enc, PROVE, Start(x), steps) && |steps| == 3
    ensures var w := Run(enc, PROVE, Start(x), steps);
            Good(x, enc, w) && w.log == [Sent(x.a, P(x))] && w.chains[x.a].history == [] && |w.chains[x.b].history| == 1
  {
    StartGood(x, enc);
    Registering(x, enc, Start(x));
    Creating(x, enc, Do(enc, Do(enc, Start(x), Commit(x.b)), ALearnsB(x)));
    steps := [];
    Extend(enc, PROVE, Start(x), steps, Commit(x.b));
    steps := steps + [Commit(x.b)];
    Extend(enc, PROVE, Start(x), steps, ALearnsB(x));
    steps := steps + [ALearnsB(x)];
    Extend(enc, PROVE, Start(x), steps, CreateP(x));
    steps := steps + [CreateP(x)];
  }

  lemma UntilAccepted(x: Ids, enc: Encoding) returns (steps: seq<Step>)
    requires Usable(x) && GoodEncoding(enc)
    ensures FairRun(enc, PROVE, Start(x), steps) && |steps| == 6
    ensures var w := Run(enc, PROVE, Start(x), steps);
            Good(x, enc, w) && w.log == [Sent(x.a, P(x)), Accepted(x.b, x.a, P(x))] && |w.chains[x.b].history| == 1
  {
    steps := UntilCreated(x, enc);
    var w := Run(enc, PROVE, Start(x), steps);
    Showing(x, enc, w);
    Accepting(x, enc, Do(enc, Do(enc, w, Commit(x.a)), BLearnsA(x)));
    Extend(enc, PROVE, Start(x), steps, Commit(x.a));
    steps := steps + [Commit(x.a)];
    Extend(enc, PROVE, Start(x), steps, BLearnsA(x));
    steps := steps + [BLearnsA(x)];
    Extend(enc, PROVE, Start(x), steps, PostP(x));
    steps := steps + [PostP(x)];
  }

  lemma UntilItself(x: Ids, enc: Encoding) returns (steps: seq<Step>)
    requires Usable(x) && GoodEncoding(enc)
    ensures FairRun(enc, PROVE, Start(x), steps)
    ensures var w := Run(enc, PROVE, Start(x), steps);
            && Good(x, enc, w) && w.log == [Sent(x.a, P(x)), Accepted(x.b, x.a, P(x))]
            && Sees(x, enc, w.chains[x.b], x.b, 2, Input, x.a)
  {
    steps := UntilAccepted(x, enc);
    ShowingItself(x, enc, Run(enc, PROVE, Start(x), steps));
    Extend(enc, PROVE, Start(x), steps, Commit(x.b));
    steps := steps + [Commit(x.b)];
    Extend(enc, PROVE, Start(x), steps, BLearnsB(x));
    steps := steps + [BLearnsB(x)];
  }

  /** For one chain in both roles the packet theorem fails: under any encoding and for any two ids there is a
      fair run from a fresh world in which `b` accepts from itself a packet that it never enqueued for itself. */
  lemma SelfAcceptedNeedNotBeSent(x: Ids, enc: Encoding) returns (steps: seq<Step>)
    requires Usable(x) && GoodEncoding(enc)
    ensures Sound(PROVE) && Init(enc, Start(x)) && FairRun(enc, PROVE, Start(x), steps)
    ensures var log := Run(enc, PROVE, Start(x), steps).log;
            SentTo(log, x.b, x.b) == [] && AcceptedFrom(log, x.b, x.b) != []
  {
    StartGood(x, enc);
    steps := UntilItself(x, enc);
    var w := Run(enc, PROVE, Start(x), steps);
    AcceptingItself(x, enc, w);
    Extend(enc, PROVE, Start(x), steps, SelfPost(x));
    steps := steps + [SelfPost(x)];
  }
}
